/** Evicting the oldest inline images once a request body reaches a high-water mark, down to a
    low-water mark, driven by a running size estimate. */
module ImageBudget {
  import opened Bytes
  import opened Conversation
  import opened Json
  import opened ImageMeasure
  import Text
  import Utf8

  /** The texts left behind for an evicted user image and an evicted tool-result image. */
  datatype Notices = Notices(placeholder: string, toolNote: string)

  // ---------------------------------------------------------------- evicting one image

  function ReplaceFirst(parts: seq<Part>, p: Part): seq<Part>
    requires HasImage(parts)
  { parts[FirstImage(parts) := p] }

  function RemoveFirst(parts: seq<Part>): seq<Part>
    requires HasImage(parts)
  { parts[..FirstImage(parts)] + parts[FirstImage(parts) + 1..] }

  function NoteSuffix(n: Notices): string { "\n\n" + n.toolNote }

  function Noted(content: string, n: Notices): string {
    if Text.Contains(content, n.toolNote) then content else content + NoteSuffix(n)
  }

  predicate CarriesImage(item: Item) { HasImage(ImageParts(item)) }

  function EvictItem(item: Item, n: Notices): Item
    requires CarriesImage(item)
  {
    match item
    case User(parts, reason, meta) => User(ReplaceFirst(parts, Part.Text(n.placeholder)), reason, meta)
    case ToolResult(id, content, images) => ToolResult(id, Noted(content, n), RemoveFirst(images))
  }

  /** The first item that carries an image, or the length when there is none. */
  function FirstCarrier(items: seq<Item>): (r: nat)
    ensures r <= |items| && (forall k :: 0 <= k < r ==> !CarriesImage(items[k]))
    ensures r < |items| ==> CarriesImage(items[r])
  {
    if items == [] || CarriesImage(items[0]) then 0 else 1 + FirstCarrier(items[1..])
  }

  predicate AnyImage(items: seq<Item>) { FirstCarrier(items) < |items| }

  /** The oldest image of the conversation, evicted. */
  function EvictOne(items: seq<Item>, n: Notices): seq<Item>
    requires AnyImage(items)
  {
    var i := FirstCarrier(items);
    items[i := EvictItem(items[i], n)]
  }

  // ---------------------------------------------------------------- images in conversation order

  function PartImages(parts: seq<Part>): seq<string> {
    if parts == [] then [] else (if parts[0].Image? then [parts[0].url] else []) + PartImages(parts[1..])
  }

  function Images(items: seq<Item>): seq<string> {
    if items == [] then [] else PartImages(ImageParts(items[0])) + Images(items[1..])
  }

  lemma {:induction false} PartImagesConcat(a: seq<Part>, b: seq<Part>)
    ensures PartImages(a + b) == PartImages(a) + PartImages(b)
  {
    if a == [] {
      assert a + b == b;
    } else {
      assert (a + b)[1..] == a[1..] + b;
      PartImagesConcat(a[1..], b);
    }
  }

  lemma {:induction false} NoPartImages(parts: seq<Part>)
    ensures PartImages(parts) == [] <==> !HasImage(parts)
  {
    if parts != [] { NoPartImages(parts[1..]); }
  }

  lemma PartImagesAround(pre: seq<Part>, x: Part, post: seq<Part>)
    ensures PartImages(pre + [x] + post) == PartImages(pre) + (if x.Image? then [x.url] else []) + PartImages(post)
  {
    PartImagesConcat(pre + [x], post);
    PartImagesConcat(pre, [x]);
    assert [x][1..] == [];
  }

  lemma NothingBeforeFirst(parts: seq<Part>)
    requires HasImage(parts)
    ensures var k := FirstImage(parts);
      parts == parts[..k] + [parts[k]] + parts[k + 1..] && PartImages(parts[..k]) == []
  {
    NoPartImages(parts[..FirstImage(parts)]);
  }

  /** Replacing by text and removing both take the first image out of the list. */
  lemma EvictPartImages(parts: seq<Part>, text: string)
    requires HasImage(parts)
    ensures PartImages(parts) != []
    ensures PartImages(ReplaceFirst(parts, Part.Text(text))) == PartImages(parts)[1..]
    ensures PartImages(RemoveFirst(parts)) == PartImages(parts)[1..]
  {
    var k := FirstImage(parts);
    var pre, post := parts[..k], parts[k + 1..];
    NothingBeforeFirst(parts);
    PartImagesAround(pre, parts[k], post);
    PartImagesAround(pre, Part.Text(text), post);
    assert ReplaceFirst(parts, Part.Text(text)) == pre + [Part.Text(text)] + post;
    PartImagesConcat(pre, post);
  }

  lemma {:induction false} ImagesConcat(a: seq<Item>, b: seq<Item>)
    ensures Images(a + b) == Images(a) + Images(b)
  {
    if a == [] {
      assert a + b == b;
    } else {
      assert (a + b)[1..] == a[1..] + b;
      ImagesConcat(a[1..], b);
      assert Images(a + b) == PartImages(ImageParts(a[0])) + (Images(a[1..]) + Images(b));
    }
  }

  lemma {:induction false} NoImages(items: seq<Item>)
    ensures Images(items) == [] <==> !AnyImage(items)
  {
    if items != [] {
      NoImages(items[1..]);
      NoPartImages(ImageParts(items[0]));
    }
  }

  lemma ImagesAround(pre: seq<Item>, x: Item, post: seq<Item>)
    ensures Images(pre + [x] + post) == Images(pre) + PartImages(ImageParts(x)) + Images(post)
  {
    ImagesConcat(pre + [x], post);
    ImagesConcat(pre, [x]);
    OneItemImages(x);
  }

  lemma OneItemImages(x: Item)
    ensures Images([x]) == PartImages(ImageParts(x))
  {
    assert [x][1..] == [] && [x][0] == x;
  }

  lemma EvictItemImages(item: Item, n: Notices)
    requires CarriesImage(item)
    ensures PartImages(ImageParts(item)) != []
    ensures PartImages(ImageParts(EvictItem(item, n))) == PartImages(ImageParts(item))[1..]
  {
    EvictPartImages(ImageParts(item), n.placeholder);
  }

  lemma NothingBeforeFirstCarrier(items: seq<Item>)
    requires AnyImage(items)
    ensures var i := FirstCarrier(items);
      items == items[..i] + [items[i]] + items[i + 1..] && Images(items[..i]) == []
  {
    NoImagesIn(items[..FirstCarrier(items)]);
  }

  lemma NoImagesIn(items: seq<Item>)
    requires forall k :: 0 <= k < |items| ==> !CarriesImage(items[k])
    ensures Images(items) == []
  {
    NoImages(items);
  }

  lemma OneImageLess(pre: seq<Item>, x: Item, y: Item, post: seq<Item>)
    requires Images(pre) == [] && PartImages(ImageParts(x)) != []
    requires PartImages(ImageParts(y)) == PartImages(ImageParts(x))[1..]
    ensures Images(pre + [x] + post) != [] && Images(pre + [y] + post) == Images(pre + [x] + post)[1..]
  {
    ImagesAround(pre, x, post);
    ImagesAround(pre, y, post);
    TailOfFirst(PartImages(ImageParts(x)), Images(post));
  }

  lemma TailOfFirst(a: seq<string>, b: seq<string>)
    requires a != []
    ensures ([] + a + b)[1..] == [] + a[1..] + b
  {
  }

  lemma EvictOneAround(items: seq<Item>, n: Notices)
    requires AnyImage(items)
    ensures var i := FirstCarrier(items);
      EvictOne(items, n) == items[..i] + [EvictItem(items[i], n)] + items[i + 1..]
  {
  }

  /** Evicting takes exactly the oldest image out of the conversation's images. */
  lemma {:induction false} EvictOneImages(items: seq<Item>, n: Notices)
    requires AnyImage(items)
    ensures Images(items) != [] && Images(EvictOne(items, n)) == Images(items)[1..]
  {
    var i := FirstCarrier(items);
    NothingBeforeFirstCarrier(items);
    EvictOneAround(items, n);
    EvictItemImages(items[i], n);
    OneImageLess(items[..i], items[i], EvictItem(items[i], n), items[i + 1..]);
  }

  /** The oldest `k` images, evicted one after the other. */
  function EvictFirst(items: seq<Item>, k: nat, n: Notices): seq<Item>
    requires k <= |Images(items)|
    decreases k
  {
    if k == 0 then items
    else
      NoImages(items);
      EvictOneImages(items, n);
      EvictFirst(EvictOne(items, n), k - 1, n)
  }

  lemma EvictFirstStep(items: seq<Item>, k: nat, n: Notices)
    requires 0 < k <= |Images(items)|
    ensures AnyImage(items) && k - 1 <= |Images(EvictOne(items, n))|
    ensures EvictFirst(items, k, n) == EvictFirst(EvictOne(items, n), k - 1, n)
  {
    NoImages(items);
    EvictOneImages(items, n);
  }

  /** Images before are the evicted ones followed by those that remain, in order. */
  lemma {:induction false} EvictFirstImages(items: seq<Item>, k: nat, n: Notices)
    requires k <= |Images(items)|
    ensures Images(EvictFirst(items, k, n)) == Images(items)[k..]
    decreases k
  {
    if k > 0 {
      NoImages(items);
      EvictOneImages(items, n);
      EvictFirstImages(EvictOne(items, n), k - 1, n);
      DropDrop(Images(items), k);
    }
  }

  lemma DropDrop(xs: seq<string>, k: nat)
    requires 1 <= k <= |xs|
    ensures xs[1..][k - 1..] == xs[k..]
  {
  }

  // ---------------------------------------------------------------- what eviction leaves alone

  function NonImages(parts: seq<Part>): seq<Part> {
    if parts == [] then [] else (if parts[0].Image? then [] else [parts[0]]) + NonImages(parts[1..])
  }

  /** `b` is `a` after some evictions: images became placeholders, or left the tool result,
      whose content gained at most one note. */
  predicate Reduced(a: Item, b: Item, n: Notices) {
    match a
    case User(parts, reason, meta) =>
      && b.User? && b.reason == reason && b.meta == meta && |b.parts| == |parts|
      && forall k :: 0 <= k < |parts| ==>
           b.parts[k] == parts[k] || (parts[k].Image? && b.parts[k] == Part.Text(n.placeholder))
    case ToolResult(id, content, images) =>
      && b.ToolResult? && b.callId == id && NonImages(b.images) == NonImages(images)
      && ((b.content == content && b.images == images)
          || b.content == if Text.Contains(content, n.toolNote) then content else content + "\n\n" + n.toolNote)
    case _ => b == a
  }

  lemma NotedHasNote(content: string, n: Notices)
    ensures Text.Contains(Noted(content, n), n.toolNote)
  {
    var s := content + NoteSuffix(n);
    assert s[|content| + 2..|content| + 2 + |n.toolNote|] == n.toolNote;
    assert Text.At(s, n.toolNote, |content| + 2);
  }

  lemma {:induction false} NonImagesConcat(a: seq<Part>, b: seq<Part>)
    ensures NonImages(a + b) == NonImages(a) + NonImages(b)
  {
    if a == [] {
      assert a + b == b;
    } else {
      assert (a + b)[1..] == a[1..] + b;
      NonImagesConcat(a[1..], b);
    }
  }

  lemma RemoveFirstKeepsTexts(parts: seq<Part>)
    requires HasImage(parts)
    ensures NonImages(RemoveFirst(parts)) == NonImages(parts)
  {
    var k := FirstImage(parts);
    assert parts == parts[..k] + ([parts[k]] + parts[k + 1..]);
    NonImagesConcat(parts[..k], [parts[k]] + parts[k + 1..]);
    NonImagesConcat(parts[..k], parts[k + 1..]);
    assert ([parts[k]] + parts[k + 1..])[1..] == parts[k + 1..];
  }

  lemma ReducedStep(a: Item, b: Item, n: Notices)
    requires Reduced(a, b, n) && CarriesImage(b)
    ensures Reduced(a, EvictItem(b, n), n)
  {
    if b.ToolResult? {
      RemoveFirstKeepsTexts(b.images);
      Regroup(a.content, "\n\n", n.toolNote);
      NotedHasNote(a.content, n);
    }
  }

  predicate AllReduced(was: seq<Item>, items: seq<Item>, n: Notices) {
    |was| == |items| && forall i :: 0 <= i < |was| ==> Reduced(was[i], items[i], n)
  }

  /** Evicting an image from an item keeps a property of it. */
  ghost predicate KeptByEviction(inv: Item -> bool, n: Notices) {
    forall x :: CarriesImage(x) && inv(x) ==> inv(EvictItem(x, n))
  }

  /** What one eviction keeps, any number of them keeps. */
  lemma {:induction false} EvictFirstInduction(items: seq<Item>, k: nat, n: Notices, inv: seq<Item> -> bool)
    requires k <= |Images(items)| && inv(items)
    requires forall s :: AnyImage(s) && inv(s) ==> inv(EvictOne(s, n))
    ensures inv(EvictFirst(items, k, n))
    decreases k
  {
    if k > 0 {
      EvictFirstStep(items, k, n);
      EvictFirstInduction(EvictOne(items, n), k - 1, n, inv);
    }
  }

  lemma EvictOneAt(items: seq<Item>, i: nat, n: Notices, inv: Item -> bool)
    requires AnyImage(items) && i < |items| && inv(items[i]) && KeptByEviction(inv, n)
    ensures |EvictOne(items, n)| == |items| && inv(EvictOne(items, n)[i])
  {
  }

  lemma EvictFirstAt(items: seq<Item>, k: nat, i: nat, n: Notices, inv: Item -> bool)
    requires k <= |Images(items)| && i < |items| && inv(items[i]) && KeptByEviction(inv, n)
    ensures |EvictFirst(items, k, n)| == |items| && inv(EvictFirst(items, k, n)[i])
  {
    var all := (s: seq<Item>) => |s| == |items| && inv(s[i]);
    forall s | AnyImage(s) && all(s) ensures all(EvictOne(s, n)) { EvictOneAt(s, i, n, inv); }
    EvictFirstInduction(items, k, n, all);
  }

  lemma EvictFirstReduces(was: Item, items: seq<Item>, k: nat, i: nat, n: Notices)
    requires k <= |Images(items)| && i < |items| && Reduced(was, items[i], n)
    ensures |EvictFirst(items, k, n)| == |items| && Reduced(was, EvictFirst(items, k, n)[i], n)
  {
    var inv := (x: Item) => Reduced(was, x, n);
    forall x | CarriesImage(x) && inv(x) ensures inv(EvictItem(x, n)) { ReducedStep(was, x, n); }
    EvictFirstAt(items, k, i, n, inv);
  }

  lemma EvictFirstLength(items: seq<Item>, k: nat, n: Notices)
    requires k <= |Images(items)|
    ensures |EvictFirst(items, k, n)| == |items|
  {
    EvictFirstInduction(items, k, n, (s: seq<Item>) => |s| == |items|);
  }

  // ---------------------------------------------------------------- sizes under eviction

  lemma {:induction false} PartsSizeConcat(a: seq<Part>, b: seq<Part>, m: Measure)
    ensures PartsSize(a + b, m) == PartsSize(a, m) + PartsSize(b, m) + (if a != [] && b != [] then 1 else 0)
  {
    if a == [] {
      assert a + b == b;
    } else {
      assert (a + b)[1..] == a[1..] + b;
      PartsSizeConcat(a[1..], b, m);
    }
  }

  lemma PartsSizeAround(pre: seq<Part>, x: Part, post: seq<Part>, m: Measure)
    ensures PartsSize(pre + [x] + post, m) == m(x) + PartsSize(pre + post, m) + (if pre + post != [] then 1 else 0)
  {
    PartsSizeConcat(pre + [x], post, m);
    PartsSizeConcat(pre, [x], m);
    PartsSizeConcat(pre, post, m);
    assert [x][1..] == [];
  }

  /** The size of the oldest image of a list. */
  function FirstSize(parts: seq<Part>, m: Measure): nat
    requires HasImage(parts)
  { m(parts[FirstImage(parts)]) }

  lemma EvictPartSizes(parts: seq<Part>, p: Part, m: Measure)
    requires HasImage(parts)
    ensures PartsSize(ReplaceFirst(parts, p), m) + FirstSize(parts, m) == PartsSize(parts, m) + m(p)
    ensures PartsSize(RemoveFirst(parts), m) + FirstSize(parts, m) + (if RemoveFirst(parts) != [] then 1 else 0)
      == PartsSize(parts, m)
  {
    var k := FirstImage(parts);
    var pre, post := parts[..k], parts[k + 1..];
    assert parts == pre + [parts[k]] + post && ReplaceFirst(parts, p) == pre + [p] + post;
    PartsSizeAround(pre, parts[k], post, m);
    PartsSizeAround(pre, p, post, m);
  }

  function PlaceholderSize(n: Notices, m: Measure): nat { m(Part.Text(n.placeholder)) }

  function NoteSize(n: Notices): nat { EscapedLen(NoteSuffix(n)) }

  /** The running estimate after one eviction from `item`, as the loop updates it. */
  function RunningAfter(item: Item, running: nat, n: Notices, m: Measure): nat
    requires CarriesImage(item)
  {
    var size := FirstSize(ImageParts(item), m);
    match item
    case User(_, _, _) => SaturatingSub(running, SaturatingSub(size, PlaceholderSize(n, m)))
    case ToolResult(_, content, images) =>
      var left := SaturatingSub(running, size + if RemoveFirst(images) != [] then 1 else 0);
      if Text.Contains(content, n.toolNote) then left else left + NoteSize(n)
  }

  /** By how much one eviction makes the body grow: a user image smaller than its placeholder. */
  function Growth(item: Item, n: Notices, m: Measure): nat
    requires CarriesImage(item)
  {
    if item.User? then SaturatingSub(PlaceholderSize(n, m), FirstSize(item.parts, m)) else 0
  }

  /** The last image of a tool result takes the field that held it along. */
  predicate Empties(item: Item)
    requires CarriesImage(item)
  { item.ToolResult? && RemoveFirst(item.images) == [] }

  function EmptiedBytes(item: Item, l: Layout): nat
    requires CarriesImage(item)
  { if Empties(item) then l.imagesField else 0 }

  function ImageBytes(parts: seq<Part>, m: Measure): nat {
    if parts == [] then 0 else (if parts[0].Image? then m(parts[0]) else 0) + ImageBytes(parts[1..], m)
  }

  /** What evictions can still take off the estimate for an item; it never falls below that. */
  function ItemFloor(item: Item, m: Measure): nat {
    match item
    case User(parts, _, _) => ImageBytes(parts, m)
    case ToolResult(_, _, images) => PartsSize(images, m)
    case _ => 0
  }

  function Floor(items: seq<Item>, m: Measure): nat {
    if items == [] then 0 else ItemFloor(items[0], m) + Floor(items[1..], m)
  }

  lemma {:induction false} ImageBytesConcat(a: seq<Part>, b: seq<Part>, m: Measure)
    ensures ImageBytes(a + b, m) == ImageBytes(a, m) + ImageBytes(b, m)
  {
    if a == [] {
      assert a + b == b;
    } else {
      assert (a + b)[1..] == a[1..] + b;
      ImageBytesConcat(a[1..], b, m);
    }
  }

  lemma {:induction false} ImageBytesWithin(parts: seq<Part>, m: Measure)
    ensures ImageBytes(parts, m) <= PartsSize(parts, m)
  {
    if parts != [] { ImageBytesWithin(parts[1..], m); }
  }

  lemma EvictPartBytes(parts: seq<Part>, p: Part, m: Measure)
    requires HasImage(parts) && p.Text?
    ensures ImageBytes(ReplaceFirst(parts, p), m) + FirstSize(parts, m) == ImageBytes(parts, m)
  {
    var k := FirstImage(parts);
    var pre, post := parts[..k], parts[k + 1..];
    assert parts == pre + [parts[k]] + post && ReplaceFirst(parts, p) == pre + [p] + post;
    ImageBytesConcat(pre + [parts[k]], post, m);
    ImageBytesConcat(pre, [parts[k]], m);
    ImageBytesConcat(pre + [p], post, m);
    ImageBytesConcat(pre, [p], m);
    assert [p][1..] == [] && [parts[k]][1..] == [];
  }

  lemma {:induction false} FloorConcat(a: seq<Item>, b: seq<Item>, m: Measure)
    ensures Floor(a + b, m) == Floor(a, m) + Floor(b, m)
  {
    if a == [] {
      assert a + b == b;
    } else {
      assert (a + b)[1..] == a[1..] + b;
      FloorConcat(a[1..], b, m);
    }
  }

  lemma FloorAround(pre: seq<Item>, x: Item, post: seq<Item>, m: Measure)
    ensures Floor(pre + [x] + post, m) == Floor(pre, m) + ItemFloor(x, m) + Floor(post, m)
  {
    FloorConcat(pre + [x], post, m);
    FloorConcat(pre, [x], m);
    assert [x][1..] == [];
  }

  lemma {:induction false} FloorWithin(items: seq<Item>, l: Layout, m: Measure)
    ensures Floor(items, m) <= ItemsSize(items, l, m)
  {
    if items != [] {
      FloorWithin(items[1..], l, m);
      if items[0].User? { ImageBytesWithin(items[0].parts, m); }
    }
  }

  lemma EvictItemFloor(item: Item, n: Notices, m: Measure)
    requires CarriesImage(item)
    ensures ItemFloor(EvictItem(item, n), m) + FirstSize(ImageParts(item), m)
      + (if item.ToolResult? && !Empties(item) then 1 else 0) == ItemFloor(item, m)
  {
    match item {
      case User(parts, _, _) => EvictPartBytes(parts, Part.Text(n.placeholder), m);
      case ToolResult(_, content, images) => EvictPartSizes(images, Part.Text(n.placeholder), m);
    }
  }

  /** One eviction changes the item as it changes the estimate, up to that growth and the bytes
      of an emptied field, which the estimate does not see. */
  lemma EvictItemSize(item: Item, running: nat, n: Notices, l: Layout, m: Measure)
    requires CarriesImage(item) && ItemFloor(item, m) <= running
    ensures ItemSize(EvictItem(item, n), l, m) + running + EmptiedBytes(item, l)
      == ItemSize(item, l, m) + RunningAfter(item, running, n, m) + Growth(item, n, m)
  {
    EvictItemFloor(item, n, m);
    match item {
      case User(parts, _, _) => EvictPartSizes(parts, Part.Text(n.placeholder), m);
      case ToolResult(_, content, images) =>
        EvictPartSizes(images, Part.Text(n.placeholder), m);
        EscapeConcat(content, NoteSuffix(n));
    }
  }

  lemma {:induction false} ItemsSizeConcat(a: seq<Item>, b: seq<Item>, l: Layout, m: Measure)
    ensures ItemsSize(a + b, l, m) == ItemsSize(a, l, m) + ItemsSize(b, l, m) + (if a != [] && b != [] then 1 else 0)
  {
    if a == [] {
      assert a + b == b;
    } else {
      assert (a + b)[1..] == a[1..] + b;
      ItemsSizeConcat(a[1..], b, l, m);
    }
  }

  /** What the other items cost when one of them is set apart. */
  function OthersSize(pre: seq<Item>, post: seq<Item>, l: Layout, m: Measure): nat {
    ItemsSize(pre, l, m) + ItemsSize(post, l, m) + (if pre != [] then 1 else 0) + (if post != [] then 1 else 0)
  }

  lemma ItemsSizeAround(pre: seq<Item>, x: Item, post: seq<Item>, l: Layout, m: Measure)
    ensures ItemsSize(pre + [x] + post, l, m) == OthersSize(pre, post, l, m) + ItemSize(x, l, m)
  {
    ItemsSizeConcat(pre + [x], post, l, m);
    ItemsSizeConcat(pre, [x], l, m);
    assert [x][1..] == [];
  }

  lemma EvictOneSize(items: seq<Item>, running: nat, n: Notices, l: Layout, m: Measure)
    requires AnyImage(items) && Floor(items, m) <= running
    ensures var item := items[FirstCarrier(items)];
      && Floor(EvictOne(items, n), m) <= RunningAfter(item, running, n, m)
      && ItemFloor(item, m) <= running
      && ItemsSize(EvictOne(items, n), l, m) + running + EmptiedBytes(item, l)
        == ItemsSize(items, l, m) + RunningAfter(item, running, n, m) + Growth(item, n, m)
  {
    var i := FirstCarrier(items);
    var pre, post := items[..i], items[i + 1..];
    NothingBeforeFirstCarrier(items);
    EvictOneAround(items, n);
    ItemsSizeAround(pre, items[i], post, l, m);
    ItemsSizeAround(pre, EvictItem(items[i], n), post, l, m);
    FloorAround(pre, items[i], post, m);
    FloorAround(pre, EvictItem(items[i], n), post, m);
    EvictItemSize(items[i], running, n, l, m);
    EvictItemFloor(items[i], n, m);
    RunningFalls(items[i], running, n, m);
  }

  lemma RunningFalls(item: Item, running: nat, n: Notices, m: Measure)
    requires CarriesImage(item) && ItemFloor(item, m) <= running
    ensures running <= RunningAfter(item, running, n, m) + FirstSize(ImageParts(item), m)
      + if item.ToolResult? && !Empties(item) then 1 else 0
  {
  }

  // ---------------------------------------------------------------- the eviction loop

  /** The number of evictions until the estimate reaches the target or no image is left, the
      estimate then, the growth met on the way, and the number of emptied `images` fields. */
  datatype Outcome = Outcome(evicted: nat, running: nat, growth: nat, emptied: nat) {
    /** The same with one eviction before it. */
    function After(growth: nat, empties: bool): Outcome {
      Outcome(1 + evicted, running, growth + this.growth, (if empties then 1 else 0) + emptied)
    }
  }

  function Evict(items: seq<Item>, running: nat, target: nat, n: Notices, m: Measure): (r: Outcome)
    ensures r.evicted <= |Images(items)|
    ensures r.running <= target || r.evicted == |Images(items)|
    decreases |Images(items)|
  {
    NoImages(items);
    if running <= target || Images(items) == [] then Outcome(0, running, 0, 0)
    else
      EvictOneImages(items, n);
      var item := items[FirstCarrier(items)];
      var rest := Evict(EvictOne(items, n), RunningAfter(item, running, n, m), target, n, m);
      rest.After(Growth(item, n, m), Empties(item))
  }

  lemma EvictStep(now: seq<Item>, running: nat, target: nat, n: Notices, m: Measure)
    requires AnyImage(now) && running > target
    ensures var item := now[FirstCarrier(now)];
      Evict(now, running, target, n, m) ==
        Evict(EvictOne(now, n), RunningAfter(item, running, n, m), target, n, m).After(Growth(item, n, m), Empties(item))
  {
    NoImages(now);
  }

  /** The true size is the estimate plus the met growth, less what the emptied fields took along. */
  predicate Accounted(r: Outcome, size: nat, slack: int, field: nat) {
    size + r.emptied * field == r.running + slack + r.growth
  }

  lemma AccountedAfter(r: Outcome, growth: nat, empties: bool, size: nat, slack: int, field: nat)
    requires Accounted(r, size, slack + growth - (if empties then field else 0), field)
    ensures Accounted(r.After(growth, empties), size, slack, field)
  {
    assert empties ==> (1 + r.emptied) * field == field + r.emptied * field;
  }

  /** That holds over the whole loop. */
  lemma {:induction false} EvictSize(items: seq<Item>, running: nat, slack: int, target: nat, n: Notices, l: Layout, m: Measure)
    requires 2 + ItemsSize(items, l, m) == running + slack && Floor(items, m) <= running
    ensures var r := Evict(items, running, target, n, m);
      Accounted(r, 2 + ItemsSize(EvictFirst(items, r.evicted, n), l, m), slack, l.imagesField)
    decreases |Images(items)|
  {
    NoImages(items);
    if running > target && AnyImage(items) {
      EvictStep(items, running, target, n, m);
      EvictOneImages(items, n);
      EvictOneSize(items, running, n, l, m);
      var item := items[FirstCarrier(items)];
      var next, left := EvictOne(items, n), RunningAfter(item, running, n, m);
      var rest := Evict(next, left, target, n, m);
      EvictFirstStep(items, 1 + rest.evicted, n);
      EvictSize(next, left, slack + Growth(item, n, m) - EmptiedBytes(item, l), target, n, l, m);
      var size := 2 + ItemsSize(EvictFirst(next, rest.evicted, n), l, m);
      AccountedAfter(rest, Growth(item, n, m), Empties(item), size, slack, l.imagesField);
    }
  }

  /** Every user image is at least as large as the placeholder that would replace it. */
  predicate UserImagesOutweigh(items: seq<Item>, least: nat, m: Measure) {
    forall i, k :: 0 <= i < |items| && items[i].User? && 0 <= k < |items[i].parts| && items[i].parts[k].Image?
      ==> m(items[i].parts[k]) >= least
  }

  lemma {:induction false} NoGrowth(items: seq<Item>, running: nat, target: nat, n: Notices, m: Measure)
    requires UserImagesOutweigh(items, PlaceholderSize(n, m), m)
    ensures Evict(items, running, target, n, m).growth == 0
    decreases |Images(items)|
  {
    NoImages(items);
    if running > target && Images(items) != [] {
      EvictOneImages(items, n);
      var i := FirstCarrier(items);
      assert Growth(items[i], n, m) == 0;
      NoGrowth(EvictOne(items, n), RunningAfter(items[i], running, n, m), target, n, m);
    }
  }

  // ---------------------------------------------------------------- recorded locations

  /** Where an image was found: a tool result's images are taken from the front, so only the
      item is recorded for them. */
  datatype Location = UserAt(item: nat, part: nat, size: nat) | ToolAt(item: nat, size: nat)

  function UserLocations(parts: seq<Part>, item: nat, k: nat, m: Measure): seq<Location>
    requires k <= |parts|
    decreases |parts| - k
  {
    if k == |parts| then []
    else (if parts[k].Image? then [UserAt(item, k, m(parts[k]))] else []) + UserLocations(parts, item, k + 1, m)
  }

  function ToolLocations(images: seq<Part>, item: nat, m: Measure): seq<Location> {
    if images == [] then []
    else (if images[0].Image? then [ToolAt(item, m(images[0]))] else []) + ToolLocations(images[1..], item, m)
  }

  function ItemLocations(x: Item, item: nat, m: Measure): seq<Location> {
    match x
    case User(parts, _, _) => UserLocations(parts, item, 0, m)
    case ToolResult(_, _, images) => ToolLocations(images, item, m)
    case _ => []
  }

  function LocateFrom(items: seq<Item>, i: nat, m: Measure): seq<Location>
    requires i <= |items|
    decreases |items| - i
  {
    if i == |items| then [] else ItemLocations(items[i], i, m) + LocateFrom(items, i + 1, m)
  }

  lemma {:induction false} UserLocationsSame(a: seq<Part>, b: seq<Part>, item: nat, k: nat, m: Measure)
    requires |a| == |b| && k <= |a| && forall j :: k <= j < |a| ==> a[j] == b[j]
    ensures UserLocations(a, item, k, m) == UserLocations(b, item, k, m)
    decreases |a| - k
  {
    if k < |a| { UserLocationsSame(a, b, item, k + 1, m); }
  }

  lemma {:induction false} UserLocationsSkip(parts: seq<Part>, item: nat, k: nat, f: nat, m: Measure)
    requires k <= f <= |parts| && forall j :: k <= j < f ==> parts[j].Text?
    ensures UserLocations(parts, item, k, m) == UserLocations(parts, item, f, m)
    decreases f - k
  {
    if k < f { UserLocationsSkip(parts, item, k + 1, f, m); }
  }

  lemma UserLocationsEvict(parts: seq<Part>, text: string, item: nat, m: Measure)
    requires HasImage(parts)
    ensures UserLocations(parts, item, 0, m) == [UserAt(item, FirstImage(parts), FirstSize(parts, m))]
      + UserLocations(ReplaceFirst(parts, Part.Text(text)), item, 0, m)
  {
    var f := FirstImage(parts);
    var parts' := ReplaceFirst(parts, Part.Text(text));
    UserLocationsSkip(parts, item, 0, f, m);
    UserLocationsSkip(parts', item, 0, f + 1, m);
    UserLocationsSame(parts, parts', item, f + 1, m);
  }

  lemma {:induction false} ToolLocationsConcat(a: seq<Part>, b: seq<Part>, item: nat, m: Measure)
    ensures ToolLocations(a + b, item, m) == ToolLocations(a, item, m) + ToolLocations(b, item, m)
  {
    if a == [] {
      assert a + b == b;
    } else {
      var head := if a[0].Image? then [ToolAt(item, m(a[0]))] else [];
      assert (a + b)[1..] == a[1..] + b && (a + b)[0] == a[0];
      ToolLocationsConcat(a[1..], b, item, m);
      Regroup(head, ToolLocations(a[1..], item, m), ToolLocations(b, item, m));
    }
  }

  lemma {:induction false} ToolLocationsNone(a: seq<Part>, item: nat, m: Measure)
    requires !HasImage(a)
    ensures ToolLocations(a, item, m) == []
  {
    if a != [] { ToolLocationsNone(a[1..], item, m); }
  }

  lemma ToolLocationsEvict(images: seq<Part>, item: nat, m: Measure)
    requires HasImage(images)
    ensures ToolLocations(images, item, m) ==
      [ToolAt(item, FirstSize(images, m))] + ToolLocations(RemoveFirst(images), item, m)
  {
    var f := FirstImage(images);
    var pre, post := images[..f], images[f + 1..];
    assert images == pre + [images[f]] + post && !HasImage(pre);
    ToolLocationsNone(pre, item, m);
    ToolLocationsConcat(pre + [images[f]], post, item, m);
    ToolLocationsConcat(pre, [images[f]], item, m);
    ToolLocationsConcat(pre, post, item, m);
    assert [images[f]][1..] == [];
  }

  /** The location recorded for the oldest image of an item. */
  function FirstLocation(x: Item, item: nat, m: Measure): Location
    requires CarriesImage(x)
  {
    if x.User? then UserAt(item, FirstImage(x.parts), FirstSize(x.parts, m))
    else ToolAt(item, FirstSize(ImageParts(x), m))
  }

  lemma ItemLocationsEvict(x: Item, item: nat, n: Notices, m: Measure)
    requires CarriesImage(x)
    ensures ItemLocations(x, item, m) == [FirstLocation(x, item, m)] + ItemLocations(EvictItem(x, n), item, m)
  {
    match x {
      case User(parts, _, _) => UserLocationsEvict(parts, n.placeholder, item, m);
      case ToolResult(_, _, images) => ToolLocationsEvict(images, item, m);
    }
  }

  lemma ItemLocationsNone(x: Item, item: nat, m: Measure)
    requires !CarriesImage(x)
    ensures ItemLocations(x, item, m) == []
  {
    match x {
      case User(parts, _, _) =>
        assert forall j :: 0 <= j < |parts| ==> parts[j].Text?;
        UserLocationsSkip(parts, item, 0, |parts|, m);
      case ToolResult(_, _, images) => ToolLocationsNone(images, item, m);
      case _ =>
    }
  }

  lemma {:induction false} LocateSame(a: seq<Item>, b: seq<Item>, i: nat, m: Measure)
    requires |a| == |b| && i <= |a| && forall j :: i <= j < |a| ==> a[j] == b[j]
    ensures LocateFrom(a, i, m) == LocateFrom(b, i, m)
    decreases |a| - i
  {
    if i < |a| { LocateSame(a, b, i + 1, m); }
  }

  predicate SameNext<T(==)>(f: nat -> T, j: nat) { f(j) == f(j + 1) }

  lemma {:induction false} StepsAgree<T>(f: nat -> T, i: nat, c: nat)
    requires i <= c && forall j :: i <= j < c ==> SameNext(f, j)
    ensures f(i) == f(c)
    decreases c - i
  {
    if i < c {
      assert SameNext(f, i);
      StepsAgree(f, i + 1, c);
    }
  }

  lemma {:induction false} LocateSkip(items: seq<Item>, i: nat, c: nat, m: Measure)
    requires i <= c <= |items| && forall j :: i <= j < c ==> !CarriesImage(items[j])
    ensures LocateFrom(items, i, m) == LocateFrom(items, c, m)
  {
    var f := (j: nat) => if j <= |items| then LocateFrom(items, j, m) else [];
    forall j | i <= j < c ensures SameNext(f, j) { LocateStepOver(items, j, m); }
    StepsAgree(f, i, c);
  }

  lemma LocateStepOver(items: seq<Item>, i: nat, m: Measure)
    requires i < |items| && !CarriesImage(items[i])
    ensures LocateFrom(items, i, m) == LocateFrom(items, i + 1, m)
  {
    ItemLocationsNone(items[i], i, m);
    assert LocateFrom(items, i, m) == [] + LocateFrom(items, i + 1, m);
  }

  lemma LocateStepEvict(items: seq<Item>, c: nat, n: Notices, m: Measure)
    requires c < |items| && CarriesImage(items[c])
    ensures LocateFrom(items, c, m) ==
      [FirstLocation(items[c], c, m)] + LocateFrom(items[c := EvictItem(items[c], n)], c, m)
  {
    var after := items[c := EvictItem(items[c], n)];
    LocateSame(items, after, c + 1, m);
    ItemLocationsEvict(items[c], c, n, m);
    Regroup([FirstLocation(items[c], c, m)], ItemLocations(after[c], c, m), LocateFrom(after, c + 1, m));
  }

  /** The first recorded location is that of the oldest image, and the others stay right. */
  lemma LocateEvict(items: seq<Item>, n: Notices, m: Measure)
    requires AnyImage(items)
    ensures var c := FirstCarrier(items);
      LocateFrom(items, 0, m) == [FirstLocation(items[c], c, m)] + LocateFrom(EvictOne(items, n), 0, m)
  {
    var c := FirstCarrier(items);
    LocateSkip(items, 0, c, m);
    LocateSkip(EvictOne(items, n), 0, c, m);
    LocateStepEvict(items, c, n, m);
  }

  lemma LocateNone(items: seq<Item>, m: Measure)
    requires !AnyImage(items)
    ensures LocateFrom(items, 0, m) == []
  {
    LocateSkip(items, 0, |items|, m);
  }

  lemma {:induction false} EvictFirstSnoc(items: seq<Item>, k: nat, n: Notices)
    requires k < |Images(items)|
    ensures AnyImage(EvictFirst(items, k, n)) && EvictFirst(items, k + 1, n) == EvictOne(EvictFirst(items, k, n), n)
    decreases k
  {
    NoImages(items);
    EvictOneImages(items, n);
    if k > 0 {
      EvictFirstSnoc(EvictOne(items, n), k - 1, n);
    } else {
      assert EvictFirst(EvictOne(items, n), 0, n) == EvictOne(items, n);
    }
  }

  // ---------------------------------------------------------------- the loops of the program

  method FindUserImages(parts: seq<Part>, item: nat, m: Measure) returns (found: seq<Location>)
    ensures found == UserLocations(parts, item, 0, m)
  {
    found := [];
    for k := 0 to |parts|
      invariant UserLocations(parts, item, 0, m) == found + UserLocations(parts, item, k, m)
    {
      if parts[k].Image? { found := found + [UserAt(item, k, m(parts[k]))]; }
    }
  }

  method FindToolImages(images: seq<Part>, item: nat, m: Measure) returns (found: seq<Location>)
    ensures found == ToolLocations(images, item, m)
  {
    found := [];
    for k := 0 to |images|
      invariant ToolLocations(images, item, m) == found + ToolLocations(images[k..], item, m)
    {
      assert images[k..][1..] == images[k + 1..];
      if images[k].Image? { found := found + [ToolAt(item, m(images[k]))]; }
    }
  }

  method FindItemImages(x: Item, item: nat, m: Measure) returns (found: seq<Location>)
    ensures found == ItemLocations(x, item, m)
  {
    match x {
      case User(parts, _, _) => found := FindUserImages(parts, item, m);
      case ToolResult(_, _, images) => found := FindToolImages(images, item, m);
      case _ => found := [];
    }
  }

  method FindImages(items: seq<Item>, m: Measure) returns (images: seq<Location>)
    ensures images == LocateFrom(items, 0, m)
  {
    images := [];
    for i := 0 to |items|
      invariant LocateFrom(items, 0, m) == images + LocateFrom(items, i, m)
    {
      var found := FindItemImages(items[i], i, m);
      Regroup(images, found, LocateFrom(items, i + 1, m));
      images := images + found;
    }
  }

  method TakeFirstImage(images: seq<Part>) returns (rest: seq<Part>)
    requires HasImage(images)
    ensures rest == RemoveFirst(images)
  {
    var k := 0;
    while !images[k].Image?
      invariant k <= FirstImage(images)
      decreases |images| - k
    {
      k := k + 1;
    }
    rest := images[..k] + images[k + 1..];
  }

  /** Evict at a recorded location; the item and the estimate change as specified. */
  method EvictFromItem(x: Item, location: Location, running: nat, n: Notices, m: Measure) returns (x': Item, left: nat)
    requires CarriesImage(x) && location == FirstLocation(x, location.item, m)
    ensures x' == EvictItem(x, n) && left == RunningAfter(x, running, n, m)
  {
    match x {
      case User(parts, reason, meta) =>
        x' := User(parts[location.part := Part.Text(n.placeholder)], reason, meta);
        left := SaturatingSub(running, SaturatingSub(location.size, PlaceholderSize(n, m)));
      case ToolResult(id, content, images) =>
        var rest := TakeFirstImage(images);
        left := SaturatingSub(running, location.size + if rest != [] then 1 else 0);
        if Text.Contains(content, n.toolNote) {
          x' := ToolResult(id, content, rest);
        } else {
          x' := ToolResult(id, content + NoteSuffix(n), rest);
          left := left + NoteSize(n);
        }
    }
  }

  /** What one round of the loop relies on: where it is, and what one more eviction gives. */
  lemma Round(was: seq<Item>, k: nat, images: seq<Location>, n: Notices, m: Measure)
    requires k <= |Images(was)| && k < |images|
    requires LocateFrom(EvictFirst(was, k, n), 0, m) == images[k..]
    ensures k < |Images(was)| && AnyImage(EvictFirst(was, k, n))
    ensures var now := EvictFirst(was, k, n); var c := FirstCarrier(now);
      && images[k] == FirstLocation(now[c], c, m)
      && EvictFirst(was, k + 1, n) == EvictOne(now, n)
      && LocateFrom(EvictOne(now, n), 0, m) == images[k + 1..]
  {
    var now := EvictFirst(was, k, n);
    if !AnyImage(now) { LocateNone(now, m); }
    LocateEvict(now, n, m);
    EvictFirstImages(was, k, n);
    NoImages(now);
    EvictFirstSnoc(was, k, n);
    assert images[k..][0] == images[k] && images[k..][1..] == images[k + 1..];
  }

  lemma RoundsDone(now: seq<Item>, running: nat, target: nat, n: Notices, m: Measure)
    requires running <= target || LocateFrom(now, 0, m) == []
    ensures Evict(now, running, target, n, m).evicted == 0
  {
    if running > target && AnyImage(now) { LocateEvict(now, n, m); }
    NoImages(now);
  }

  /** After `k` rounds: what is gone, where the rest is, and what remains to be done. */
  predicate AfterRounds(was: seq<Item>, now: seq<Item>, k: nat, images: seq<Location>, current: nat, running: nat,
                        target: nat, n: Notices, m: Measure)
  {
    && k <= |Images(was)| && k <= |images|
    && now == EvictFirst(was, k, n)
    && LocateFrom(now, 0, m) == images[k..]
    && Evict(was, current, target, n, m).evicted == k + Evict(now, running, target, n, m).evicted
  }

  lemma {:induction false} NextRound(was: seq<Item>, now: seq<Item>, k: nat, images: seq<Location>, current: nat, running: nat,
                  target: nat, n: Notices, m: Measure)
    requires AfterRounds(was, now, k, images, current, running, target, n, m)
    requires k < |images| && running > target
    ensures AnyImage(now)
    ensures var c := FirstCarrier(now);
      && images[k] == FirstLocation(now[c], c, m)
      && AfterRounds(was, EvictOne(now, n), k + 1, images, current, RunningAfter(now[c], running, n, m), target, n, m)
  {
    Round(was, k, images, n, m);
    EvictStep(now, running, target, n, m);
  }

  method EvictImagesToBudget(conversation: array<Item>, current: nat, target: nat, n: Notices, m: Measure)
    returns (evicted: nat)
    modifies conversation
    ensures evicted == Evict(old(conversation[..]), current, target, n, m).evicted
    ensures conversation[..] == EvictFirst(old(conversation[..]), evicted, n)
  {
    ghost var was := conversation[..];
    var images := FindImages(conversation[..], m);
    var running: nat := current;
    evicted := 0;
    while evicted < |images| && running > target
      invariant AfterRounds(was, conversation[..], evicted, images, current, running, target, n, m)
      decreases |images| - evicted
    {
      ghost var now := conversation[..];
      NextRound(was, now, evicted, images, current, running, target, n, m);
      var i := images[evicted].item;
      var x := conversation[i];
      var x', left := EvictFromItem(x, images[evicted], running, n, m);
      conversation[i] := x';
      assert conversation[..] == now[i := x'];
      running, evicted := left, evicted + 1;
    }
    RoundsDone(conversation[..], running, target, n, m);
  }

  // ---------------------------------------------------------------- the budget as a whole

  datatype BudgetOutcome = BudgetOutcome(
    bodyBytes: nat, bodyBytesAfter: nat, inlineImages: nat, needsImageCompaction: bool, evicted: nat)

  function InlineImageCount(items: seq<Item>): nat { |Images(items)| }

  /** Evicted images: none below the trigger or at most the reclaim target. */
  function BudgetEvictions(items: seq<Item>, trigger: nat, reclaim: nat, n: Notices): (k: nat)
    ensures k <= |Images(items)|
  {
    var body := BodyBytes(items);
    if body >= trigger && body > reclaim then Evict(items, body, reclaim, n, FastPart).evicted else 0
  }

  /** Something is evicted exactly when the trigger is reached, the target is passed and there
      is an image; otherwise the items come back as they were. */
  lemma EvictsIff(items: seq<Item>, trigger: nat, reclaim: nat, n: Notices)
    ensures var k := BudgetEvictions(items, trigger, reclaim, n); var body := BodyBytes(items);
      && (k > 0 <==> body >= trigger && body > reclaim && Images(items) != [])
      && (k == 0 ==> EvictFirst(items, k, n) == items)
  {
    var body := BodyBytes(items);
    NoImages(items);
    if body >= trigger && body > reclaim && Images(items) != [] { EvictStep(items, body, reclaim, n, FastPart); }
  }

  method ApplyImageBudgetWithLimits(items: seq<Item>, trigger: nat, reclaim: nat, n: Notices)
    returns (r: seq<Item>, outcome: BudgetOutcome)
    ensures r == EvictFirst(items, BudgetEvictions(items, trigger, reclaim, n), n)
    ensures outcome == BudgetOutcome(BodyBytes(items), BodyBytes(r), |Images(items)|, BodyBytes(items) >= trigger,
                                     BudgetEvictions(items, trigger, reclaim, n))
    ensures outcome.evicted > 0 <==> BodyBytes(items) >= trigger && BodyBytes(items) > reclaim && Images(items) != []
    ensures BodyBytes(items) < trigger ==> r == items
  {
    EvictsIff(items, trigger, reclaim, n);
    var body := ConversationBodyBytes(items);
    var images := InlineImageCount(items);
    var evicted := 0;
    r := items;
    if body >= trigger && body > reclaim {
      var conversation := new Item[|items|](k requires 0 <= k < |items| => items[k]);
      assert conversation[..] == items;
      evicted := EvictImagesToBudget(conversation, body, reclaim, n, FastPart);
      r := conversation[..];
    }
    var after := body;
    if evicted != 0 { after := ConversationBodyBytes(r); }
    outcome := BudgetOutcome(body, after, images, body >= trigger, evicted);
  }

  lemma EvictItemKeeps(item: Item, n: Notices, ok: Part -> bool)
    requires CarriesImage(item) && PartsAre(ImageParts(item), ok) && ok(Part.Text(n.placeholder))
    ensures PartsAre(ImageParts(EvictItem(item, n)), ok)
  {
  }

  lemma EvictFirstKeeps(items: seq<Item>, k: nat, i: nat, n: Notices, ok: Part -> bool)
    requires k <= |Images(items)| && i < |items| && PartsAre(ImageParts(items[i]), ok) && ok(Part.Text(n.placeholder))
    ensures |EvictFirst(items, k, n)| == |items| && PartsAre(ImageParts(EvictFirst(items, k, n)[i]), ok)
  {
    var inv := (x: Item) => PartsAre(ImageParts(x), ok);
    forall x | CarriesImage(x) && inv(x) ensures inv(EvictItem(x, n)) { EvictItemKeeps(x, n, ok); }
    EvictFirstAt(items, k, i, n, inv);
  }

  lemma EvictionKeeps(items: seq<Item>, k: nat, n: Notices, ok: Part -> bool)
    requires AllPartsAre(items, ok) && ok(Part.Text(n.placeholder)) && k <= |Images(items)|
    ensures AllPartsAre(EvictFirst(items, k, n), ok)
  {
    var r := EvictFirst(items, k, n);
    EvictFirstLength(items, k, n);
    forall i | 0 <= i < |r| ensures PartsAre(ImageParts(r[i]), ok) { EvictFirstKeeps(items, k, i, n, ok); }
  }

  /** Once triggered above its target, eviction ends with the true JSON body at or below the
      reclaim target plus the growth it met, or with no inline image left. */
  lemma EvictionReachesItsGoalUpToGrowth(items: seq<Item>, trigger: nat, reclaim: nat, n: Notices)
    requires AllPartsAre(items, CleanPart) && BodyBytes(items) >= trigger
    ensures var r := EvictFirst(items, BudgetEvictions(items, trigger, reclaim, n), n);
      var growth := Evict(items, BodyBytes(items), reclaim, n, FastPart).growth;
      Images(r) == [] || Utf8.ByteLen(ConversationJson(r)) <= reclaim + growth
  {
    var body := BodyBytes(items);
    BodyBytesIsFastSize(items);
    BodyBytesExactIff(items);
    var e := Evict(items, body, reclaim, n, FastPart);
    FloorWithin(items, SerdeLayout(), FastPart);
    EvictSize(items, body, 0, reclaim, n, SerdeLayout(), FastPart);
    var k := BudgetEvictions(items, trigger, reclaim, n);
    assert k == e.evicted;
    var r := EvictFirst(items, k, n);
    EvictFirstImages(items, k, n);
    if Images(r) != [] {
      EvictionKeeps(items, k, n, CleanPart);
      BodyBytesExactIff(r);
      BodyBytesIsFastSize(r);
    }
  }

  /** So when every user image serialises to at least the placeholder's size, the goal is met. */
  lemma EvictionReachesItsGoal(items: seq<Item>, trigger: nat, reclaim: nat, n: Notices)
    requires AllPartsAre(items, CleanPart) && BodyBytes(items) >= trigger
    requires UserImagesOutweigh(items, PlaceholderSize(n, FastPart), FastPart)
    ensures var r := EvictFirst(items, BudgetEvictions(items, trigger, reclaim, n), n);
      Images(r) == [] || Utf8.ByteLen(ConversationJson(r)) <= reclaim
  {
    EvictionReachesItsGoalUpToGrowth(items, trigger, reclaim, n);
    NoGrowth(items, BodyBytes(items), reclaim, n, FastPart);
  }

  lemma NothingReduced(item: Item, n: Notices)
    ensures Reduced(item, item, n)
  {
  }

  lemma OldestGone(items: seq<Item>, k: nat, n: Notices)
    requires k <= |Images(items)|
    ensures var r := EvictFirst(items, k, n);
      Images(items) == Images(items)[..k] + Images(r) && AllReduced(items, r, n)
  {
    var r := EvictFirst(items, k, n);
    EvictFirstImages(items, k, n);
    EvictFirstLength(items, k, n);
    forall i | 0 <= i < |items| ensures Reduced(items[i], r[i], n) {
      NothingReduced(items[i], n);
      EvictFirstReduces(items[i], items, k, i, n);
    }
  }

  /** Exactly the oldest `evicted` images go; ids, other parts and texts stay, up to the
      placeholders and at most one note per tool result. */
  lemma EvictionTakesTheOldest(items: seq<Item>, trigger: nat, reclaim: nat, n: Notices)
    ensures var k := BudgetEvictions(items, trigger, reclaim, n); var r := EvictFirst(items, k, n);
      && Images(items) == Images(items)[..k] + Images(r)
      && |Images(items)| == |Images(r)| + k
      && AllReduced(items, r, n)
  {
    OldestGone(items, BudgetEvictions(items, trigger, reclaim, n), n);
  }

  /** In general the goal can be missed (`ImageLedger` says exactly when): a user image smaller than its placeholder
      grows the body unseen, and the loop stops early with an image left. */
  lemma SmallImageDefeatsGoal(u1: string, u2: string, u3: string, reclaim: nat, n: Notices)
    requires FastPart(Image(u1)) < PlaceholderSize(n, FastPart) < FastPart(Image(u2))
    requires reclaim + FastPart(Image(u2)) ==
      BodyBytes([User([Image(u1), Image(u2), Image(u3)], Human, "")]) + PlaceholderSize(n, FastPart)
    ensures var items := [User([Image(u1), Image(u2), Image(u3)], Human, "")];
      var r := EvictFirst(items, BudgetEvictions(items, 0, reclaim, n), n);
      Images(r) != [] && BodyBytes(r) > reclaim
  {
    var p := Part.Text(n.placeholder);
    var s0, s1, s2 := [Image(u1), Image(u2), Image(u3)], [p, Image(u2), Image(u3)], [p, p, Image(u3)];
    ThreeImages(u1, u2, u3, p);
    Sizes3(Image(u1), Image(u2), Image(u3), FastPart);
    Sizes3(p, p, Image(u3), FastPart);
    TurnSize(s0);
    TurnSize(s2);
    TwoEvicted(s0, s1, s2, BodyBytes(OneTurn(s0)), reclaim, n);
    EvictTurnTwice(s0, s1, s2, n);
    EvictTurn(s2, n);
    NoImages(OneTurn(s2));
  }

  /** The loop stops after two evictions when the second brings the estimate to the target. */
  lemma TwoEvicted(s0: seq<Part>, s1: seq<Part>, s2: seq<Part>, body: nat, reclaim: nat, n: Notices)
    requires HasImage(s0) && s1 == ReplaceFirst(s0, Part.Text(n.placeholder))
    requires HasImage(s1) && s2 == ReplaceFirst(s1, Part.Text(n.placeholder))
    requires FastPart(s0[FirstImage(s0)]) < PlaceholderSize(n, FastPart) < FastPart(s1[FirstImage(s1)])
    requires body > reclaim && reclaim + FastPart(s1[FirstImage(s1)]) == body + PlaceholderSize(n, FastPart)
    ensures Evict(OneTurn(s0), body, reclaim, n, FastPart).evicted == 2
  {
    EvictTurnStep(s0, body, reclaim, n);
    EvictTurnStep(s1, body, reclaim, n);
    assert Evict(OneTurn(s2), reclaim, reclaim, n, FastPart).evicted == 0;
  }

  lemma ThreeImages(u1: string, u2: string, u3: string, p: Part)
    requires p.Text?
    ensures var s0, s1, s2 := [Image(u1), Image(u2), Image(u3)], [p, Image(u2), Image(u3)], [p, p, Image(u3)];
      && HasImage(s0) && FirstImage(s0) == 0 && ReplaceFirst(s0, p) == s1
      && HasImage(s1) && FirstImage(s1) == 1 && ReplaceFirst(s1, p) == s2
      && HasImage(s2)
  {
    var s0, s1, s2 := [Image(u1), Image(u2), Image(u3)], [p, Image(u2), Image(u3)], [p, p, Image(u3)];
    assert s0[0].Image? && s1[1].Image? && s2[2].Image?;
    assert s1[1..][0] == Image(u2);
  }

  lemma EvictTurnStep(parts: seq<Part>, running: nat, target: nat, n: Notices)
    requires HasImage(parts) && running > target
    ensures var p := Part.Text(n.placeholder);
      var left := SaturatingSub(running, SaturatingSub(FastPart(parts[FirstImage(parts)]), PlaceholderSize(n, FastPart)));
      Evict(OneTurn(parts), running, target, n, FastPart).evicted ==
        1 + Evict(OneTurn(ReplaceFirst(parts, p)), left, target, n, FastPart).evicted
  {
    EvictTurn(parts, n);
    EvictStep(OneTurn(parts), running, target, n, FastPart);
  }

  lemma EvictTurnTwice(parts: seq<Part>, once: seq<Part>, twice: seq<Part>, n: Notices)
    requires HasImage(parts) && once == ReplaceFirst(parts, Part.Text(n.placeholder))
    requires HasImage(once) && twice == ReplaceFirst(once, Part.Text(n.placeholder))
    ensures 2 <= |Images(OneTurn(parts))| && EvictFirst(OneTurn(parts), 2, n) == OneTurn(twice)
  {
    EvictTurn(parts, n);
    EvictTurn(once, n);
    EvictOneImages(OneTurn(parts), n);
    NoImages(OneTurn(once));
    EvictFirstStep(OneTurn(parts), 2, n);
    EvictFirstStep(OneTurn(once), 1, n);
  }

  function OneTurn(parts: seq<Part>): seq<Item> { [User(parts, Human, "")] }

  lemma TurnSize(parts: seq<Part>)
    ensures BodyBytes(OneTurn(parts)) == 2 + UserFrame(Human, "") + PartsSize(parts, FastPart)
  {
    var items := OneTurn(parts);
    BodyBytesIsFastSize(items);
    assert items[1..] == [] && items[0] == User(parts, Human, "");
    assert ItemsSize(items, SerdeLayout(), FastPart) == ItemSize(items[0], SerdeLayout(), FastPart);
  }

  lemma Sizes3(a: Part, b: Part, c: Part, m: Measure)
    ensures PartsSize([a, b, c], m) == m(a) + m(b) + m(c) + 2
  {
    PartsSizeConcat([a], [b, c], m);
    PartsSizeConcat([b], [c], m);
    assert [a] + [b, c] == [a, b, c] && [b] + [c] == [b, c];
    Size1(a, m);
    Size1(b, m);
    Size1(c, m);
  }

  lemma Size1(a: Part, m: Measure)
    ensures PartsSize([a], m) == m(a)
  {
    assert [a][1..] == [];
  }

  lemma EvictTurn(parts: seq<Part>, n: Notices)
    requires HasImage(parts)
    ensures AnyImage(OneTurn(parts)) && FirstCarrier(OneTurn(parts)) == 0
    ensures EvictOne(OneTurn(parts), n) == OneTurn(ReplaceFirst(parts, Part.Text(n.placeholder)))
  {
    var items := OneTurn(parts);
    var x := User(parts, Human, "");
    assert items[0] == x && CarriesImage(x) && FirstCarrier(items) == 0;
    var e := EvictItem(x, n);
    assert e == User(ReplaceFirst(parts, Part.Text(n.placeholder)), Human, "");
    assert EvictOne(items, n) == [x][0 := e] == [e];
  }
}
