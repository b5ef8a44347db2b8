/** The fast measure of a request body: image URLs are blanked before serialising, and only
    the header of a base64 data URL is scanned for escapes. */
module ImageMeasure {
  import opened Bytes
  import opened Conversation
  import opened Json
  import Text
  import Utf8

  const IMAGE_PART_FRAME_BYTES: nat := 25

  predicate IsBase64Header(header: string) {
    "data:" <= header && |header| >= 7 && header[|header| - 7..] == ";base64"
  }

  /** The header and tail of a base64 data URL, split at the first comma. */
  function Base64Split(url: string): (r: Option<(string, string)>)
    ensures r.Some? ==> url == r.value.0 + "," + r.value.1 && IsBase64Header(r.value.0)
  {
    var comma := Text.Find(url, ",");
    if comma.None? then None
    else
      var header, tail := url[..comma.value], url[comma.value + 1..];
      if IsBase64Header(header) then
        assert url == header + url[comma.value..comma.value + 1] + tail;
        Some((header, tail))
      else None
  }

  function EncodedUrlBytes(url: string): nat {
    var split := Base64Split(url);
    if split.None? then EscapedLen(url)
    else EscapedLen(split.value.0) + 1 + Utf8.ByteLen(split.value.1)
  }

  /** The tail of a base64 data URL needs no escape (true of the RFC 4648 alphabet). */
  predicate CleanTail(url: string) {
    var split := Base64Split(url);
    split.None? || Clean(split.value.1)
  }

  lemma EncodedUrlIsExactIff(url: string)
    ensures EncodedUrlBytes(url) <= EscapedLen(url)
    ensures EncodedUrlBytes(url) == EscapedLen(url) <==> CleanTail(url)
  {
    var split := Base64Split(url);
    if split.Some? {
      var (header, tail) := split.value;
      EscapeConcat(header + ",", tail);
      EscapeConcat(header, ",");
      assert EscapedLen(",") == 1 by {
        EscapedLenIsExactIff(",");
        OneByte(',');
      }
      EscapedLenIsExactIff(tail);
    }
  }

  /** The base64 alphabet of section 4 of RFC 4648, with padding. */
  predicate IsBase64Char(c: char) {
    'A' <= c <= 'Z' || 'a' <= c <= 'z' || '0' <= c <= '9' || c == '+' || c == '/' || c == '='
  }

  lemma Base64IsClean(tail: string)
    requires forall k :: 0 <= k < |tail| ==> IsBase64Char(tail[k])
    ensures Clean(tail)
  {
  }

  // ---------------------------------------------------------------- sizes, part by part

  type Measure = Part -> nat

  /** What an item costs around its image-carrying parts. */
  datatype Layout = Layout(
    user: (SyntheticReason, string) -> nat, tool: string -> nat, imagesField: nat, plain: Item -> nat)

  function Separator(n: nat): nat { if n > 1 then 1 else 0 }

  function PartsSize(parts: seq<Part>, m: Measure): nat {
    if parts == [] then 0 else m(parts[0]) + Separator(|parts|) + PartsSize(parts[1..], m)
  }

  /** The `images` field is left out when there is none. */
  function ImagesSize(images: seq<Part>, l: Layout, m: Measure): nat {
    if images == [] then 0 else l.imagesField + PartsSize(images, m)
  }

  function ItemSize(item: Item, l: Layout, m: Measure): nat {
    match item
    case User(parts, reason, meta) => l.user(reason, meta) + PartsSize(parts, m)
    case ToolResult(id, content, images) => l.tool(id) + EscapedLen(content) + ImagesSize(images, l, m)
    case _ => l.plain(item)
  }

  function ItemsSize(items: seq<Item>, l: Layout, m: Measure): nat {
    if items == [] then 0 else ItemSize(items[0], l, m) + Separator(|items|) + ItemsSize(items[1..], l, m)
  }

  /** The parts of an item that may hold inline images. */
  function ImageParts(item: Item): seq<Part> {
    match item
    case User(parts, _, _) => parts
    case ToolResult(_, _, images) => images
    case _ => []
  }

  predicate PartsAre(parts: seq<Part>, ok: Part -> bool) { forall k :: 0 <= k < |parts| ==> ok(parts[k]) }

  predicate AllPartsAre(items: seq<Item>, ok: Part -> bool) {
    forall i :: 0 <= i < |items| ==> PartsAre(ImageParts(items[i]), ok)
  }

  /** `a` is at most `b` on every part, with equality exactly on the parts that are `ok`. */
  ghost predicate TightOn(a: Measure, b: Measure, ok: Part -> bool) {
    forall p :: a(p) <= b(p) && (a(p) == b(p) <==> ok(p))
  }

  lemma {:induction false} PartsSizeTight(parts: seq<Part>, a: Measure, b: Measure, ok: Part -> bool)
    requires TightOn(a, b, ok)
    ensures PartsSize(parts, a) <= PartsSize(parts, b)
    ensures PartsSize(parts, a) == PartsSize(parts, b) <==> PartsAre(parts, ok)
  {
    if parts != [] {
      PartsSizeTight(parts[1..], a, b, ok);
      assert a(parts[0]) <= b(parts[0]);
      assert PartsAre(parts, ok) <==> ok(parts[0]) && PartsAre(parts[1..], ok) by {
        assert forall k :: 1 <= k < |parts| ==> parts[k] == parts[1..][k - 1];
      }
    }
  }

  lemma {:induction false} ItemsSizeTight(items: seq<Item>, l: Layout, a: Measure, b: Measure, ok: Part -> bool)
    requires TightOn(a, b, ok)
    ensures ItemsSize(items, l, a) <= ItemsSize(items, l, b)
    ensures ItemsSize(items, l, a) == ItemsSize(items, l, b) <==> AllPartsAre(items, ok)
  {
    if items != [] {
      ItemsSizeTight(items[1..], l, a, b, ok);
      PartsSizeTight(ImageParts(items[0]), a, b, ok);
      assert AllPartsAre(items, ok) <==> PartsAre(ImageParts(items[0]), ok) && AllPartsAre(items[1..], ok) by {
        assert forall k :: 1 <= k < |items| ==> items[k] == items[1..][k - 1];
      }
    }
  }

  // ---- blanking

  function BlankPart(p: Part): Part { match p case Text(_) => p case Image(_) => Image("") }

  function BlankParts(parts: seq<Part>): (r: seq<Part>)
    ensures |r| == |parts| && forall k :: 0 <= k < |parts| ==> r[k] == BlankPart(parts[k])
  {
    seq(|parts|, k requires 0 <= k < |parts| => BlankPart(parts[k]))
  }

  function BlankItem(item: Item): Item {
    match item
    case User(parts, reason, meta) => User(BlankParts(parts), reason, meta)
    case ToolResult(id, content, images) => ToolResult(id, content, BlankParts(images))
    case _ => item
  }

  function Blank(items: seq<Item>): (r: seq<Item>)
    ensures |r| == |items| && forall k :: 0 <= k < |items| ==> r[k] == BlankItem(items[k])
  {
    seq(|items|, k requires 0 <= k < |items| => BlankItem(items[k]))
  }

  function UrlBytesOf(p: Part): nat { if p.Image? then EncodedUrlBytes(p.url) else 0 }

  function PartsUrlBytes(parts: seq<Part>): nat {
    if parts == [] then 0 else UrlBytesOf(parts[0]) + PartsUrlBytes(parts[1..])
  }

  function UrlBytes(items: seq<Item>): nat {
    if items == [] then 0 else PartsUrlBytes(ImageParts(items[0])) + UrlBytes(items[1..])
  }

  /** `fast` is `exact` of the blanked part plus the measured URL. */
  ghost predicate AddsBack(fast: Measure, exact: Measure) {
    forall p :: fast(p) == exact(BlankPart(p)) + UrlBytesOf(p)
  }

  lemma {:induction false} BlankPartsSize(parts: seq<Part>, fast: Measure, exact: Measure)
    requires AddsBack(fast, exact)
    ensures PartsSize(BlankParts(parts), exact) + PartsUrlBytes(parts) == PartsSize(parts, fast)
  {
    if parts != [] {
      BlankPartsSize(parts[1..], fast, exact);
      assert BlankParts(parts)[1..] == BlankParts(parts[1..]);
    }
  }

  lemma {:induction false} BlankItemsSize(items: seq<Item>, l: Layout, fast: Measure, exact: Measure)
    requires AddsBack(fast, exact)
    ensures ItemsSize(Blank(items), l, exact) + UrlBytes(items) == ItemsSize(items, l, fast)
  {
    if items != [] {
      BlankItemsSize(items[1..], l, fast, exact);
      assert Blank(items)[1..] == Blank(items[1..]);
      BlankPartsSize(ImageParts(items[0]), fast, exact);
    }
  }

  // ---------------------------------------------------------------- the sizes of the JSON text

  /** The exact serialised size of a part. */
  function ExactPart(p: Part): nat { Utf8.ByteLen(PartJson(p)) }

  /** The size that the budget uses: images by their fast URL measure. */
  function FastPart(p: Part): nat {
    match p
    case Text(_) => ExactPart(p)
    case Image(u) => IMAGE_PART_FRAME_BYTES + EncodedUrlBytes(u)
  }

  const USER_HEAD_BYTES: nat := 26
  const IMAGES_FIELD_BYTES: nat := 12

  function UserFrame(reason: SyntheticReason, meta: string): nat { USER_HEAD_BYTES + Utf8.ByteLen(UserTail(reason, meta)) }

  function ToolFrame(id: string): nat { Utf8.ByteLen(ToolHead(id)) + 2 }

  function PlainBytes(item: Item): nat { Utf8.ByteLen(PlainItemJson(item)) }

  function SerdeLayout(): Layout { Layout(UserFrame, ToolFrame, IMAGES_FIELD_BYTES, PlainBytes) }

  function BodySize(items: seq<Item>, m: Measure): nat { 2 + ItemsSize(items, SerdeLayout(), m) }

  lemma JoinLen(xs: seq<string>)
    requires xs != []
    ensures Utf8.ByteLen(Join(xs)) == Utf8.ByteLen(xs[0]) + Separator(|xs|) + Utf8.ByteLen(Join(xs[1..]))
  {
    if |xs| > 1 {
      Utf8.ByteLenConcat(xs[0], ",");
      Utf8.ByteLenConcat(xs[0] + ",", Join(xs[1..]));
      OneByte(',');
    } else {
      assert Join(xs[1..]) == "";
    }
  }

  lemma {:induction false} PartsJsonLen(parts: seq<Part>)
    ensures Utf8.ByteLen(PartsJson(parts)) == PartsSize(parts, ExactPart)
  {
    if parts != [] {
      var xs := seq(|parts|, k requires 0 <= k < |parts| => PartJson(parts[k]));
      PartsJsonLen(parts[1..]);
      JoinLen(xs);
      assert xs[1..] == seq(|parts[1..]|, k requires 0 <= k < |parts[1..]| => PartJson(parts[1..][k]));
    }
  }

  lemma ConcatLen3(a: string, b: string, c: string)
    ensures Utf8.ByteLen(a + b + c) == Utf8.ByteLen(a) + Utf8.ByteLen(b) + Utf8.ByteLen(c)
  {
    Utf8.ByteLenConcat(a + b, c);
    Utf8.ByteLenConcat(a, b);
  }

  lemma ConcatLen5(a: string, b: string, c: string, d: string, e: string)
    ensures Utf8.ByteLen(a + b + c + d + e)
      == Utf8.ByteLen(a) + Utf8.ByteLen(b) + Utf8.ByteLen(c) + Utf8.ByteLen(d) + Utf8.ByteLen(e)
  {
    ConcatLen3(a, b, c);
    ConcatLen3(a + b + c, d, e);
  }

  lemma UserHeadLength(head: string)
    requires head == UserHead()
    ensures Utf8.ByteLen(head) == USER_HEAD_BYTES
  {
    Utf8.AsciiLength(head);
  }

  lemma ImagesHeadLength(head: string)
    requires head == ImagesHead()
    ensures Utf8.ByteLen(head) == 11
  {
    Utf8.AsciiLength(head);
  }

  lemma UserJsonLen(head: string, parts: seq<Part>, reason: SyntheticReason, meta: string)
    requires Utf8.ByteLen(head) == USER_HEAD_BYTES
    ensures Utf8.ByteLen(head + PartsJson(parts) + UserTail(reason, meta))
      == SerdeLayout().user(reason, meta) + PartsSize(parts, ExactPart)
  {
    PartsJsonLen(parts);
    ConcatLen3(head, PartsJson(parts), UserTail(reason, meta));
  }

  lemma ImagesFieldLen(head: string, tail: string, images: seq<Part>)
    requires Utf8.ByteLen(head) + Utf8.ByteLen(tail) == IMAGES_FIELD_BYTES
    ensures Utf8.ByteLen(head + PartsJson(images) + tail) == IMAGES_FIELD_BYTES + PartsSize(images, ExactPart)
  {
    PartsJsonLen(images);
    ConcatLen3(head, PartsJson(images), tail);
  }

  lemma ToolResultJsonLen(id: string, content: string, quote: string, field: string, tail: string)
    requires Utf8.ByteLen(quote) == 1 && Utf8.ByteLen(tail) == 1
    ensures Utf8.ByteLen(ToolHead(id) + Escape(content) + quote + field + tail) ==
      SerdeLayout().tool(id) + EscapedLen(content) + Utf8.ByteLen(field)
  {
    ConcatLen5(ToolHead(id), Escape(content), quote, field, tail);
  }

  lemma UserItemLen(parts: seq<Part>, reason: SyntheticReason, meta: string)
    ensures Utf8.ByteLen(UserJson(parts, reason, meta)) == UserFrame(reason, meta) + PartsSize(parts, ExactPart)
  {
    UserHeadLength(UserHead());
    UserJsonLen(UserHead(), parts, reason, meta);
  }

  lemma ImagesLen(images: seq<Part>)
    ensures Utf8.ByteLen(ImagesField(images)) == ImagesSize(images, SerdeLayout(), ExactPart)
  {
    if images != [] {
      ImagesHeadLength(ImagesHead());
      OneByte(']');
      ImagesFieldLen(ImagesHead(), ImagesTail(), images);
    }
  }

  lemma ToolItemLen(id: string, content: string, images: seq<Part>)
    ensures Utf8.ByteLen(ToolResultJson(id, content, images)) ==
      ToolFrame(id) + EscapedLen(content) + ImagesSize(images, SerdeLayout(), ExactPart)
  {
    ImagesLen(images);
    OneByte('"');
    OneByte('}');
    ToolResultJsonLen(id, content, ContentTail(), ImagesField(images), ToolTail());
  }

  lemma ItemJsonLen(item: Item)
    ensures Utf8.ByteLen(ItemJson(item)) == ItemSize(item, SerdeLayout(), ExactPart)
  {
    match item {
      case User(parts, reason, meta) => UserItemLen(parts, reason, meta);
      case ToolResult(id, content, images) => ToolItemLen(id, content, images);
      case _ =>
    }
  }

  lemma {:induction false} JoinedItemsLen(items: seq<Item>)
    ensures Utf8.ByteLen(Join(seq(|items|, k requires 0 <= k < |items| => ItemJson(items[k]))))
      == ItemsSize(items, SerdeLayout(), ExactPart)
  {
    var xs := seq(|items|, k requires 0 <= k < |items| => ItemJson(items[k]));
    if items != [] {
      JoinedItemsLen(items[1..]);
      ItemJsonLen(items[0]);
      JoinLen(xs);
      assert xs[1..] == seq(|items[1..]|, k requires 0 <= k < |items[1..]| => ItemJson(items[1..][k]));
    }
  }

  /** The sum over parts is the length of the JSON text. */
  lemma JsonLenIsBodySize(items: seq<Item>)
    ensures Utf8.ByteLen(ConversationJson(items)) == BodySize(items, ExactPart)
  {
    JoinedItemsLen(items);
    ConcatLen3("[", Join(seq(|items|, k requires 0 <= k < |items| => ItemJson(items[k]))), "]");
    OneByte('[');
    OneByte(']');
  }

  // ---------------------------------------------------------------- the measure of a body

  /** Serialise with blank URLs, and add back each URL's measured contribution. */
  function BodyBytes(items: seq<Item>): nat {
    Utf8.ByteLen(ConversationJson(Blank(items))) + UrlBytes(items)
  }

  lemma FrameHeadLength(head: string)
    requires head == ImageHead()
    ensures Utf8.ByteLen(head) == 23
  {
    Utf8.AsciiLength(head);
  }

  lemma FrameTailLength(tail: string)
    requires tail == PartTail()
    ensures Utf8.ByteLen(tail) == 2
  {
    Utf8.AsciiLength(tail);
  }

  lemma ExactImage(url: string)
    ensures ExactPart(Image(url)) == IMAGE_PART_FRAME_BYTES + EscapedLen(url)
  {
    ConcatLen3(ImageHead(), Escape(url), PartTail());
    FrameHeadLength(ImageHead());
    FrameTailLength(PartTail());
  }

  lemma FastAddsBack()
    ensures AddsBack(FastPart, ExactPart)
  {
    forall p ensures FastPart(p) == ExactPart(BlankPart(p)) + UrlBytesOf(p) {
      if p.Image? { ExactImage(""); }
    }
  }

  /** Blanking, serialising and adding back is the sum of the parts' fast sizes. */
  lemma BodyBytesIsFastSize(items: seq<Item>)
    ensures BodyBytes(items) == BodySize(items, FastPart)
  {
    FastAddsBack();
    BlankItemsSize(items, SerdeLayout(), FastPart, ExactPart);
    JsonLenIsBodySize(Blank(items));
  }

  const CleanPart: Part -> bool := (p: Part) => p.Image? ==> CleanTail(p.url)

  lemma FastIsTight()
    ensures TightOn(FastPart, ExactPart, CleanPart)
  {
    forall p ensures FastPart(p) <= ExactPart(p) && (FastPart(p) == ExactPart(p) <==> CleanPart(p)) {
      if p.Image? {
        ExactImage(p.url);
        EncodedUrlIsExactIff(p.url);
      }
    }
  }

  /** The fast measure never exceeds the size of the JSON text, and equals it exactly for
      histories whose base64 tails need no escape. */
  lemma BodyBytesExactIff(items: seq<Item>)
    ensures BodyBytes(items) <= Utf8.ByteLen(ConversationJson(items))
    ensures BodyBytes(items) == Utf8.ByteLen(ConversationJson(items)) <==> AllPartsAre(items, CleanPart)
  {
    BodyBytesIsFastSize(items);
    JsonLenIsBodySize(items);
    FastIsTight();
    ItemsSizeTight(items, SerdeLayout(), FastPart, ExactPart, CleanPart);
  }

  // ---------------------------------------------------------------- blanking in place

  /** Empties every image URL and adds its measured length. */
  method BlankImageUrls(parts: array<Part>, bytes: nat) returns (total: nat)
    modifies parts
    ensures parts[..] == BlankParts(old(parts[..])) && total == bytes + PartsUrlBytes(old(parts[..]))
  {
    ghost var before := parts[..];
    total := bytes;
    for i := 0 to parts.Length
      invariant forall k :: 0 <= k < parts.Length ==> parts[k] == if k < i then BlankPart(before[k]) else before[k]
      invariant total + PartsUrlBytes(before[i..]) == bytes + PartsUrlBytes(before)
    {
      assert before[i..][0] == before[i] && before[i..][1..] == before[i + 1..];
      if parts[i].Image? {
        total := total + EncodedUrlBytes(parts[i].url);
        parts[i] := Image("");
      }
    }
  }

  method BlankCopy(parts: seq<Part>, bytes: nat) returns (r: seq<Part>, total: nat)
    ensures r == BlankParts(parts) && total == bytes + PartsUrlBytes(parts)
  {
    var copy := new Part[|parts|](i requires 0 <= i < |parts| => parts[i]);
    assert copy[..] == parts;
    total := BlankImageUrls(copy, bytes);
    r := copy[..];
  }

  lemma BlankedNext(items: seq<Item>, i: nat)
    requires i < |items|
    ensures Blank(items[..i + 1]) == Blank(items[..i]) + [BlankItem(items[i])]
    ensures UrlBytes(items[i..]) == PartsUrlBytes(ImageParts(items[i])) + UrlBytes(items[i + 1..])
  {
    assert items[i..][0] == items[i] && items[i..][1..] == items[i + 1..];
  }

  /** The copy with blank URLs is serialised, and the measured URLs are added back. */
  method ConversationBodyBytes(items: seq<Item>) returns (n: nat)
    ensures n == BodyBytes(items)
  {
    var blanked: seq<Item>, urlBytes: nat := [], 0;
    for i := 0 to |items|
      invariant blanked == Blank(items[..i])
      invariant urlBytes + UrlBytes(items[i..]) == UrlBytes(items)
    {
      BlankedNext(items, i);
      match items[i] {
        case User(parts, reason, meta) =>
          var copy, total := BlankCopy(parts, urlBytes);
          blanked, urlBytes := blanked + [User(copy, reason, meta)], total;
        case ToolResult(id, content, images) =>
          var copy, total := BlankCopy(images, urlBytes);
          blanked, urlBytes := blanked + [ToolResult(id, content, copy)], total;
        case _ => blanked := blanked + [items[i]];
      }
    }
    assert items[..|items|] == items;
    n := Utf8.ByteLen(ConversationJson(blanked)) + urlBytes;
  }
}
