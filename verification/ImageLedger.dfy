/** What each eviction takes off the estimate and off the true body, read from the sizes of the
    history alone, and from that exactly when evicting reaches its goal. */
module ImageLedger {
  import opened Bytes
  import opened Conversation
  import opened Json
  import opened ImageMeasure
  import opened ImageBudget
  import Text
  import Utf8

  /** A size, or what an eviction takes off it: as the loop estimates it and in truth. */
  datatype Sizes = Sizes(estimate: int, actual: int) {
    function Minus(d: Sizes): Sizes { Sizes(estimate - d.estimate, actual - d.actual) }
  }

  /** How bodies are measured: the texts left behind, the frames, the loop's measure, the true one. */
  datatype Gauge = Gauge(n: Notices, l: Layout, fast: Measure, exact: Measure)

  // ---------------------------------------------------------------- the ledger

  function UserDrop(image: Part, g: Gauge): Sizes {
    Sizes(SaturatingSub(g.fast(image), PlaceholderSize(g.n, g.fast)), g.exact(image) - PlaceholderSize(g.n, g.exact))
  }

  /** A tool image goes with its comma or, when none is left, with its field; the first may leave a note. */
  function ToolDrop(image: Part, left: nat, note: nat, g: Gauge): Sizes {
    Sizes(g.fast(image) + (if left > 0 then 1 else 0) - note,
          g.exact(image) + (if left > 0 then 1 else g.l.imagesField) - note)
  }

  function UserLedger(parts: seq<Part>, g: Gauge): seq<Sizes> {
    if parts == [] then [] else (if parts[0].Image? then [UserDrop(parts[0], g)] else []) + UserLedger(parts[1..], g)
  }

  /** `images` is what is still to be visited of the `held` parts of a tool result. */
  function ToolLedger(images: seq<Part>, held: nat, note: nat, g: Gauge): seq<Sizes>
    requires |images| <= held
  {
    if images == [] then []
    else if images[0].Text? then ToolLedger(images[1..], held, note, g)
    else [ToolDrop(images[0], held - 1, note, g)] + ToolLedger(images[1..], held - 1, 0, g)
  }

  function NoteCost(content: string, n: Notices): nat {
    if Text.Contains(content, n.toolNote) then 0 else NoteSize(n)
  }

  function ItemLedger(item: Item, g: Gauge): seq<Sizes> {
    match item
    case User(parts, _, _) => UserLedger(parts, g)
    case ToolResult(_, content, images) => ToolLedger(images, |images|, NoteCost(content, g.n), g)
    case _ => []
  }

  /** What the evictions of all images take off, oldest image first. */
  function Ledger(items: seq<Item>, g: Gauge): seq<Sizes> {
    if items == [] then [] else ItemLedger(items[0], g) + Ledger(items[1..], g)
  }

  /** What is left of `start` after the first `k` entries. */
  function Left(start: Sizes, ledger: seq<Sizes>, k: nat): Sizes
    requires k <= |ledger|
  {
    if k == 0 then start else Left(start, ledger, k - 1).Minus(ledger[k - 1])
  }

  lemma {:induction false} LeftStep(start: Sizes, d: Sizes, ledger: seq<Sizes>, k: nat)
    requires k <= |ledger|
    ensures Left(start, [d] + ledger, k + 1) == Left(start.Minus(d), ledger, k)
  {
    if k > 0 {
      LeftStep(start, d, ledger, k - 1);
      assert ([d] + ledger)[k] == ledger[k - 1];
    } else {
      assert Left(start, [d] + ledger, 0) == start;
    }
  }

  /** The loop ends at `k`: the first point where the estimate is within the target, or the end. */
  predicate StopsAt(start: Sizes, ledger: seq<Sizes>, target: nat, k: nat) {
    && k <= |ledger|
    && (forall j :: 0 <= j < k ==> Left(start, ledger, j).estimate > target)
    && (k == |ledger| || Left(start, ledger, k).estimate <= target)
  }

  lemma StopsOnce(start: Sizes, ledger: seq<Sizes>, target: nat, j: nat, k: nat)
    requires StopsAt(start, ledger, target, j) && StopsAt(start, ledger, target, k)
    ensures j == k
  {
  }

  lemma StopsNext(start: Sizes, d: Sizes, ledger: seq<Sizes>, whole: seq<Sizes>, target: nat, k: nat)
    requires start.estimate > target && whole == [d] + ledger && StopsAt(start.Minus(d), ledger, target, k)
    ensures StopsAt(start, whole, target, 1 + k)
  {
    forall j | 0 <= j < 1 + k ensures Left(start, whole, j).estimate > target {
      if j > 0 { LeftStep(start, d, ledger, j - 1); }
    }
    LeftStep(start, d, ledger, k);
  }

  // ---------------------------------------------------------------- the ledger follows the evictions

  lemma {:induction false} UserLedgerEvict(parts: seq<Part>, g: Gauge)
    requires HasImage(parts)
    ensures UserLedger(parts, g) ==
      [UserDrop(parts[FirstImage(parts)], g)] + UserLedger(ReplaceFirst(parts, Part.Text(g.n.placeholder)), g)
  {
    var p := Part.Text(g.n.placeholder);
    if parts[0].Image? {
      assert ReplaceFirst(parts, p)[1..] == parts[1..];
    } else {
      UserLedgerEvict(parts[1..], g);
      assert ReplaceFirst(parts, p)[1..] == ReplaceFirst(parts[1..], p);
    }
  }

  lemma {:induction false} ToolLedgerEvict(images: seq<Part>, held: nat, note: nat, g: Gauge)
    requires HasImage(images) && |images| <= held
    ensures ToolLedger(images, held, note, g) ==
      [ToolDrop(images[FirstImage(images)], held - 1, note, g)] + ToolLedger(RemoveFirst(images), held - 1, 0, g)
  {
    if images[0].Image? {
      assert RemoveFirst(images) == images[1..];
    } else {
      ToolLedgerEvict(images[1..], held, note, g);
      assert RemoveFirst(images) == [images[0]] + RemoveFirst(images[1..]);
      assert RemoveFirst(images)[1..] == RemoveFirst(images[1..]);
    }
  }

  /** What evicting the oldest image of an item takes off. */
  function ItemDrop(item: Item, g: Gauge): Sizes
    requires CarriesImage(item)
  {
    match item
    case User(parts, _, _) => UserDrop(parts[FirstImage(parts)], g)
    case ToolResult(_, content, images) =>
      ToolDrop(images[FirstImage(images)], |images| - 1, NoteCost(content, g.n), g)
  }

  function NextDrop(items: seq<Item>, g: Gauge): Sizes
    requires AnyImage(items)
  { ItemDrop(items[FirstCarrier(items)], g) }

  lemma {:induction false} NotedLedgerEvict(content: string, images: seq<Part>, g: Gauge)
    requires HasImage(images)
    ensures ToolLedger(images, |images|, NoteCost(content, g.n), g) ==
      [ToolDrop(images[FirstImage(images)], |images| - 1, NoteCost(content, g.n), g)]
      + ToolLedger(RemoveFirst(images), |images| - 1, NoteCost(Noted(content, g.n), g.n), g)
  {
    NotedHasNote(content, g.n);
    ToolLedgerEvict(images, |images|, NoteCost(content, g.n), g);
  }

  lemma ItemLedgerEvict(item: Item, g: Gauge)
    requires CarriesImage(item)
    ensures ItemLedger(item, g) == [ItemDrop(item, g)] + ItemLedger(EvictItem(item, g.n), g)
  {
    match item {
      case User(parts, _, _) => UserLedgerEvict(parts, g);
      case ToolResult(_, content, images) => NotedLedgerEvict(content, images, g);
    }
  }

  lemma {:induction false} UserLedgerLength(parts: seq<Part>, g: Gauge)
    ensures |UserLedger(parts, g)| == |PartImages(parts)|
  {
    if parts != [] { UserLedgerLength(parts[1..], g); }
  }

  lemma {:induction false} ToolLedgerLength(images: seq<Part>, held: nat, note: nat, g: Gauge)
    requires |images| <= held
    ensures |ToolLedger(images, held, note, g)| == |PartImages(images)|
  {
    if images != [] {
      if images[0].Text? {
        ToolLedgerLength(images[1..], held, note, g);
      } else {
        ToolLedgerLength(images[1..], held - 1, 0, g);
      }
    }
  }

  lemma ItemLedgerLength(item: Item, g: Gauge)
    ensures |ItemLedger(item, g)| == |PartImages(ImageParts(item))|
  {
    match item {
      case User(parts, _, _) => UserLedgerLength(parts, g);
      case ToolResult(_, content, images) => ToolLedgerLength(images, |images|, NoteCost(content, g.n), g);
      case _ =>
    }
  }

  lemma {:induction false} LedgerLength(items: seq<Item>, g: Gauge)
    ensures |Ledger(items, g)| == |Images(items)|
  {
    if items != [] {
      ItemLedgerLength(items[0], g);
      LedgerLength(items[1..], g);
    }
  }

  lemma {:induction false} LedgerConcat(a: seq<Item>, b: seq<Item>, g: Gauge)
    ensures Ledger(a + b, g) == Ledger(a, g) + Ledger(b, g)
  {
    if a == [] {
      assert a + b == b;
    } else {
      assert (a + b)[1..] == a[1..] + b;
      LedgerConcat(a[1..], b, g);
      Regroup(ItemLedger(a[0], g), Ledger(a[1..], g), Ledger(b, g));
    }
  }

  lemma LedgerAround(pre: seq<Item>, x: Item, post: seq<Item>, g: Gauge)
    requires Images(pre) == []
    ensures Ledger(pre + [x] + post, g) == ItemLedger(x, g) + Ledger(post, g)
  {
    LedgerConcat(pre + [x], post, g);
    LedgerAfterNone(pre, x, g);
  }

  lemma LedgerAfterNone(pre: seq<Item>, x: Item, g: Gauge)
    requires Images(pre) == []
    ensures Ledger(pre + [x], g) == ItemLedger(x, g)
  {
    LedgerConcat(pre, [x], g);
    LedgerLength(pre, g);
    assert [x][1..] == [];
  }

  /** The first entry is that of the oldest image, and the others stay right. */
  lemma LedgerEvict(items: seq<Item>, g: Gauge)
    requires AnyImage(items)
    ensures Ledger(items, g) == [NextDrop(items, g)] + Ledger(EvictOne(items, g.n), g)
  {
    var i := FirstCarrier(items);
    var x, y := items[i], EvictItem(items[i], g.n);
    NothingBeforeFirstCarrier(items);
    EvictOneAround(items, g.n);
    LedgerAround(items[..i], x, items[i + 1..], g);
    LedgerAround(items[..i], y, items[i + 1..], g);
    ItemLedgerEvict(x, g);
    Regroup([ItemDrop(x, g)], ItemLedger(y, g), Ledger(items[i + 1..], g));
  }

  // ---------------------------------------------------------------- what an entry stands for

  lemma DropIsReal(item: Item, g: Gauge)
    requires CarriesImage(item)
    ensures ItemSize(EvictItem(item, g.n), g.l, g.exact) == ItemSize(item, g.l, g.exact) - ItemDrop(item, g).actual
  {
    match item {
      case User(parts, _, _) => EvictPartSizes(parts, Part.Text(g.n.placeholder), g.exact);
      case ToolResult(_, content, images) =>
        EvictPartSizes(images, Part.Text(g.n.placeholder), g.exact);
        EscapeConcat(content, NoteSuffix(g.n));
    }
  }

  lemma DropIsEstimated(item: Item, running: nat, g: Gauge)
    requires CarriesImage(item) && ItemFloor(item, g.fast) <= running
    ensures RunningAfter(item, running, g.n, g.fast) == running - ItemDrop(item, g).estimate
  {
    EvictItemFloor(item, g.n, g.fast);
  }

  /** The estimate covers whatever the evictions to come take off it, so it never saturates. */
  predicate Covers(start: Sizes, items: seq<Item>, g: Gauge) { 0 <= Floor(items, g.fast) <= start.estimate }

  /** The estimate covers the evictions to come, and the true size is that of the body. */
  predicate Measures(start: Sizes, items: seq<Item>, g: Gauge) {
    Covers(start, items, g) && start.actual == 2 + ItemsSize(items, g.l, g.exact)
  }

  lemma CoversEvict(start: Sizes, items: seq<Item>, g: Gauge)
    requires AnyImage(items) && Covers(start, items, g)
    ensures Covers(start.Minus(NextDrop(items, g)), EvictOne(items, g.n), g)
    ensures RunningAfter(items[FirstCarrier(items)], start.estimate, g.n, g.fast) == start.Minus(NextDrop(items, g)).estimate
  {
    EvictOneSize(items, start.estimate, g.n, g.l, g.fast);
    DropIsEstimated(items[FirstCarrier(items)], start.estimate, g);
  }

  lemma MeasuresEvict(start: Sizes, items: seq<Item>, g: Gauge)
    requires AnyImage(items) && Measures(start, items, g)
    ensures Measures(start.Minus(NextDrop(items, g)), EvictOne(items, g.n), g)
  {
    var i := FirstCarrier(items);
    var pre, x, y, post := items[..i], items[i], EvictItem(items[i], g.n), items[i + 1..];
    CoversEvict(start, items, g);
    NothingBeforeFirstCarrier(items);
    EvictOneAround(items, g.n);
    ItemsSizeAround(pre, x, post, g.l, g.exact);
    ItemsSizeAround(pre, y, post, g.l, g.exact);
    DropIsReal(x, g);
  }

  /** `led` names the ledger without its definition. */
  ghost predicate IsLedger(led: seq<Item> -> seq<Sizes>, g: Gauge) {
    forall items {:trigger Ledger(items, g)} :: led(items) == Ledger(items, g)
  }

  lemma LedStep(items: seq<Item>, g: Gauge, led: seq<Item> -> seq<Sizes>)
    requires IsLedger(led, g) && AnyImage(items)
    ensures led(items) == [NextDrop(items, g)] + led(EvictOne(items, g.n))
  {
    LedgerEvict(items, g);
  }

  lemma LedLength(items: seq<Item>, g: Gauge, led: seq<Item> -> seq<Sizes>)
    requires IsLedger(led, g)
    ensures |led(items)| == |Images(items)|
  {
    LedgerLength(items, g);
  }

  /** On the way `rest` of the ledger is still ahead, and the part before it left `start` with
      the sizes of `now`. */
  predicate OnTheWay(start: Sizes, ledger: seq<Sizes>, rest: seq<Sizes>, now: seq<Item>, g: Gauge) {
    && |rest| <= |ledger| && rest == ledger[|ledger| - |rest|..]
    && Measures(Left(start, ledger, |ledger| - |rest|), now, g)
  }

  lemma NextEntry(start: Sizes, ledger: seq<Sizes>, d: Sizes, rest: seq<Sizes>)
    requires |rest| < |ledger| && [d] + rest == ledger[|ledger| - |rest| - 1..]
    ensures rest == ledger[|ledger| - |rest|..]
    ensures Left(start, ledger, |ledger| - |rest|) == Left(start, ledger, |ledger| - |rest| - 1).Minus(d)
  {
    assert ledger[|ledger| - |rest| - 1] == ([d] + rest)[0];
    assert rest == ([d] + rest)[1..];
  }

  lemma OnTheWayNext(start: Sizes, ledger: seq<Sizes>, d: Sizes, rest: seq<Sizes>, next: seq<Item>, g: Gauge)
    requires |rest| < |ledger| && [d] + rest == ledger[|ledger| - |rest| - 1..]
    requires Measures(Left(start, ledger, |ledger| - |rest| - 1).Minus(d), next, g)
    ensures OnTheWay(start, ledger, rest, next, g)
  {
    NextEntry(start, ledger, d, rest);
  }

  lemma OnTheWayEvict(start: Sizes, ledger: seq<Sizes>, now: seq<Item>, g: Gauge, led: seq<Item> -> seq<Sizes>)
    requires IsLedger(led, g) && AnyImage(now) && OnTheWay(start, ledger, led(now), now, g)
    ensures OnTheWay(start, ledger, led(EvictOne(now, g.n)), EvictOne(now, g.n), g)
  {
    LedStep(now, g, led);
    MeasuresEvict(Left(start, ledger, |ledger| - |led(now)|), now, g);
    OnTheWayNext(start, ledger, NextDrop(now, g), led(EvictOne(now, g.n)), EvictOne(now, g.n), g);
  }

  lemma StaysOnTheWay(start: Sizes, ledger: seq<Sizes>, items: seq<Item>, k: nat, g: Gauge,
                                         led: seq<Item> -> seq<Sizes>)
    requires IsLedger(led, g) && k <= |Images(items)| && OnTheWay(start, ledger, led(items), items, g)
    ensures var r := EvictFirst(items, k, g.n); OnTheWay(start, ledger, led(r), r, g)
  {
    var inv := (s: seq<Item>) => OnTheWay(start, ledger, led(s), s, g);
    forall s | AnyImage(s) && inv(s) ensures inv(EvictOne(s, g.n)) { OnTheWayEvict(start, ledger, s, g, led); }
    EvictFirstInduction(items, k, g.n, inv);
  }

  lemma MeasuresAlong(start: Sizes, items: seq<Item>, k: nat, g: Gauge, led: seq<Item> -> seq<Sizes>)
    requires IsLedger(led, g) && k <= |Images(items)| && Measures(start, items, g)
    ensures |led(items)| == |Images(items)|
    ensures Measures(Left(start, led(items), k), EvictFirst(items, k, g.n), g)
  {
    LedLength(items, g, led);
    assert led(items)[0..] == led(items);
    StaysOnTheWay(start, led(items), items, k, g, led);
    EvictFirstImages(items, k, g.n);
    LedLength(EvictFirst(items, k, g.n), g, led);
  }

  /** After `k` evictions the ledger gives the estimate and the true size. */
  lemma MeasuresEvictFirst(start: Sizes, items: seq<Item>, k: nat, g: Gauge)
    requires k <= |Images(items)| && Measures(start, items, g)
    ensures |Ledger(items, g)| == |Images(items)|
    ensures Measures(Left(start, Ledger(items, g), k), EvictFirst(items, k, g.n), g)
  {
    var led := (s: seq<Item>) => Ledger(s, g);
    MeasuresAlong(start, items, k, g, led);
    assert led(items) == Ledger(items, g);
  }

  /** `count` names the number of evictions without its definition. */
  ghost predicate IsCount(count: (seq<Item>, nat) -> nat, target: nat, g: Gauge) {
    forall items, running: nat {:trigger Evict(items, running, target, g.n, g.fast)} ::
      count(items, running) == Evict(items, running, target, g.n, g.fast).evicted
  }

  /** What one round of the loop does to the ledger and to the count. */
  lemma OneRound(start: Sizes, items: seq<Item>, target: nat, g: Gauge, led: seq<Item> -> seq<Sizes>,
                                    count: (seq<Item>, nat) -> nat)
    returns (d: Sizes, next: seq<Item>)
    requires IsLedger(led, g) && IsCount(count, target, g)
    requires AnyImage(items) && start.estimate > target && Covers(start, items, g)
    ensures |Images(next)| < |Images(items)| && led(items) == [d] + led(next) && Covers(start.Minus(d), next, g)
    ensures count(items, start.estimate) == 1 + count(next, start.Minus(d).estimate)
  {
    d, next := NextDrop(items, g), EvictOne(items, g.n);
    EvictOneImages(items, g.n);
    EvictStep(items, start.estimate, target, g.n, g.fast);
    CoversEvict(start, items, g);
    LedStep(items, g, led);
  }

  lemma NoRound(start: Sizes, items: seq<Item>, target: nat, g: Gauge, led: seq<Item> -> seq<Sizes>,
                                   count: (seq<Item>, nat) -> nat)
    requires IsLedger(led, g) && IsCount(count, target, g)
    requires 0 <= start.estimate && (start.estimate <= target || !AnyImage(items))
    ensures count(items, start.estimate) == 0 && StopsAt(start, led(items), target, 0)
  {
    LedLength(items, g, led);
    NoImages(items);
    assert Evict(items, start.estimate, target, g.n, g.fast).evicted == 0;
  }

  lemma {:induction false} Rounds(start: Sizes, items: seq<Item>, target: nat, g: Gauge, led: seq<Item> -> seq<Sizes>,
                                  count: (seq<Item>, nat) -> nat)
    requires IsLedger(led, g) && IsCount(count, target, g) && Covers(start, items, g)
    ensures StopsAt(start, led(items), target, count(items, start.estimate))
    decreases |Images(items)|
  {
    if start.estimate > target && AnyImage(items) {
      var d, next := OneRound(start, items, target, g, led, count);
      Rounds(start.Minus(d), next, target, g, led, count);
      StopsNext(start, d, led(next), led(items), target, count(next, start.Minus(d).estimate));
    } else {
      NoRound(start, items, target, g, led, count);
    }
  }

  /** The loop stops where the ledger says. */
  lemma EvictStopsAt(start: Sizes, items: seq<Item>, target: nat, g: Gauge)
    requires Covers(start, items, g)
    ensures StopsAt(start, Ledger(items, g), target, Evict(items, start.estimate, target, g.n, g.fast).evicted)
  {
    var led := (s: seq<Item>) => Ledger(s, g);
    var count := (s: seq<Item>, running: nat) => Evict(s, running, target, g.n, g.fast).evicted;
    Rounds(start, items, target, g, led, count);
    assert led(items) == Ledger(items, g);
    assert count(items, start.estimate) == Evict(items, start.estimate, target, g.n, g.fast).evicted;
  }

  // ---------------------------------------------------------------- when the goal is met

  function BodyGauge(n: Notices): Gauge { Gauge(n, SerdeLayout(), FastPart, ExactPart) }

  function BodySizes(items: seq<Item>): Sizes { Sizes(BodyBytes(items), Utf8.ByteLen(ConversationJson(items))) }

  function BodyLedger(items: seq<Item>, n: Notices): seq<Sizes> { Ledger(items, BodyGauge(n)) }

  lemma BodyMeasures(items: seq<Item>, n: Notices)
    ensures Measures(BodySizes(items), items, BodyGauge(n))
  {
    BodyBytesIsFastSize(items);
    JsonLenIsBodySize(items);
    FloorWithin(items, SerdeLayout(), FastPart);
  }

  /** After the budget is applied no image is left, or the true JSON body is within the target. */
  predicate GoalMet(items: seq<Item>, trigger: nat, reclaim: nat, n: Notices) {
    var r := EvictFirst(items, BudgetEvictions(items, trigger, reclaim, n), n);
    Images(r) == [] || Utf8.ByteLen(ConversationJson(r)) <= reclaim
  }

  lemma BodyAfter(items: seq<Item>, k: nat, n: Notices)
    requires k <= |Images(items)|
    ensures |BodyLedger(items, n)| == |Images(items)|
    ensures var left := Left(BodySizes(items), BodyLedger(items, n), k);
      0 <= left.estimate && left.actual == Utf8.ByteLen(ConversationJson(EvictFirst(items, k, n)))
  {
    BodyMeasures(items, n);
    MeasuresEvictFirst(BodySizes(items), items, k, BodyGauge(n));
    JsonLenIsBodySize(EvictFirst(items, k, n));
  }

  /** The sizes of the history tell where the loop stops and whether the goal is met there. */
  lemma GoalMetIff(items: seq<Item>, trigger: nat, reclaim: nat, k: nat, n: Notices)
    requires BodyBytes(items) >= trigger
    requires StopsAt(BodySizes(items), BodyLedger(items, n), reclaim, k)
    ensures k == BudgetEvictions(items, trigger, reclaim, n) <= |Images(items)| == |BodyLedger(items, n)|
    ensures GoalMet(items, trigger, reclaim, n) <==>
      k == |BodyLedger(items, n)| || Left(BodySizes(items), BodyLedger(items, n), k).actual <= reclaim
  {
    BodyStopsAt(items, trigger, reclaim, n);
    StopsOnce(BodySizes(items), BodyLedger(items, n), reclaim, k, BudgetEvictions(items, trigger, reclaim, n));
    BodyAfter(items, k, n);
    EvictFirstImages(items, k, n);
  }

  lemma BodyStopsAt(items: seq<Item>, trigger: nat, reclaim: nat, n: Notices)
    requires BodyBytes(items) >= trigger
    ensures StopsAt(BodySizes(items), BodyLedger(items, n), reclaim, BudgetEvictions(items, trigger, reclaim, n))
  {
    BodyMeasures(items, n);
    EvictStopsAt(BodySizes(items), items, reclaim, BodyGauge(n));
  }

  /** Some target stops the loop at `k` with an image left and the body above it: the estimate
      is lower there than ever before, and lower than the truth. */
  predicate MissesAt(start: Sizes, ledger: seq<Sizes>, k: nat)
    requires k < |ledger|
  {
    && Left(start, ledger, k).estimate < Left(start, ledger, k).actual
    && forall j :: 0 <= j < k ==> Left(start, ledger, k).estimate < Left(start, ledger, j).estimate
  }

  predicate NeverMisses(start: Sizes, ledger: seq<Sizes>) {
    forall k :: 0 <= k < |ledger| ==> !MissesAt(start, ledger, k)
  }

  /** The goal is met whatever the trigger reached and the target. */
  ghost predicate AlwaysMet(items: seq<Item>, n: Notices) {
    forall trigger: nat, reclaim: nat :: BodyBytes(items) >= trigger ==> GoalMet(items, trigger, reclaim, n)
  }

  lemma MissIsReached(items: seq<Item>, k: nat, n: Notices)
    requires k < |BodyLedger(items, n)| && MissesAt(BodySizes(items), BodyLedger(items, n), k)
    ensures !AlwaysMet(items, n)
  {
    LedgerLength(items, BodyGauge(n));
    BodyAfter(items, k, n);
    var reclaim: nat := Left(BodySizes(items), BodyLedger(items, n), k).estimate;
    GoalMetIff(items, 0, reclaim, k, n);
    assert !GoalMet(items, 0, reclaim, n);
  }

  lemma MissIsMissed(items: seq<Item>, trigger: nat, reclaim: nat, n: Notices)
    requires BodyBytes(items) >= trigger && NeverMisses(BodySizes(items), BodyLedger(items, n))
    ensures GoalMet(items, trigger, reclaim, n)
  {
    var k := BudgetEvictions(items, trigger, reclaim, n);
    BodyStopsAt(items, trigger, reclaim, n);
    GoalMetIff(items, trigger, reclaim, k, n);
    if k < |BodyLedger(items, n)| {
      assert !MissesAt(BodySizes(items), BodyLedger(items, n), k);
    }
  }

  /** For every history: the goal is met under all limits iff no stop can miss it. */
  lemma AlwaysMetIff(items: seq<Item>, n: Notices)
    ensures AlwaysMet(items, n) <==> NeverMisses(BodySizes(items), BodyLedger(items, n))
  {
    if NeverMisses(BodySizes(items), BodyLedger(items, n)) {
      forall trigger: nat, reclaim: nat | BodyBytes(items) >= trigger ensures GoalMet(items, trigger, reclaim, n) {
        MissIsMissed(items, trigger, reclaim, n);
      }
    } else {
      var k :| 0 <= k < |BodyLedger(items, n)| && MissesAt(BodySizes(items), BodyLedger(items, n), k);
      MissIsReached(items, k, n);
    }
  }

  // ---------------------------------------------------------------- images of user items only

  predicate OnlyUserImages(items: seq<Item>) {
    forall i :: 0 <= i < |items| && CarriesImage(items[i]) ==> items[i].User?
  }

  function UserDrops(urls: seq<string>, g: Gauge): seq<Sizes> {
    if urls == [] then [] else [UserDrop(Image(urls[0]), g)] + UserDrops(urls[1..], g)
  }

  lemma {:induction false} UserDropsConcat(a: seq<string>, b: seq<string>, g: Gauge)
    ensures UserDrops(a + b, g) == UserDrops(a, g) + UserDrops(b, g)
  {
    if a == [] {
      assert a + b == b;
    } else {
      assert (a + b)[1..] == a[1..] + b;
      UserDropsConcat(a[1..], b, g);
    }
  }

  lemma {:induction false} UserLedgerIsDrops(parts: seq<Part>, g: Gauge)
    ensures UserLedger(parts, g) == UserDrops(PartImages(parts), g)
  {
    if parts != [] {
      UserLedgerIsDrops(parts[1..], g);
      if parts[0].Image? {
        assert PartImages(parts) == [parts[0].url] + PartImages(parts[1..]);
        assert parts[0] == Image(parts[0].url);
      } else {
        assert PartImages(parts) == PartImages(parts[1..]);
      }
    }
  }

  lemma {:induction false} LedgerIsDrops(items: seq<Item>, g: Gauge)
    requires OnlyUserImages(items)
    ensures Ledger(items, g) == UserDrops(Images(items), g)
  {
    if items != [] {
      LedgerIsDrops(items[1..], g);
      UserDropsConcat(PartImages(ImageParts(items[0])), Images(items[1..]), g);
      if items[0].User? {
        UserLedgerIsDrops(items[0].parts, g);
      } else {
        NoPartImages(ImageParts(items[0]));
        ItemLedgerLength(items[0], g);
      }
    }
  }

  function ImageSizes(urls: seq<string>, m: Measure): seq<nat> {
    if urls == [] then [] else [m(Image(urls[0]))] + ImageSizes(urls[1..], m)
  }

  /** The entries of images of the sizes `zs` replaced by a placeholder of size `p`. */
  predicate EntriesOf(ledger: seq<Sizes>, zs: seq<nat>, p: nat) {
    && |ledger| == |zs|
    && forall i :: 0 <= i < |zs| ==> ledger[i] == Sizes(SaturatingSub(zs[i], p), zs[i] - p)
  }

  predicate AllClean(urls: seq<string>) { forall i :: 0 <= i < |urls| ==> CleanPart(Image(urls[i])) }

  lemma {:induction false} PartImagesClean(parts: seq<Part>)
    requires PartsAre(parts, CleanPart)
    ensures AllClean(PartImages(parts))
  {
    if parts != [] { PartImagesClean(parts[1..]); }
  }

  lemma {:induction false} ImagesClean(items: seq<Item>)
    requires AllPartsAre(items, CleanPart)
    ensures AllClean(Images(items))
  {
    if items != [] {
      ImagesClean(items[1..]);
      PartImagesClean(ImageParts(items[0]));
    }
  }

  lemma EntriesStep(ledger: seq<Sizes>, zs: seq<nat>, z: nat, p: nat)
    requires EntriesOf(ledger, zs, p)
    ensures EntriesOf([Sizes(SaturatingSub(z, p), z - p)] + ledger, [z] + zs, p)
  {
  }

  /** Both measures agree on the image and on the placeholder. */
  predicate SameSize(url: string, g: Gauge) {
    && g.fast(Image(url)) == g.exact(Image(url))
    && PlaceholderSize(g.n, g.fast) == PlaceholderSize(g.n, g.exact)
  }

  lemma {:induction false} DropsAreEntries(urls: seq<string>, g: Gauge)
    requires forall i :: 0 <= i < |urls| ==> SameSize(urls[i], g)
    ensures EntriesOf(UserDrops(urls, g), ImageSizes(urls, g.fast), PlaceholderSize(g.n, g.fast))
  {
    if urls != [] {
      var z, p := g.fast(Image(urls[0])), PlaceholderSize(g.n, g.fast);
      assert SameSize(urls[0], g);
      DropsAreEntries(urls[1..], g);
      EntriesStep(UserDrops(urls[1..], g), ImageSizes(urls[1..], g.fast), z, p);
    }
  }

  lemma CleanIsSame(url: string, n: Notices)
    requires CleanPart(Image(url))
    ensures SameSize(url, BodyGauge(n))
  {
    FastIsTight();
    assert CleanPart(Part.Text(n.placeholder));
  }

  lemma CleanEntries(items: seq<Item>, n: Notices)
    requires AllPartsAre(items, CleanPart)
    ensures EntriesOf(UserDrops(Images(items), BodyGauge(n)), ImageSizes(Images(items), FastPart), PlaceholderSize(n, FastPart))
  {
    var urls := Images(items);
    ImagesClean(items);
    forall i | 0 <= i < |urls| ensures SameSize(urls[i], BodyGauge(n)) { CleanIsSame(urls[i], n); }
    DropsAreEntries(urls, BodyGauge(n));
  }

  /** A small image and a later large one, neither of them the last. */
  predicate SmallBeforeLarge(zs: seq<nat>, p: nat) {
    exists i, j :: 0 <= i < j < |zs| - 1 && zs[i] < p < zs[j]
  }

  lemma {:induction false} EstimateFalls(start: Sizes, ledger: seq<Sizes>, zs: seq<nat>, p: nat, j: nat, k: nat)
    requires EntriesOf(ledger, zs, p) && j <= k <= |ledger|
    ensures Left(start, ledger, k).estimate <= Left(start, ledger, j).estimate
  {
    if j < k { EstimateFalls(start, ledger, zs, p, j, k - 1); }
  }

  /** The estimate falls short exactly when a small image has gone. */
  lemma {:induction false} ShortIffSmall(start: Sizes, ledger: seq<Sizes>, zs: seq<nat>, p: nat, k: nat)
    requires EntriesOf(ledger, zs, p) && k <= |ledger| && start.estimate == start.actual
    ensures Left(start, ledger, k).estimate <= Left(start, ledger, k).actual
    ensures Left(start, ledger, k).estimate < Left(start, ledger, k).actual <==> exists i :: 0 <= i < k && zs[i] < p
  {
    if k > 0 {
      ShortIffSmall(start, ledger, zs, p, k - 1);
      assert (exists i :: 0 <= i < k && zs[i] < p) <==> zs[k - 1] < p || exists i :: 0 <= i < k - 1 && zs[i] < p;
    }
  }

  lemma MissesAtIff(start: Sizes, ledger: seq<Sizes>, zs: seq<nat>, p: nat, k: nat)
    requires EntriesOf(ledger, zs, p) && k < |ledger| && start.estimate == start.actual
    ensures MissesAt(start, ledger, k) <==> k > 0 && zs[k - 1] > p && exists i :: 0 <= i < k - 1 && zs[i] < p
  {
    ShortIffSmall(start, ledger, zs, p, k);
    if k > 0 {
      assert zs[k - 1] > p ==> ((exists i :: 0 <= i < k && zs[i] < p) <==> exists i :: 0 <= i < k - 1 && zs[i] < p);
      forall j | 0 <= j < k ensures Left(start, ledger, k - 1).estimate <= Left(start, ledger, j).estimate {
        EstimateFalls(start, ledger, zs, p, j, k - 1);
      }
      assert MissesAt(start, ledger, k) ==> Left(start, ledger, k).estimate < Left(start, ledger, k - 1).estimate;
    }
  }

  lemma NeverMissesIff(start: Sizes, ledger: seq<Sizes>, zs: seq<nat>, p: nat)
    requires EntriesOf(ledger, zs, p) && start.estimate == start.actual
    ensures NeverMisses(start, ledger) <==> !SmallBeforeLarge(zs, p)
  {
    if SmallBeforeLarge(zs, p) {
      var i, j :| 0 <= i < j < |zs| - 1 && zs[i] < p < zs[j];
      MissesAtIff(start, ledger, zs, p, j + 1);
      assert MissesAt(start, ledger, j + 1);
    } else {
      forall k | 0 <= k < |ledger| ensures !MissesAt(start, ledger, k) { MissesAtIff(start, ledger, zs, p, k); }
    }
  }

  /** When only user items carry images: the goal is met under all limits iff no image smaller
      than the placeholder stands before a larger one, the last image left aside. */
  lemma UserImagesAlwaysMetIff(items: seq<Item>, n: Notices)
    requires AllPartsAre(items, CleanPart) && OnlyUserImages(items)
    ensures AlwaysMet(items, n) <==> !SmallBeforeLarge(ImageSizes(Images(items), FastPart), PlaceholderSize(n, FastPart))
  {
    AlwaysMetIff(items, n);
    BodyBytesExactIff(items);
    LedgerIsDrops(items, BodyGauge(n));
    CleanEntries(items, n);
    NeverMissesIff(BodySizes(items), BodyLedger(items, n), ImageSizes(Images(items), FastPart), PlaceholderSize(n, FastPart));
  }
}
