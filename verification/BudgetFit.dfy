/** Shrinking a conversation to a token budget. The token estimate of an item is a parameter. */
module BudgetFit {
  import opened Bytes
  import opened Conversation
  import Text
  import Utf8

  type Estimator = Item -> nat

  function Cost(items: seq<Item>, estimate: Estimator): nat {
    if items == [] then 0 else estimate(items[0]) + Cost(items[1..], estimate)
  }

  // ---------------------------------------------------------------- truncating text

  const MARKER_RESERVE: nat := 64
  const USIZE_MAX: nat := 0xFFFF_FFFF_FFFF_FFFF
  function MarkerHead(): string { "\n[... truncated " }
  function MarkerTail(): string { " bytes to fit the compaction window ...]" }

  function Marker(dropped: nat): string { MarkerHead() + Text.Decimal(dropped) + MarkerTail() }

  /** The longest prefix of whole characters that fits in `keep` bytes. */
  function LongestPrefix(s: string, keep: nat): (r: string)
    ensures r <= s && Utf8.ByteLen(r) <= keep
  {
    if s == [] || |Utf8.EncodeChar(s[0])| > keep then ""
    else
      var rest := LongestPrefix(s[1..], keep - |Utf8.EncodeChar(s[0])|);
      assert ([s[0]] + rest)[1..] == rest;
      [s[0]] + rest
  }

  lemma {:induction false} LongestPrefixIsLongest(s: string, keep: nat, q: string)
    requires LongestPrefix(s, keep) < q <= s
    ensures Utf8.ByteLen(q) > keep
  {
    assert q[0] == s[0] && q[1..] <= s[1..] && q == [q[0]] + q[1..];
    assert Utf8.ByteLen(q) == |Utf8.EncodeChar(s[0])| + Utf8.ByteLen(q[1..]);
    if |Utf8.EncodeChar(s[0])| <= keep {
      var n := |Utf8.EncodeChar(s[0])|;
      var rest := LongestPrefix(s[1..], keep - n);
      assert ([s[0]] + rest)[1..] == rest;
      assert rest < q[1..];
      LongestPrefixIsLongest(s[1..], keep - n, q[1..]);
    }
  }

  /** None when the text already fits, else the longest prefix that leaves room for the marker. */
  function TruncateText(s: string, maxBytes: nat): Option<string> {
    if Utf8.ByteLen(s) <= maxBytes then None
    else
      var prefix := LongestPrefix(s, SaturatingSub(maxBytes, MARKER_RESERVE));
      Some(prefix + Marker(Utf8.ByteLen(s) - Utf8.ByteLen(prefix)))
  }

  lemma PrefixShorter(p: string, s: string)
    requires p <= s
    ensures Utf8.ByteLen(p) <= Utf8.ByteLen(s)
    ensures p < s ==> Utf8.ByteLen(p) < Utf8.ByteLen(s)
  {
    assert s == p + s[|p|..];
    Utf8.EncodeConcat(p, s[|p|..]);
  }

  method TruncateTextToBytes(s: string, maxBytes: nat) returns (r: Option<string>)
    ensures r == TruncateText(s, maxBytes)
  {
    var bytes := Utf8.Encode(s);
    if |bytes| <= maxBytes { return None; }
    var keep := SaturatingSub(maxBytes, MARKER_RESERVE);
    ghost var longest := LongestPrefix(s, keep);
    PrefixShorter(longest, s);
    SliceOfPrefix(s, longest);
    Utf8.BoundaryIffSlice(s, Utf8.ByteLen(longest));
    var end := Min(keep, |bytes|);
    while end > 0 && !Utf8.IsCharBoundary(bytes, end)
      invariant Utf8.ByteLen(longest) <= end <= keep && end <= |bytes|
    {
      end := end - 1;
    }
    Utf8.BoundaryIffSlice(s, end);
    var prefix := Utf8.SliceTo(s, end);
    if prefix.None? { return None; }
    if longest < prefix.value { LongestPrefixIsLongest(s, keep, prefix.value); }
    SamePrefix(s, longest, prefix.value);
    r := Some(prefix.value + Marker(|bytes| - end));
  }

  lemma {:induction false} SliceOfPrefix(s: string, p: string)
    requires p <= s
    ensures Utf8.SliceTo(s, Utf8.ByteLen(p)) == Some(p)
  {
    if p != [] {
      assert p[0] == s[0] && p[1..] <= s[1..] && p == [p[0]] + p[1..];
      SliceOfPrefix(s[1..], p[1..]);
    }
  }

  lemma SamePrefix(s: string, longest: string, p: string)
    requires longest <= s && p <= s && Utf8.ByteLen(longest) <= Utf8.ByteLen(p)
    requires !(longest < p)
    ensures p == longest
  {
    if |p| < |longest| {
      assert p < longest;
      PrefixShorter(p, longest);
    }
  }

  lemma {:induction false} DecimalIsAscii(n: nat)
    ensures forall k :: 0 <= k < |Text.Decimal(n)| ==> Text.Decimal(n)[k] as int < 0x80
  {
    if n >= 10 { DecimalIsAscii(n / 10); }
  }

  lemma MarkerLength(dropped: nat)
    ensures Utf8.ByteLen(Marker(dropped)) == 56 + |Text.Decimal(dropped)|
  {
    var digits := Text.Decimal(dropped);
    DecimalIsAscii(dropped);
    Utf8.AsciiLength(digits);
    MarkerHeadLength(MarkerHead());
    MarkerTailLength(MarkerTail());
    Utf8.EncodeConcat(MarkerHead(), digits);
    Utf8.EncodeConcat(MarkerHead() + digits, MarkerTail());
  }

  lemma MarkerHeadLength(head: string)
    requires head == MarkerHead()
    ensures Utf8.ByteLen(head) == 16
  {
    Utf8.AsciiLength(head);
  }

  lemma MarkerTailLength(tail: string)
    requires tail == MarkerTail()
    ensures Utf8.ByteLen(tail) == 40
  {
    Utf8.AsciiLength(tail);
  }

  lemma TruncatedTextLength(s: string, maxBytes: nat)
    requires TruncateText(s, maxBytes).Some?
    ensures var r := TruncateText(s, maxBytes).value;
      var p := LongestPrefix(s, SaturatingSub(maxBytes, MARKER_RESERVE));
      Utf8.ByteLen(p) <= Utf8.ByteLen(s)
      && Utf8.ByteLen(r) == Utf8.ByteLen(p) + 56 + |Text.Decimal(Utf8.ByteLen(s) - Utf8.ByteLen(p))|
  {
    var p := LongestPrefix(s, SaturatingSub(maxBytes, MARKER_RESERVE));
    PrefixShorter(p, s);
    MarkerLength(Utf8.ByteLen(s) - Utf8.ByteLen(p));
    Utf8.EncodeConcat(p, Marker(Utf8.ByteLen(s) - Utf8.ByteLen(p)));
  }

  /** Cut text is a prefix of whole characters plus the marker; it stays within
      max(max_bytes, 64) bytes for texts under 10^8 bytes. */
  lemma TruncatedTextIsBounded(s: string, maxBytes: nat)
    requires TruncateText(s, maxBytes).Some? && Utf8.ByteLen(s) < 100_000_000
    ensures Utf8.ByteLen(TruncateText(s, maxBytes).value) <= Max(maxBytes, MARKER_RESERVE)
  {
    TruncatedTextLength(s, maxBytes);
    var p := LongestPrefix(s, SaturatingSub(maxBytes, MARKER_RESERVE));
    Text.DecimalLength(Utf8.ByteLen(s) - Utf8.ByteLen(p), 8);
    PowerOfEight();
  }

  lemma PowerOfEight()
    ensures Text.Pow10(8) == 100_000_000
  {
    assert Text.Pow10(4) == 10_000;
  }

  // ---------------------------------------------------------------- truncating one item

  function MaxBytes(maxTokens: nat): nat { Min(4 * maxTokens, USIZE_MAX) }

  function Shorten(s: string, maxBytes: nat): string {
    var r := TruncateText(s, maxBytes);
    if r.Some? then r.value else s
  }

  function ShortenPart(p: Part, maxBytes: nat): Part {
    match p case Text(t) => Part.Text(Shorten(t, maxBytes)) case Image(_) => p
  }

  function TruncateItem(item: Item, maxTokens: nat): (r: Item)
    ensures r.ToolResult? == item.ToolResult? && r.Assistant? == item.Assistant?
    ensures item.ToolResult? ==> r.callId == item.callId && r.images == item.images
    ensures item.Assistant? ==> r.calls == item.calls && r.meta == item.meta
  {
    var max := MaxBytes(maxTokens);
    match item
    case ToolResult(id, content, images) => ToolResult(id, Shorten(content, max), images)
    case Assistant(content, calls, meta) => Assistant(Shorten(content, max), calls, meta)
    case User(parts, reason, meta) =>
      User(seq(|parts|, k requires 0 <= k < |parts| => ShortenPart(parts[k], max)), reason, meta)
    case _ => item
  }

  method TruncateItemToTokens(item: Item, maxTokens: nat) returns (r: Item)
    ensures r == TruncateItem(item, maxTokens)
  {
    var max := MaxBytes(maxTokens);
    match item {
      case ToolResult(id, content, images) =>
        var s := TruncateTextToBytes(content, max);
        r := if s.Some? then ToolResult(id, s.value, images) else item;
      case Assistant(content, calls, meta) =>
        var s := TruncateTextToBytes(content, max);
        r := if s.Some? then Assistant(s.value, calls, meta) else item;
      case User(parts, reason, meta) =>
        var shortened := parts;
        var i := 0;
        while i < |parts|
          invariant 0 <= i <= |parts| == |shortened|
          invariant forall k :: 0 <= k < i ==> shortened[k] == ShortenPart(parts[k], max)
          invariant forall k :: i <= k < |parts| ==> shortened[k] == parts[k]
        {
          if parts[i].Text? {
            var s := TruncateTextToBytes(parts[i].text, max);
            if s.Some? { shortened := shortened[i := Part.Text(s.value)]; }
          }
          i := i + 1;
        }
        r := User(shortened, reason, meta);
        assert shortened == TruncateItem(item, maxTokens).parts;
      case _ => r := item;
    }
  }

  // ---------------------------------------------------------------- the fitted conversation

  /** The least start whose suffix costs at most `budget`: the longest affordable suffix. */
  function SuffixStart(body: seq<Item>, budget: nat, estimate: Estimator): (r: nat)
    ensures r <= |body|
  {
    if Cost(body, estimate) <= budget then 0 else 1 + SuffixStart(body[1..], budget, estimate)
  }

  function SkipResults(body: seq<Item>, start: nat): (r: nat)
    requires start <= |body|
    ensures start <= r <= |body| && forall k :: start <= k < r ==> body[k].ToolResult?
    ensures r < |body| ==> !body[r].ToolResult?
    decreases |body| - start
  {
    if start < |body| && body[start].ToolResult? then SkipResults(body, start + 1) else start
  }

  /** Where the trailing run of tool results begins. */
  function RunStart(body: seq<Item>): (r: nat)
    ensures r <= |body| && forall k :: r <= k < |body| ==> body[k].ToolResult?
    ensures r > 0 ==> !body[r - 1].ToolResult?
  {
    if body != [] && body[|body| - 1].ToolResult? then RunStart(body[..|body| - 1]) else |body|
  }

  /** The assistant that owns a run of results, when it is directly in front of it. */
  function Owner(rest: seq<Item>): seq<Item> {
    if rest != [] && Calls(rest[|rest| - 1]) then [rest[|rest| - 1]] else []
  }

  function TruncateAll(items: seq<Item>, maxTokens: nat): (r: seq<Item>)
    ensures |r| == |items| && forall k :: 0 <= k < |items| ==> r[k] == TruncateItem(items[k], maxTokens)
  {
    seq(|items|, k requires 0 <= k < |items| => TruncateItem(items[k], maxTokens))
  }

  /** The share of the remaining budget that each of `n` results gets. */
  function PerResult(budget: nat, ownerCost: nat, n: nat): nat
    requires n > 0
  { Max(SaturatingSub(budget, ownerCost) / n, 1) }

  /** Cut the last item alone, or, when the body ends in `results`, that run with its owner. */
  function CutTurn(rest: seq<Item>, results: seq<Item>, budget: nat, estimate: Estimator): seq<Item> {
    if results != [] then
      Owner(rest) + TruncateAll(results, PerResult(budget, Cost(Owner(rest), estimate), |results|))
    else if rest == [] then []
    else [TruncateItem(rest[|rest| - 1], budget)]
  }

  /** The most recent turn, cut to size. */
  function RecoverTail(body: seq<Item>, budget: nat, estimate: Estimator): seq<Item> {
    CutTurn(body[..RunStart(body)], body[RunStart(body)..], budget, estimate)
  }

  function Head(conversation: seq<Item>): seq<Item> {
    if conversation != [] && conversation[0].System? then [conversation[0]] else []
  }

  function Body(conversation: seq<Item>): seq<Item> { conversation[|Head(conversation)|..] }

  function BodyBudget(conversation: seq<Item>, maxTokens: nat, estimate: Estimator): nat {
    SaturatingSub(maxTokens, Cost(Head(conversation), estimate))
  }

  function KeptStart(conversation: seq<Item>, maxTokens: nat, estimate: Estimator): (r: nat)
    ensures r <= |Body(conversation)|
  {
    var body := Body(conversation);
    SkipResults(body, SuffixStart(body, BodyBudget(conversation, maxTokens, estimate), estimate))
  }

  function Fit(conversation: seq<Item>, maxTokens: nat, estimate: Estimator): seq<Item> {
    if Cost(conversation, estimate) <= maxTokens then conversation
    else
      var body := Body(conversation);
      var start := KeptStart(conversation, maxTokens, estimate);
      Head(conversation) +
        (if start < |body| then body[start..]
         else RecoverTail(body, BodyBudget(conversation, maxTokens, estimate), estimate))
  }

  // ---------------------------------------------------------------- suffix costs

  lemma {:induction false} CostConcat(a: seq<Item>, b: seq<Item>, estimate: Estimator)
    ensures Cost(a + b, estimate) == Cost(a, estimate) + Cost(b, estimate)
  {
    if a == [] {
      assert a + b == b;
    } else {
      assert (a + b)[1..] == a[1..] + b;
      CostConcat(a[1..], b, estimate);
    }
  }

  /** A start is affordable exactly from `SuffixStart` on: no longer suffix fits. */
  lemma {:induction false} SuffixStartIsLeast(body: seq<Item>, budget: nat, estimate: Estimator, i: nat)
    requires i <= |body|
    ensures Cost(body[i..], estimate) <= budget <==> SuffixStart(body, budget, estimate) <= i
  {
    if Cost(body, estimate) <= budget {
      CostConcat(body[..i], body[i..], estimate);
      assert body == body[..i] + body[i..];
    } else if i == 0 {
      assert body[0..] == body;
    } else {
      assert body[i..] == body[1..][i - 1..];
      SuffixStartIsLeast(body[1..], budget, estimate, i - 1);
    }
  }

  // ---------------------------------------------------------------- the loops of the program

  method PopTrailingResults(body: seq<Item>) returns (rest: seq<Item>, results: seq<Item>)
    ensures rest == body[..RunStart(body)] && results == body[RunStart(body)..]
  {
    rest, results := body, [];
    while rest != [] && rest[|rest| - 1].ToolResult?
      invariant |rest| <= |body| && rest == body[..|rest|] && results == body[|rest|..]
      invariant RunStart(rest) == RunStart(body)
      decreases |rest|
    {
      assert body[|rest| - 1..] == [body[|rest| - 1]] + body[|rest|..];
      results := [rest[|rest| - 1]] + results;
      rest := rest[..|rest| - 1];
    }
  }

  method TruncateEach(items: seq<Item>, maxTokens: nat) returns (r: seq<Item>)
    ensures r == TruncateAll(items, maxTokens)
  {
    r := [];
    for i := 0 to |items|
      invariant |r| == i && forall k :: 0 <= k < i ==> r[k] == TruncateItem(items[k], maxTokens)
    {
      var cut := TruncateItemToTokens(items[i], maxTokens);
      r := r + [cut];
    }
  }

  method RecoverTruncatedTailUnit(body: seq<Item>, budget: nat, estimate: Estimator) returns (unit: seq<Item>)
    ensures unit == RecoverTail(body, budget, estimate)
  {
    var rest, results := PopTrailingResults(body);
    unit := CutTurnInPlace(rest, results, budget, estimate);
  }

  method CutTurnInPlace(rest: seq<Item>, results: seq<Item>, budget: nat, estimate: Estimator) returns (unit: seq<Item>)
    ensures unit == CutTurn(rest, results, budget, estimate)
  {
    if results == [] {
      if rest == [] { return []; }
      var cut := TruncateItemToTokens(rest[|rest| - 1], budget);
      return [cut];
    }
    var owner := [];
    if rest != [] && rest[|rest| - 1].Assistant? && rest[|rest| - 1].calls != [] {
      owner := [rest[|rest| - 1]];
    }
    var cut := TruncateEach(results, PerResult(budget, Cost(owner, estimate), |results|));
    unit := owner + cut;
  }

  lemma CostStep(body: seq<Item>, i: nat, estimate: Estimator)
    requires i < |body|
    ensures Cost(body[i..], estimate) == estimate(body[i]) + Cost(body[i + 1..], estimate)
  {
    assert body[i..][1..] == body[i + 1..];
  }

  method AffordableSuffix(body: seq<Item>, budget: nat, estimate: Estimator) returns (start: nat)
    ensures start == SuffixStart(body, budget, estimate)
  {
    start := |body|;
    var remaining: nat := budget;
    while start > 0 && estimate(body[start - 1]) <= remaining
      invariant 0 <= start <= |body|
      invariant remaining + Cost(body[start..], estimate) == budget
    {
      CostStep(body, start - 1, estimate);
      remaining, start := remaining - estimate(body[start - 1]), start - 1;
    }
    SuffixStartIsLeast(body, budget, estimate, start);
    if start > 0 {
      CostStep(body, start - 1, estimate);
      SuffixStartIsLeast(body, budget, estimate, start - 1);
    }
  }

  method FitConversationToBudget(conversation: seq<Item>, maxTokens: nat, estimate: Estimator) returns (r: seq<Item>)
    ensures r == Fit(conversation, maxTokens, estimate)
  {
    if Cost(conversation, estimate) <= maxTokens { return conversation; }
    var head, body := [], conversation;
    if body != [] && body[0].System? {
      head, body := [body[0]], body[1..];
    }
    assert head == Head(conversation) && body == Body(conversation);
    var budget := SaturatingSub(maxTokens, Cost(head, estimate));
    var start := AffordableSuffix(body, budget, estimate);
    while start < |body| && body[start].ToolResult?
      invariant start <= |body|
      invariant SkipResults(body, start) == KeptStart(conversation, maxTokens, estimate)
    {
      start := start + 1;
    }
    if start < |body| {
      r := head + body[start..];
    } else {
      var unit := RecoverTruncatedTailUnit(body, budget, estimate);
      r := head + unit;
    }
  }

  // ---------------------------------------------------------------- what fitting promises

  /** An over-budget conversation keeps the longest affordable suffix after its System head,
      minus the tool results that suffix starts with, and stays within the budget. */
  lemma FitKeepsLongestSuffix(conversation: seq<Item>, maxTokens: nat, estimate: Estimator)
    requires Cost(conversation, estimate) > maxTokens
    requires KeptStart(conversation, maxTokens, estimate) < |Body(conversation)|
    ensures var body := Body(conversation); var head := Head(conversation);
      var budget := BodyBudget(conversation, maxTokens, estimate);
      var start := KeptStart(conversation, maxTokens, estimate);
      var out := Fit(conversation, maxTokens, estimate);
      && out == head + body[start..] && !body[start].ToolResult?
      && Cost(out, estimate) <= Max(maxTokens, Cost(head, estimate))
      && (forall i :: 0 <= i <= |body| ==>
            (Cost(body[i..], estimate) <= budget <==> SuffixStart(body, budget, estimate) <= i))
      && (forall k :: SuffixStart(body, budget, estimate) <= k < start ==> body[k].ToolResult?)
  {
    var body := Body(conversation);
    var budget := BodyBudget(conversation, maxTokens, estimate);
    var start := KeptStart(conversation, maxTokens, estimate);
    forall i | 0 <= i <= |body|
      ensures Cost(body[i..], estimate) <= budget <==> SuffixStart(body, budget, estimate) <= i
    {
      SuffixStartIsLeast(body, budget, estimate, i);
    }
    CostConcat(Head(conversation), body[start..], estimate);
  }

  /** A slice that starts at no tool result keeps the pairing of the whole. */
  lemma SuffixPaired(items: seq<Item>, start: nat)
    requires start < |items| && Paired(items) && !items[start].ToolResult?
    ensures Paired(items[start..])
  {
    var s := items[start..];
    forall i | 0 <= i < |s| && s[i].ToolResult? ensures PairedAt(s, i) {
      assert PairedAt(items, start + i);
      var a :| 0 <= a < start + i && AnsweredBy(items, start + i, a);
      assert a >= start;
      assert AnsweredBy(s, i, a - start);
    }
  }

  /** Putting an unanswerable item in front changes no pairing. */
  lemma PrependPaired(head: seq<Item>, items: seq<Item>)
    requires |head| <= 1 && Paired(items) && forall k :: 0 <= k < |head| ==> !head[k].ToolResult?
    ensures Paired(head + items)
  {
    var s := head + items;
    forall i | 0 <= i < |s| && s[i].ToolResult? ensures PairedAt(s, i) {
      var j := i - |head|;
      assert PairedAt(items, j);
      var a :| 0 <= a < j && AnsweredBy(items, j, a);
      assert AnsweredBy(s, i, a + |head|);
    }
  }

  lemma BodyPaired(conversation: seq<Item>)
    requires Paired(conversation)
    ensures Paired(Body(conversation))
  {
    var body := Body(conversation);
    forall i | 0 <= i < |body| && body[i].ToolResult? ensures PairedAt(body, i) {
      var j := i + |Head(conversation)|;
      assert PairedAt(conversation, j);
      var a :| 0 <= a < j && AnsweredBy(conversation, j, a);
      assert AnsweredBy(body, i, a - |Head(conversation)|);
    }
  }

  /** In a paired body the trailing run follows one assistant that declares all its ids. */
  lemma RunHasOwner(body: seq<Item>)
    requires Paired(body) && RunStart(body) < |body|
    ensures var n := RunStart(body);
      n > 0 && forall j :: n <= j < |body| ==> Declares(body[n - 1], body[j].callId)
  {
    var n := RunStart(body);
    forall j | n <= j < |body| ensures n > 0 && Declares(body[n - 1], body[j].callId) {
      OwnerOfResult(body, j);
    }
    OwnerOfResult(body, n);
  }

  lemma OwnerOfResult(body: seq<Item>, j: nat)
    requires Paired(body) && RunStart(body) <= j < |body|
    ensures RunStart(body) > 0 && Declares(body[RunStart(body) - 1], body[j].callId)
  {
    assert PairedAt(body, j);
    var a :| 0 <= a < j && AnsweredBy(body, j, a);
    assert a == RunStart(body) - 1;
  }

  lemma RunPaired(owner: Item, results: seq<Item>)
    requires owner.Assistant?
    requires forall k :: 0 <= k < |results| ==> results[k].ToolResult? && Declares(owner, results[k].callId)
    ensures Paired([owner] + results)
  {
    var s := [owner] + results;
    forall i | 0 <= i < |s| && s[i].ToolResult? ensures PairedAt(s, i) {
      assert AnsweredBy(s, i, 0);
    }
  }

  /** The cut tail still pairs every result with its owner. */
  lemma RecoveredTailPaired(body: seq<Item>, budget: nat, estimate: Estimator)
    requires Paired(body)
    ensures Paired(RecoverTail(body, budget, estimate))
  {
    var n := RunStart(body);
    if n < |body| {
      RunHasOwner(body);
      var owner := body[n - 1];
      assert Declares(owner, body[n].callId);
      assert Owner(body[..n]) == [owner];
      RunPaired(owner, TruncateAll(body[n..], PerResult(budget, Cost([owner], estimate), |body[n..]|)));
    }
  }

  /** Whatever is cut, a paired conversation stays paired: unchanged, as a suffix, or as a cut tail. */
  lemma FitPreservesPairing(conversation: seq<Item>, maxTokens: nat, estimate: Estimator)
    requires Paired(conversation)
    ensures Paired(Fit(conversation, maxTokens, estimate))
  {
    if Cost(conversation, estimate) > maxTokens {
      var body := Body(conversation);
      var start := KeptStart(conversation, maxTokens, estimate);
      BodyPaired(conversation);
      if start < |body| {
        SuffixPaired(body, start);
        PrependPaired(Head(conversation), body[start..]);
      } else {
        var budget := BodyBudget(conversation, maxTokens, estimate);
        RecoveredTailPaired(body, budget, estimate);
        PrependPaired(Head(conversation), RecoverTail(body, budget, estimate));
      }
    }
  }

  lemma RecoveredTailLast(body: seq<Item>, budget: nat, estimate: Estimator) returns (max: nat)
    requires body != []
    ensures var unit := RecoverTail(body, budget, estimate);
      unit != [] && unit[|unit| - 1] == TruncateItem(body[|body| - 1], max)
  {
    var n := RunStart(body);
    if n == |body| {
      assert body[n..] == [] && body[..n] == body;
      max := budget;
    } else {
      max := PerResult(budget, Cost(Owner(body[..n]), estimate), |body[n..]|);
      var cut := TruncateAll(body[n..], max);
      assert cut[|cut| - 1] == TruncateItem(body[|body| - 1], max);
    }
  }

  /** The last turn is never dropped: the final item is that of the history, or its text cut. */
  lemma FitKeepsLastItem(conversation: seq<Item>, maxTokens: nat, estimate: Estimator) returns (max: nat)
    requires Body(conversation) != []
    ensures var out := Fit(conversation, maxTokens, estimate); var last := conversation[|conversation| - 1];
      out != [] && (out[|out| - 1] == last || out[|out| - 1] == TruncateItem(last, max))
  {
    var body, budget := Body(conversation), BodyBudget(conversation, maxTokens, estimate);
    var start := KeptStart(conversation, maxTokens, estimate);
    max := RecoveredTailLast(body, budget, estimate);
    if Cost(conversation, estimate) > maxTokens {
      var tail := if start < |body| then body[start..] else RecoverTail(body, budget, estimate);
      var out := Head(conversation) + tail;
      assert out == Fit(conversation, maxTokens, estimate);
      assert out[|out| - 1] == tail[|tail| - 1];
      assert body[|body| - 1] == conversation[|conversation| - 1];
    }
  }
}
