/** What fitting leaves of a conversation, said of its items and their costs alone: the System
    item in front, then the longest affordable suffix or the last turn cut to its shares. */
module FitShape {
  import opened Bytes
  import opened Conversation
  import opened BudgetFit
  import Utf8

  /** How many items stay in front, and what the budget leaves for the others. */
  function Front(conversation: seq<Item>): nat { if conversation != [] && conversation[0].System? then 1 else 0 }

  function Left(conversation: seq<Item>, maxTokens: nat, estimate: Estimator): nat {
    if Front(conversation) == 0 then maxTokens else SaturatingSub(maxTokens, estimate(conversation[0]))
  }

  /** The suffix from `start` is affordable, starts at no tool result, and no longer one does both. */
  predicate Keeps(conversation: seq<Item>, start: nat, maxTokens: nat, estimate: Estimator) {
    var left := Left(conversation, maxTokens, estimate);
    && Front(conversation) <= start < |conversation|
    && Cost(conversation[start..], estimate) <= left && !conversation[start].ToolResult?
    && forall i :: Front(conversation) <= i < start && Cost(conversation[i..], estimate) <= left ==> conversation[i].ToolResult?
  }

  predicate KeepsNone(conversation: seq<Item>, maxTokens: nat, estimate: Estimator) {
    forall i :: Front(conversation) <= i < |conversation| && Cost(conversation[i..], estimate) <= Left(conversation, maxTokens, estimate)
      ==> conversation[i].ToolResult?
  }

  lemma OneCost(x: Item, estimate: Estimator)
    ensures Cost([x], estimate) == estimate(x)
  {
    assert [x][1..] == [] && [x][0] == x;
  }

  lemma HeadIsFront(conversation: seq<Item>, maxTokens: nat, estimate: Estimator)
    ensures Head(conversation) == conversation[..Front(conversation)]
    ensures Body(conversation) == conversation[Front(conversation)..]
    ensures BodyBudget(conversation, maxTokens, estimate) == Left(conversation, maxTokens, estimate)
  {
    if Front(conversation) == 1 { OneCost(conversation[0], estimate); }
  }

  /** The kept start is affordable, and everything affordable before it is a tool result. */
  lemma KeptStartIs(conversation: seq<Item>, maxTokens: nat, estimate: Estimator, i: nat)
    requires Front(conversation) <= i <= |conversation|
    ensures var k := Front(conversation) + KeptStart(conversation, maxTokens, estimate);
      && k <= |conversation|
      && (i >= k ==> Cost(conversation[i..], estimate) <= Left(conversation, maxTokens, estimate))
      && (k < |conversation| ==> !conversation[k].ToolResult?)
      && (i < k && Cost(conversation[i..], estimate) <= Left(conversation, maxTokens, estimate) ==> conversation[i].ToolResult?)
  {
    var n, body, left := Front(conversation), Body(conversation), Left(conversation, maxTokens, estimate);
    HeadIsFront(conversation, maxTokens, estimate);
    SuffixStartIsLeast(body, left, estimate, i - n);
    assert body[i - n..] == conversation[i..];
    var k := KeptStart(conversation, maxTokens, estimate);
    if k < |body| { assert body[k] == conversation[n + k]; }
    if i < n + k { assert body[i - n] == conversation[i]; }
  }

  /** For every budget a System item in front stays in front. */
  lemma SystemItemStays(conversation: seq<Item>, maxTokens: nat, estimate: Estimator)
    requires conversation != [] && conversation[0].System?
    ensures Fit(conversation, maxTokens, estimate) != [] && Fit(conversation, maxTokens, estimate)[0] == conversation[0]
  {
    HeadIsFront(conversation, maxTokens, estimate);
  }

  /** Over budget, the System item is followed by the longest affordable suffix that starts at no
      tool result; without a System item nothing stays in front. */
  lemma KeepsSuffix(conversation: seq<Item>, start: nat, maxTokens: nat, estimate: Estimator)
    requires Cost(conversation, estimate) > maxTokens && Keeps(conversation, start, maxTokens, estimate)
    ensures Fit(conversation, maxTokens, estimate) == conversation[..Front(conversation)] + conversation[start..]
  {
    var n, k := Front(conversation), KeptStart(conversation, maxTokens, estimate);
    HeadIsFront(conversation, maxTokens, estimate);
    KeptStartIs(conversation, maxTokens, estimate, start);
    KeptStartIs(conversation, maxTokens, estimate, n + k);
    assert start == n + k;
    assert Body(conversation)[k..] == conversation[start..];
  }

  /** There is such a suffix, or the last turn is cut. */
  lemma KeepsOrCuts(conversation: seq<Item>, maxTokens: nat, estimate: Estimator) returns (start: nat)
    ensures Keeps(conversation, start, maxTokens, estimate) || KeepsNone(conversation, maxTokens, estimate)
  {
    start := Front(conversation) + KeptStart(conversation, maxTokens, estimate);
    KeptStartIs(conversation, maxTokens, estimate, Front(conversation));
    forall i | Front(conversation) <= i < |conversation|
      ensures i >= start ==> Cost(conversation[i..], estimate) <= Left(conversation, maxTokens, estimate)
      ensures i < start && Cost(conversation[i..], estimate) <= Left(conversation, maxTokens, estimate) ==> conversation[i].ToolResult?
    {
      KeptStartIs(conversation, maxTokens, estimate, i);
    }
  }

  lemma CutsTail(conversation: seq<Item>, maxTokens: nat, estimate: Estimator)
    requires Cost(conversation, estimate) > maxTokens && KeepsNone(conversation, maxTokens, estimate)
    ensures Fit(conversation, maxTokens, estimate) == conversation[..Front(conversation)]
      + RecoverTail(conversation[Front(conversation)..], Left(conversation, maxTokens, estimate), estimate)
  {
    var k := Front(conversation) + KeptStart(conversation, maxTokens, estimate);
    HeadIsFront(conversation, maxTokens, estimate);
    KeptStartIs(conversation, maxTokens, estimate, Front(conversation));
    if k < |conversation| { KeptStartIs(conversation, maxTokens, estimate, k); }
  }

  lemma RecoverLast(body: seq<Item>, budget: nat, estimate: Estimator)
    requires body != [] && !body[|body| - 1].ToolResult?
    ensures RecoverTail(body, budget, estimate) == [TruncateItem(body[|body| - 1], budget)]
  {
    assert RunStart(body) == |body| && body[..|body|] == body && body[|body|..] == [];
  }

  /** When no suffix can be kept and the last item is no tool result, it alone is kept and cut. */
  lemma CutsLastItem(conversation: seq<Item>, maxTokens: nat, estimate: Estimator)
    requires Cost(conversation, estimate) > maxTokens && KeepsNone(conversation, maxTokens, estimate)
    requires |conversation| > Front(conversation) && !conversation[|conversation| - 1].ToolResult?
    ensures Fit(conversation, maxTokens, estimate) == conversation[..Front(conversation)]
      + [TruncateItem(conversation[|conversation| - 1], Left(conversation, maxTokens, estimate))]
  {
    CutsTail(conversation, maxTokens, estimate);
    RecoverLast(conversation[Front(conversation)..], Left(conversation, maxTokens, estimate), estimate);
  }

  /** The items from `m` on are the trailing run of tool results. */
  predicate TrailingRun(conversation: seq<Item>, m: nat) {
    && Front(conversation) <= m < |conversation|
    && (forall j :: m <= j < |conversation| ==> conversation[j].ToolResult?)
    && (m == Front(conversation) || !conversation[m - 1].ToolResult?)
  }

  /** 1 when an assistant with tool calls stands directly before the run, else 0. */
  function Owners(conversation: seq<Item>, m: nat): nat
    requires m <= |conversation|
  {
    if m > Front(conversation) && conversation[m - 1].Assistant? && |conversation[m - 1].calls| > 0 then 1 else 0
  }

  /** An equal part of what the budget leaves, in whole tokens and at least one. */
  predicate IsShare(share: nat, rest: nat, n: nat) {
    share >= 1 && (share * n <= rest < (share + 1) * n || (share == 1 && rest < n))
  }

  lemma TimesGrows(a: nat, b: nat, n: nat)
    requires a <= b
    ensures a * n <= b * n
  {
  }

  lemma QuotientIs(q: nat, rest: nat, n: nat)
    requires n > 0 && q * n <= rest < (q + 1) * n
    ensures rest / n == q
  {
    var d := rest / n;
    assert d * n <= rest < d * n + n && (d + 1) * n == d * n + n;
    if d < q {
      TimesGrows(d + 1, q, n);
    } else if d > q {
      TimesGrows(q + 1, d, n);
    }
  }

  lemma ShareIs(share: nat, budget: nat, ownerCost: nat, n: nat)
    requires n > 0 && IsShare(share, SaturatingSub(budget, ownerCost), n)
    ensures share == PerResult(budget, ownerCost, n)
  {
    var rest := SaturatingSub(budget, ownerCost);
    QuotientIs(if rest < n then 0 else share, rest, n);
  }

  /** The run found from behind. */
  lemma {:induction false} RunStartIs(body: seq<Item>, m: nat)
    requires m <= |body| && (forall j :: m <= j < |body| ==> body[j].ToolResult?) && (m == 0 || !body[m - 1].ToolResult?)
    ensures RunStart(body) == m
    decreases |body|
  {
    if m < |body| { RunStartIs(body[..|body| - 1], m); }
  }

  /** The owners of the run, none or one. */
  lemma OwnersAre(conversation: seq<Item>, m: nat, estimate: Estimator)
    requires Front(conversation) <= m <= |conversation|
    ensures var o := Owners(conversation, m); var owner := Owner(conversation[Front(conversation)..][..m - Front(conversation)]);
      owner == conversation[m - o..m] && Cost(owner, estimate) == if o == 1 then estimate(conversation[m - 1]) else 0
  {
    if Owners(conversation, m) == 1 { OneCost(conversation[m - 1], estimate); }
  }

  lemma RunRecovered(body: seq<Item>, m: nat, owner: seq<Item>, share: nat, left: nat, estimate: Estimator)
    requires m < |body| && (forall j :: m <= j < |body| ==> body[j].ToolResult?) && (m == 0 || !body[m - 1].ToolResult?)
    requires owner == Owner(body[..m]) && share == PerResult(left, Cost(owner, estimate), |body[m..]|)
    ensures RecoverTail(body, left, estimate) == owner + TruncateAll(body[m..], share)
  {
    RunStartIs(body, m);
  }

  /** The same, said of the conversation. */
  lemma {:induction false} RunOfConversation(conversation: seq<Item>, m: nat, share: nat, left: nat, estimate: Estimator)
    requires TrailingRun(conversation, m)
    requires var o := Owners(conversation, m);
      IsShare(share, SaturatingSub(left, if o == 1 then estimate(conversation[m - 1]) else 0), |conversation| - m)
    ensures RecoverTail(conversation[Front(conversation)..], left, estimate)
      == conversation[m - Owners(conversation, m)..m] + TruncateAll(conversation[m..], share)
  {
    var body, k := conversation[Front(conversation)..], m - Front(conversation);
    OwnersAre(conversation, m, estimate);
    var owner := Owner(body[..k]);
    ShareIs(share, left, Cost(owner, estimate), |conversation| - m);
    TailSlice(conversation, Front(conversation), m);
    RunRecovered(body, k, owner, share, left, estimate);
  }

  lemma TailSlice(conversation: seq<Item>, n: nat, m: nat)
    requires n <= m <= |conversation|
    ensures conversation[n..][m - n..] == conversation[m..]
  {
  }

  /** When no suffix can be kept and the conversation ends in tool results, its run is kept with
      its owner, each result cut to an equal share. */
  lemma CutsTrailingRun(conversation: seq<Item>, m: nat, share: nat, maxTokens: nat, estimate: Estimator)
    requires Cost(conversation, estimate) > maxTokens && KeepsNone(conversation, maxTokens, estimate)
    requires TrailingRun(conversation, m)
    requires var o := Owners(conversation, m);
      IsShare(share, SaturatingSub(Left(conversation, maxTokens, estimate), if o == 1 then estimate(conversation[m - 1]) else 0), |conversation| - m)
    ensures Fit(conversation, maxTokens, estimate) == conversation[..Front(conversation)]
      + (conversation[m - Owners(conversation, m)..m] + TruncateAll(conversation[m..], share))
  {
    CutsTail(conversation, maxTokens, estimate);
    RunOfConversation(conversation, m, share, Left(conversation, maxTokens, estimate), estimate);
  }

  // ---------------------------------------------------------------- what a cut does to an item

  /** The text fits and stays, or the longest prefix that leaves 64 bytes is followed by the note
      of how many bytes are missing. */
  ghost predicate CutText(s: string, t: string, max: nat) {
    if Utf8.ByteLen(s) <= max then t == s
    else exists p: string :: CutAt(s, t, p, max)
  }

  ghost predicate CutAt(s: string, t: string, p: string, max: nat) {
    var keep := if max >= 64 then max - 64 else 0;
    && p <= s && Utf8.ByteLen(p) <= keep <= Utf8.ByteLen(s)
    && (forall q: string :: p < q <= s ==> Utf8.ByteLen(q) > keep)
    && t == p + Marker(SaturatingSub(Utf8.ByteLen(s), Utf8.ByteLen(p)))
  }

  lemma ShortenedIs(s: string, max: nat)
    ensures CutText(s, Shorten(s, max), max)
  {
    if Utf8.ByteLen(s) > max {
      var keep := if max >= 64 then max - 64 else 0;
      var p := LongestPrefix(s, keep);
      forall q: string | p < q <= s ensures Utf8.ByteLen(q) > keep { LongestPrefixIsLongest(s, keep, q); }
      PrefixShorter(p, s);
      assert CutAt(s, Shorten(s, max), p, max);
    }
  }

  /** Cutting to `maxTokens` cuts each text of the item to four bytes a token, and nothing else. */
  lemma TruncatedItemIs(item: Item, maxTokens: nat)
    requires 4 * maxTokens <= USIZE_MAX
    ensures var r, max := TruncateItem(item, maxTokens), 4 * maxTokens;
      match item
      case ToolResult(id, content, images) => r.ToolResult? && r.callId == id && r.images == images && CutText(content, r.content, max)
      case Assistant(content, calls, meta) => r.Assistant? && r.calls == calls && r.meta == meta && CutText(content, r.content, max)
      case User(parts, reason, meta) =>
        && r.User? && r.reason == reason && r.meta == meta && |r.parts| == |parts|
        && forall k :: 0 <= k < |parts| ==>
             if parts[k].Image? then r.parts[k] == parts[k] else r.parts[k].Text? && CutText(parts[k].text, r.parts[k].text, max)
      case _ => r == item
  {
    match item {
      case ToolResult(_, content, _) => ShortenedIs(content, 4 * maxTokens);
      case Assistant(content, _, _) => ShortenedIs(content, 4 * maxTokens);
      case User(parts, _, _) =>
        forall k | 0 <= k < |parts| && parts[k].Text? ensures CutText(parts[k].text, Shorten(parts[k].text, 4 * maxTokens), 4 * maxTokens) {
          ShortenedIs(parts[k].text, 4 * maxTokens);
        }
      case _ =>
    }
  }
}
