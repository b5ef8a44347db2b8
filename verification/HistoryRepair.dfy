/** The three-pass repair of a history: drop duplicate results, strip displaced ones, and
    answer the calls that were left open. Each pass works run by run. */
module HistoryRepair {
  import opened Bytes
  import opened Conversation
  import opened ToolPairing

  predicate AllResults(run: seq<Item>) { forall k :: 0 <= k < |run| ==> run[k].ToolResult? }

  /** The tool results that a list starts with. */
  function RunLen(items: seq<Item>): (n: nat)
    ensures n <= |items| && AllResults(items[..n]) && (n < |items| ==> !items[n].ToolResult?)
  {
    if items != [] && items[0].ToolResult? then
      assert items[..1 + RunLen(items[1..])] == [items[0]] + items[1..][..RunLen(items[1..])];
      1 + RunLen(items[1..])
    else 0
  }

  predicate StartsNewTurn(items: seq<Item>) { items == [] || !items[0].ToolResult? }

  lemma {:induction false} RunLenOf(run: seq<Item>, rest: seq<Item>)
    requires AllResults(run) && StartsNewTurn(rest)
    ensures RunLen(run + rest) == |run|
  {
    if run == [] {
      assert run + rest == rest;
    } else {
      assert (run + rest)[1..] == run[1..] + rest;
      RunLenOf(run[1..], rest);
    }
  }

  /** The ids that a run answers, in order. */
  function RunIds(run: seq<Item>): seq<string> {
    if run == [] then []
    else (if run[0].ToolResult? then [run[0].callId] else []) + RunIds(run[1..])
  }

  function Ids(run: seq<Item>): set<string> { set id | id in RunIds(run) }

  function Expected(item: Item): seq<ToolCall> { if item.Assistant? then item.calls else [] }

  // ---------------------------------------------------------------- pass 1: duplicates

  /** Of the results with one id, only the last. */
  function LastOfEach(run: seq<Item>): (r: seq<Item>)
    ensures AllResults(run) ==> AllResults(r)
    ensures |r| <= |run|
  {
    if run == [] then []
    else (if run[0].ToolResult? && run[0].callId in Ids(run[1..]) then [] else [run[0]]) + LastOfEach(run[1..])
  }

  function Dedup(items: seq<Item>): seq<Item>
    decreases |items|
  {
    if items == [] then []
    else if Calls(items[0]) then
      var n := RunLen(items[1..]);
      [items[0]] + LastOfEach(items[1..][..n]) + Dedup(items[1..][n..])
    else [items[0]] + Dedup(items[1..])
  }

  // ---------------------------------------------------------------- pass 3: open calls

  type Filler = ToolCall -> string

  /** Synthetic results, in call order, for the calls whose id is not among `answered`. */
  function Synthetic(calls: seq<ToolCall>, answered: set<string>, text: Filler): (r: seq<Item>)
    ensures AllResults(r)
  {
    if calls == [] then []
    else (if calls[0].id in answered then [] else [ToolResult(calls[0].id, text(calls[0]), [])])
         + Synthetic(calls[1..], answered, text)
  }

  function FillIn(items: seq<Item>, text: Filler): seq<Item>
    decreases |items|
  {
    if items == [] then []
    else if Calls(items[0]) then
      var n := RunLen(items[1..]);
      var run := items[1..][..n];
      [items[0]] + (run + Synthetic(items[0].calls, Ids(run), text)) + FillIn(items[1..][n..], text)
    else [items[0]] + FillIn(items[1..], text)
  }

  function Repair(items: seq<Item>, text: Filler): seq<Item> { FillIn(Strip(Dedup(items)), text) }

  // ---------------------------------------------------------------- the repair, turn by turn

  function Answers(run: seq<Item>, ids: set<string>): (r: seq<Item>)
    ensures AllResults(run) ==> AllResults(r)
  {
    if run == [] then []
    else (if run[0].ToolResult? && run[0].callId !in ids then [] else [run[0]]) + Answers(run[1..], ids)
  }

  function FixRun(lead: Item, run: seq<Item>, text: Filler): seq<Item> {
    var kept := Answers(LastOfEach(run), CallIds(Expected(lead)));
    kept + Synthetic(Expected(lead), Ids(kept), text)
  }

  /** Each turn repaired on its own; results that follow nothing are dropped. */
  function RepairTurns(items: seq<Item>, text: Filler): seq<Item>
    decreases |items|
  {
    if items == [] then []
    else if items[0].ToolResult? then RepairTurns(items[1..], text)
    else
      var n := RunLen(items[1..]);
      [items[0]] + FixRun(items[0], items[1..][..n], text) + RepairTurns(items[1..][n..], text)
  }

  lemma IdsStep(run: seq<Item>)
    requires run != [] && AllResults(run)
    ensures Ids(run) == {run[0].callId} + Ids(run[1..])
  {
  }

  lemma {:induction false} RunIdsConcat(a: seq<Item>, b: seq<Item>)
    ensures RunIds(a + b) == RunIds(a) + RunIds(b)
  {
    if a == [] {
      assert a + b == b;
    } else {
      var head := if a[0].ToolResult? then [a[0].callId] else [];
      assert (a + b)[1..] == a[1..] + b && (a + b)[0] == a[0];
      RunIdsConcat(a[1..], b);
      assert RunIds(a + b) == head + (RunIds(a[1..]) + RunIds(b));
    }
  }

  lemma {:induction false} LastOfEachIds(run: seq<Item>)
    requires AllResults(run)
    ensures Ids(LastOfEach(run)) == Ids(run)
  {
    if run != [] {
      LastOfEachIds(run[1..]);
      IdsStep(run);
      if run[0].callId in Ids(run[1..]) {
        assert LastOfEach(run) == LastOfEach(run[1..]);
      } else {
        IdsStep([run[0]] + LastOfEach(run[1..]));
        assert ([run[0]] + LastOfEach(run[1..]))[1..] == LastOfEach(run[1..]);
      }
    }
  }

  lemma {:induction false} AnswersIds(run: seq<Item>, ids: set<string>)
    requires AllResults(run)
    ensures Ids(Answers(run, ids)) == Ids(run) * ids
  {
    if run != [] {
      AnswersIds(run[1..], ids);
      IdsStep(run);
      var rest := Answers(run[1..], ids);
      if run[0].callId in ids {
        IdsStep([run[0]] + rest);
        assert ([run[0]] + rest)[1..] == rest;
      } else {
        assert Answers(run, ids) == rest;
      }
    }
  }

  lemma {:induction false} AnswersNone(run: seq<Item>)
    requires AllResults(run)
    ensures Answers(run, {}) == []
  {
    if run != [] { AnswersNone(run[1..]); }
  }

  /** Stripping, seen from one turn. */
  lemma {:induction false} StripRun(run: seq<Item>, rest: seq<Item>, ids: set<string>)
    requires AllResults(run) && StartsNewTurn(rest)
    ensures StripFrom(run + rest, ids) == Answers(run, ids) + Strip(rest)
  {
    if run == [] {
      assert run + rest == rest;
    } else {
      assert (run + rest)[1..] == run[1..] + rest;
      StripRun(run[1..], rest, ids);
    }
  }

  lemma StripTurn(lead: Item, run: seq<Item>, rest: seq<Item>)
    requires !lead.ToolResult? && AllResults(run) && StartsNewTurn(rest)
    ensures Strip([lead] + run + rest) == [lead] + Answers(run, CallIds(Expected(lead))) + Strip(rest)
  {
    var items := [lead] + run + rest;
    assert items[1..] == run + rest;
    StripRun(run, rest, CallIds(Expected(lead)));
    assert NextRun({}, lead) == CallIds(Expected(lead));
  }

  lemma FillOwnedTurn(lead: Item, run: seq<Item>, rest: seq<Item>, text: Filler)
    requires Calls(lead) && AllResults(run) && StartsNewTurn(rest)
    ensures FillIn([lead] + run + rest, text) ==
      [lead] + (run + Synthetic(lead.calls, Ids(run), text)) + FillIn(rest, text)
  {
    var items := [lead] + run + rest;
    assert items[1..] == run + rest;
    RunLenOf(run, rest);
    assert items[1..][..|run|] == run && items[1..][|run|..] == rest;
  }

  lemma FillTurn(lead: Item, run: seq<Item>, rest: seq<Item>, text: Filler)
    requires !lead.ToolResult? && AllResults(run) && StartsNewTurn(rest) && (Calls(lead) || run == [])
    ensures FillIn([lead] + run + rest, text) ==
      [lead] + (run + Synthetic(Expected(lead), Ids(run), text)) + FillIn(rest, text)
  {
    if Calls(lead) {
      FillOwnedTurn(lead, run, rest, text);
    } else {
      assert [lead] + run + rest == [lead] + rest && ([lead] + rest)[1..] == rest;
      assert run + Synthetic(Expected(lead), Ids(run), text) == [];
    }
  }

  lemma {:induction false} DedupStartsSame(items: seq<Item>)
    ensures StartsNewTurn(Dedup(items)) == StartsNewTurn(items)
    ensures StartsNewTurn(items) ==> StartsNewTurn(Strip(items))
  {
  }

  /** Dedup leaves a run without an owner alone. */
  lemma {:induction false} DedupLoose(run: seq<Item>, rest: seq<Item>)
    requires AllResults(run)
    ensures Dedup(run + rest) == run + Dedup(rest)
  {
    if run == [] {
      assert run + rest == rest;
    } else {
      assert (run + rest)[1..] == run[1..] + rest;
      DedupLoose(run[1..], rest);
    }
  }

  lemma DedupOwnedTurn(lead: Item, run: seq<Item>, rest: seq<Item>)
    requires Calls(lead) && AllResults(run) && StartsNewTurn(rest)
    ensures Dedup([lead] + run + rest) == [lead] + LastOfEach(run) + Dedup(rest)
  {
    var items := [lead] + run + rest;
    assert items[1..] == run + rest;
    RunLenOf(run, rest);
    assert items[1..][..|run|] == run && items[1..][|run|..] == rest;
  }

  lemma DedupTurn(lead: Item, run: seq<Item>, rest: seq<Item>)
    requires !lead.ToolResult? && AllResults(run) && StartsNewTurn(rest)
    ensures Dedup([lead] + run + rest) == [lead] + (if Calls(lead) then LastOfEach(run) else run) + Dedup(rest)
  {
    if Calls(lead) {
      DedupOwnedTurn(lead, run, rest);
    } else {
      assert ([lead] + run + rest)[1..] == run + rest;
      DedupLoose(run, rest);
    }
  }

  lemma RepairTurn(lead: Item, run: seq<Item>, rest: seq<Item>, text: Filler)
    requires !lead.ToolResult? && AllResults(run) && StartsNewTurn(rest)
    ensures Repair([lead] + run + rest, text) == [lead] + FixRun(lead, run, text) + Repair(rest, text)
  {
    var run' := if Calls(lead) then LastOfEach(run) else run;
    DedupTurn(lead, run, rest);
    DedupStartsSame(rest);
    DedupStartsSame(Dedup(rest));
    StripTurn(lead, run', Dedup(rest));
    if !Calls(lead) {
      assert CallIds(Expected(lead)) == {};
      AnswersNone(run);
      AnswersNone(LastOfEach(run));
    }
    FillTurn(lead, Answers(run', CallIds(Expected(lead))), Strip(Dedup(rest)), text);
  }

  /** The three passes together act on each turn separately. */
  lemma {:induction false} RepairIsTurnwise(items: seq<Item>, text: Filler)
    ensures Repair(items, text) == RepairTurns(items, text)
    decreases |items|
  {
    if items == [] {
    } else if items[0].ToolResult? {
      RepairIsTurnwise(items[1..], text);
      assert Dedup(items)[1..] == Dedup(items[1..]);
      assert Strip(Dedup(items)) == Strip(Dedup(items[1..]));
    } else {
      var n := RunLen(items[1..]);
      var run, rest := items[1..][..n], items[1..][n..];
      assert items == [items[0]] + run + rest;
      RepairIsTurnwise(rest, text);
      RepairTurn(items[0], run, rest, text);
    }
  }

  // ---------------------------------------------------------------- what the repair achieves

  /** Ids of the calls that a run leaves open, in call order. */
  function OpenIds(calls: seq<ToolCall>, answered: set<string>): seq<string> {
    if calls == [] then []
    else (if calls[0].id in answered then [] else [calls[0].id]) + OpenIds(calls[1..], answered)
  }

  /** No assistant leaves two calls with the same id open. */
  predicate NoAmbiguousCalls(items: seq<Item>)
    decreases |items|
  {
    if items == [] then true
    else
      var n := RunLen(items[1..]);
      Distinct(OpenIds(Expected(items[0]), Ids(items[1..][..n]))) && NoAmbiguousCalls(items[1..][n..])
  }

  /** The provider's rule for one turn: the results are exactly the calls', each once. */
  predicate ProperTurn(lead: Item, run: seq<Item>) {
    !lead.ToolResult? && Ids(run) == CallIds(Expected(lead)) && Distinct(RunIds(run))
  }

  predicate Proper(items: seq<Item>)
    decreases |items|
  {
    if items == [] then true
    else
      var n := RunLen(items[1..]);
      ProperTurn(items[0], items[1..][..n]) && Proper(items[1..][n..])
  }

  lemma {:induction false} SyntheticRunIds(calls: seq<ToolCall>, answered: set<string>, text: Filler)
    ensures RunIds(Synthetic(calls, answered, text)) == OpenIds(calls, answered)
  {
    if calls != [] {
      var rest := Synthetic(calls[1..], answered, text);
      SyntheticRunIds(calls[1..], answered, text);
      if calls[0].id in answered {
        assert Synthetic(calls, answered, text) == rest;
      } else {
        var x := ToolResult(calls[0].id, text(calls[0]), []);
        assert ([x] + rest)[1..] == rest;
        assert RunIds([x] + rest) == [x.callId] + RunIds(rest);
      }
    }
  }

  lemma {:induction false} OpenIdsAre(calls: seq<ToolCall>, answered: set<string>)
    ensures forall id :: id in OpenIds(calls, answered) <==> id in CallIds(calls) && id !in answered
  {
    if calls != [] {
      OpenIdsAre(calls[1..], answered);
      CallIdsStep(calls);
    }
  }

  lemma SyntheticIds(calls: seq<ToolCall>, answered: set<string>, text: Filler)
    ensures RunIds(Synthetic(calls, answered, text)) == OpenIds(calls, answered)
    ensures Ids(Synthetic(calls, answered, text)) == CallIds(calls) - answered
  {
    SyntheticRunIds(calls, answered, text);
    OpenIdsAre(calls, answered);
  }

  lemma CallIdsStep(calls: seq<ToolCall>)
    requires calls != []
    ensures CallIds(calls) == {calls[0].id} + CallIds(calls[1..])
  {
    forall id | id in CallIds(calls) ensures id in {calls[0].id} + CallIds(calls[1..]) {
      var k :| 0 <= k < |calls| && calls[k].id == id;
      assert k > 0 ==> calls[1..][k - 1] == calls[k];
    }
  }

  lemma {:induction false} LastOfEachDistinct(run: seq<Item>)
    requires AllResults(run)
    ensures Distinct(RunIds(LastOfEach(run)))
    ensures Distinct(RunIds(run)) ==> LastOfEach(run) == run
  {
    if run != [] {
      var rest := LastOfEach(run[1..]);
      LastOfEachDistinct(run[1..]);
      LastOfEachIds(run[1..]);
      IdsStep(run);
      assert RunIds(run)[1..] == RunIds(run[1..]);
      if run[0].callId in Ids(run[1..]) {
        assert LastOfEach(run) == rest;
      } else {
        assert ([run[0]] + rest)[1..] == rest;
        assert run[0].callId !in Ids(rest);
        assert RunIds([run[0]] + rest) == [run[0].callId] + RunIds(rest);
      }
    }
  }

  lemma {:induction false} AnswersKeep(run: seq<Item>, ids: set<string>)
    requires AllResults(run)
    ensures Distinct(RunIds(run)) ==> Distinct(RunIds(Answers(run, ids)))
    ensures Ids(run) <= ids ==> Answers(run, ids) == run
  {
    if run != [] {
      var rest := Answers(run[1..], ids);
      AnswersKeep(run[1..], ids);
      AnswersIds(run[1..], ids);
      IdsStep(run);
      assert RunIds(run)[1..] == RunIds(run[1..]);
      if run[0].callId in ids {
        assert ([run[0]] + rest)[1..] == rest;
        assert RunIds([run[0]] + rest) == [run[0].callId] + RunIds(rest);
        assert forall id :: id in RunIds(rest) ==> id in Ids(rest);
      } else {
        assert Answers(run, ids) == rest;
      }
    }
  }

  lemma {:induction false} OpenIdsCongruent(calls: seq<ToolCall>, a: set<string>, b: set<string>)
    requires forall c :: 0 <= c < |calls| ==> (calls[c].id in a <==> calls[c].id in b)
    ensures OpenIds(calls, a) == OpenIds(calls, b)
  {
    if calls != [] { OpenIdsCongruent(calls[1..], a, b); }
  }

  lemma KeptRun(run: seq<Item>, ids: set<string>)
    requires AllResults(run)
    ensures var kept := Answers(LastOfEach(run), ids);
      AllResults(kept) && Ids(kept) == Ids(run) * ids && Distinct(RunIds(kept))
  {
    LastOfEachIds(run);
    LastOfEachDistinct(run);
    AnswersIds(LastOfEach(run), ids);
    AnswersKeep(LastOfEach(run), ids);
  }

  lemma JoinRuns(a: seq<Item>, b: seq<Item>)
    requires Ids(a) !! Ids(b)
    ensures Ids(a + b) == Ids(a) + Ids(b)
    ensures Distinct(RunIds(a + b)) <==> Distinct(RunIds(a)) && Distinct(RunIds(b))
  {
    RunIdsConcat(a, b);
    assert forall id :: id in RunIds(a) ==> id in Ids(a);
    assert forall id :: id in RunIds(b) ==> id in Ids(b);
    DistinctConcat(RunIds(a), RunIds(b));
  }

  /** A repaired turn answers exactly the calls; each once, exactly when no two open calls of
      the turn share an id. */
  lemma FixRunIsProperIff(lead: Item, run: seq<Item>, text: Filler)
    requires !lead.ToolResult? && AllResults(run)
    ensures AllResults(FixRun(lead, run, text))
    ensures Ids(FixRun(lead, run, text)) == CallIds(Expected(lead))
    ensures Distinct(RunIds(FixRun(lead, run, text))) <==> Distinct(OpenIds(Expected(lead), Ids(run)))
  {
    var calls := Expected(lead);
    var kept := Answers(LastOfEach(run), CallIds(calls));
    KeptRun(run, CallIds(calls));
    SyntheticIds(calls, Ids(kept), text);
    JoinRuns(kept, Synthetic(calls, Ids(kept), text));
    OpenIdsCongruent(calls, Ids(kept), Ids(run));
  }

  lemma {:induction false} DistinctConcat(a: seq<string>, b: seq<string>)
    requires forall id :: id in a ==> id !in b
    ensures Distinct(a + b) <==> Distinct(a) && Distinct(b)
  {
    if a == [] {
      assert a + b == b;
    } else {
      assert (a + b)[1..] == a[1..] + b;
      DistinctConcat(a[1..], b);
    }
  }

  lemma {:induction false} SyntheticNone(calls: seq<ToolCall>, answered: set<string>, text: Filler)
    requires CallIds(calls) <= answered
    ensures Synthetic(calls, answered, text) == []
  {
    if calls != [] {
      CallIdsStep(calls);
      SyntheticNone(calls[1..], answered, text);
    }
  }

  /** A turn whose results cover its calls is left alone exactly when no id is answered twice. */
  lemma FixedPointIff(lead: Item, run: seq<Item>, text: Filler)
    requires !lead.ToolResult? && AllResults(run) && Ids(run) == CallIds(Expected(lead))
    ensures FixRun(lead, run, text) == run <==> Distinct(RunIds(run))
  {
    LastOfEachIds(run);
    LastOfEachDistinct(run);
    AnswersKeep(LastOfEach(run), Ids(run));
    SyntheticNone(Expected(lead), Ids(run), text);
  }

  lemma {:induction false} RepairStartsTurn(items: seq<Item>, text: Filler)
    ensures StartsNewTurn(RepairTurns(items, text))
    decreases |items|
  {
    if items != [] && items[0].ToolResult? {
      RepairStartsTurn(items[1..], text);
    }
  }

  /** The first turn of a list, taken apart and put together. */
  lemma SplitTurn(lead: Item, run: seq<Item>, rest: seq<Item>)
    requires AllResults(run) && StartsNewTurn(rest)
    ensures var items := [lead] + run + rest;
      RunLen(items[1..]) == |run| && items[1..][..|run|] == run && items[1..][|run|..] == rest
  {
    var items := [lead] + run + rest;
    assert items[1..] == run + rest;
    RunLenOf(run, rest);
  }

  /** Repairing again changes nothing, and the repaired history meets the provider's rule,
      exactly when no assistant leaves two calls with one id open. */
  lemma {:induction false} RepairIdempotentIff(items: seq<Item>, text: Filler)
    ensures var r := RepairTurns(items, text);
      && (RepairTurns(r, text) == r <==> NoAmbiguousCalls(items))
      && (Proper(r) <==> NoAmbiguousCalls(items))
    decreases |items|
  {
    if items == [] {
    } else if items[0].ToolResult? {
      RepairIdempotentIff(items[1..], text);
      LeadingResultsDoNotMatter(items);
    } else {
      var lead, n := items[0], RunLen(items[1..]);
      var run, rest := items[1..][..n], items[1..][n..];
      var fixedRun, fixedRest := FixRun(lead, run, text), RepairTurns(rest, text);
      RepairIdempotentIff(rest, text);
      FixRunIsProperIff(lead, run, text);
      FixedPointIff(lead, fixedRun, text);
      RepairStartsTurn(rest, text);
      SplitTurn(lead, fixedRun, fixedRest);
      var r := [lead] + fixedRun + fixedRest;
      assert RepairTurns(r, text) == [lead] + FixRun(lead, fixedRun, text) + RepairTurns(fixedRest, text);
      FixRunIsProperIff(lead, fixedRun, text);
      RepairStartsTurn(fixedRest, text);
      SplitTurn(lead, FixRun(lead, fixedRun, text), RepairTurns(fixedRest, text));
    }
  }

  lemma LeadingResultsDoNotMatter(items: seq<Item>)
    requires items != [] && items[0].ToolResult?
    ensures NoAmbiguousCalls(items) <==> NoAmbiguousCalls(items[1..])
  {
    var n := RunLen(items[1..]);
    assert Expected(items[0]) == [];
    DropLeading(items[1..], n);
  }

  lemma {:induction false} DropLeading(items: seq<Item>, n: nat)
    requires n <= |items| && AllResults(items[..n])
    ensures NoAmbiguousCalls(items[n..]) <==> NoAmbiguousCalls(items)
    decreases |items|
  {
    if n > 0 {
      assert items[0] == items[..n][0];
      var m := RunLen(items[1..]);
      assert n - 1 <= m by { RunCovers(items[1..], n - 1); }
      assert items[1..][m..] == items[n..][m - (n - 1)..];
      assert AllResults(items[n..][..m - (n - 1)]) by {
        assert forall k :: 0 <= k < m - (n - 1) ==> items[n..][k] == items[1..][..m][n - 1 + k];
      }
      DropLeading(items[n..], m - (n - 1));
    } else {
      assert items[0..] == items;
    }
  }

  lemma {:induction false} RunCovers(items: seq<Item>, n: nat)
    requires n <= |items| && forall k :: 0 <= k < n ==> items[k].ToolResult?
    ensures n <= RunLen(items)
  {
  }

  /** The documented idempotence of the repair holds exactly for histories in which no
      assistant leaves two calls with the same id open; for those the result meets the
      provider's rule: every turn's results are exactly its calls', each once. */
  lemma RepairHistoryIdempotentIff(items: seq<Item>, text: Filler)
    ensures Repair(Repair(items, text), text) == Repair(items, text) <==> NoAmbiguousCalls(items)
    ensures Proper(Repair(items, text)) <==> NoAmbiguousCalls(items)
  {
    RepairIsTurnwise(items, text);
    RepairIsTurnwise(Repair(items, text), text);
    RepairIdempotentIff(items, text);
  }

  /** A history on which the repair is not idempotent: one assistant, two open calls, one id. */
  lemma RepairIsNotAlwaysIdempotent(text: Filler) returns (items: seq<Item>)
    ensures |items| == 1 && Repair(Repair(items, text), text) != Repair(items, text)
  {
    var calls := [ToolCall("x", "read_file", "{}"), ToolCall("x", "grep", "{}")];
    items := [Assistant("", calls, "")];
    var run := items[1..][..RunLen(items[1..])];
    assert run == [] && Ids(run) == {};
    assert calls[1..][0] == calls[1] && calls[1..][1..] == [];
    assert OpenIds(calls[1..], {}) == ["x"];
    assert OpenIds(calls, {}) == ["x"] + ["x"];
    assert !Distinct(OpenIds(calls, Ids(run)));
    RepairHistoryIdempotentIff(items, text);
  }

  lemma {:induction false} RunNotDisplaced(run: seq<Item>, rest: seq<Item>, ids: set<string>)
    requires AllResults(run) && StartsNewTurn(rest) && Ids(run) <= ids
    ensures DisplacedFrom(run + rest, ids) == DisplacedFrom(rest, {})
  {
    if run == [] {
      assert run + rest == rest;
    } else {
      assert (run + rest)[1..] == run[1..] + rest;
      IdsStep(run);
      RunNotDisplaced(run[1..], rest, ids);
    }
  }

  lemma TurnNotDisplaced(lead: Item, run: seq<Item>, rest: seq<Item>)
    requires !lead.ToolResult? && AllResults(run) && StartsNewTurn(rest) && Ids(run) == CallIds(Expected(lead))
    ensures DisplacedFrom([lead] + run + rest, {}) == DisplacedFrom(rest, {})
  {
    RunNotDisplaced(run, rest, CallIds(Expected(lead)));
    assert ([lead] + run + rest)[1..] == run + rest;
    assert NextRun({}, lead) == CallIds(Expected(lead));
  }

  lemma {:induction false} RepairedHasNoneDisplaced(items: seq<Item>, text: Filler)
    ensures DisplacedFrom(RepairTurns(items, text), {}) == []
    decreases |items|
  {
    if items == [] {
    } else if items[0].ToolResult? {
      RepairedHasNoneDisplaced(items[1..], text);
    } else {
      var n := RunLen(items[1..]);
      var run, rest := items[1..][..n], items[1..][n..];
      RepairedHasNoneDisplaced(rest, text);
      FixRunIsProperIff(items[0], run, text);
      RepairStartsTurn(rest, text);
      TurnNotDisplaced(items[0], FixRun(items[0], run, text), RepairTurns(rest, text));
    }
  }

  lemma RunAnswers(lead: Item, run: seq<Item>, rest: seq<Item>, id: string) returns (i: nat)
    requires AllResults(run) && Declares(lead, id) && id in Ids(run)
    ensures var s := [lead] + run + rest;
      0 < i < |s| && AnsweredBy(s, i, 0) && s[i].callId == id
  {
    var k := IndexOfId(run, id);
    i := k + 1;
  }

  lemma {:induction false} IndexOfId(run: seq<Item>, id: string) returns (k: nat)
    requires AllResults(run) && id in Ids(run)
    ensures k < |run| && run[k].callId == id
  {
    IdsStep(run);
    if run[0].callId == id {
      k := 0;
    } else {
      var j := IndexOfId(run[1..], id);
      k := j + 1;
    }
  }

  lemma BeyondRun(lead: Item, run: seq<Item>, rest: seq<Item>, a: nat)
    requires AllResults(run) && 0 < a < |[lead] + run + rest|
    ensures ([lead] + run + rest)[a].ToolResult? ||
      (a >= |[lead] + run| && ([lead] + run + rest)[a] == rest[a - |[lead] + run|])
  {
    if a < |[lead] + run| {
      assert ([lead] + run + rest)[a] == run[a - 1];
    }
  }

  lemma ShiftAnswer(pre: seq<Item>, s: seq<Item>, i: nat, a: nat)
    requires a < i < |s| && AnsweredBy(s, i, a)
    ensures AnsweredBy(pre + s, i + |pre|, a + |pre|)
  {
    var t := pre + s;
    assert forall k :: |pre| <= k < |t| ==> t[k] == s[k - |pre|];
  }

  /** Some result in the run right after position `a` answers the id. */
  predicate AnsweredAt(items: seq<Item>, a: nat, id: string)
    requires a < |items|
  {
    exists i :: a < i < |items| && AnsweredBy(items, i, a) && items[i].callId == id
  }

  ghost predicate EveryCallAnswered(items: seq<Item>) {
    forall a, id :: 0 <= a < |items| && Declares(items[a], id) ==> AnsweredAt(items, a, id)
  }

  lemma TurnAnswered(lead: Item, run: seq<Item>, rest: seq<Item>, a: nat, id: string)
    requires AllResults(run) && Ids(run) == CallIds(Expected(lead)) && EveryCallAnswered(rest)
    requires a < |[lead] + run + rest| && Declares(([lead] + run + rest)[a], id)
    ensures AnsweredAt([lead] + run + rest, a, id)
  {
    if a == 0 {
      var i := RunAnswers(lead, run, rest, id);
    } else {
      BeyondRun(lead, run, rest, a);
      var turn := [lead] + run;
      assert AnsweredAt(rest, a - |turn|, id);
      var j :| a - |turn| < j < |rest| && AnsweredBy(rest, j, a - |turn|) && rest[j].callId == id;
      ShiftAnswer(turn, rest, j, a - |turn|);
      assert AnsweredBy(turn + rest, j + |turn|, a) && (turn + rest)[j + |turn|].callId == id;
    }
  }

  /** Whatever the input, every call of every assistant in the repaired history is answered in
      the run right after it. */
  lemma {:induction false} RepairAnswersEveryCall(items: seq<Item>, text: Filler)
    ensures EveryCallAnswered(RepairTurns(items, text))
    decreases |items|
  {
    if items == [] {
    } else if items[0].ToolResult? {
      RepairAnswersEveryCall(items[1..], text);
    } else {
      var n := RunLen(items[1..]);
      var fixedRun, rest := FixRun(items[0], items[1..][..n], text), items[1..][n..];
      RepairAnswersEveryCall(rest, text);
      FixRunIsProperIff(items[0], items[1..][..n], text);
      var r := [items[0]] + fixedRun + RepairTurns(rest, text);
      forall a, id | 0 <= a < |r| && Declares(r[a], id) ensures AnsweredAt(r, a, id) {
        TurnAnswered(items[0], fixedRun, RepairTurns(rest, text), a, id);
      }
    }
  }

  /** Both halves of the provider's rule hold of every repaired history. */
  lemma RepairedHistoryIsAnsweredAndPaired(items: seq<Item>, text: Filler)
    ensures Paired(Repair(items, text)) && EveryCallAnswered(Repair(items, text))
  {
    RepairIsTurnwise(items, text);
    RepairedHasNoneDisplaced(items, text);
    PairedIffNothingDisplaced(RepairTurns(items, text));
    RepairAnswersEveryCall(items, text);
  }

  // ---------------------------------------------------------------- the loops of the program

  /** The result at `j` is answered again before position `i`. */
  predicate Superseded(run: seq<Item>, j: nat, i: nat)
    requires i <= |run| && AllResults(run)
  {
    exists k :: j < k < i && run[k].callId == run[j].callId
  }

  lemma SupersededStep(run: seq<Item>, j: nat, i: nat)
    requires j <= i < |run| && AllResults(run)
    ensures Superseded(run, j, i + 1) <==> Superseded(run, j, i) || (j < i && run[i].callId == run[j].callId)
  {
  }

  /** The superseded positions, by the map of last positions. */
  method SupersededPositions(run: seq<Item>) returns (toRemove: set<nat>)
    requires AllResults(run)
    ensures forall j: nat :: j in toRemove <==> j < |run| && Superseded(run, j, |run|)
  {
    var seen: map<string, nat> := map[];
    toRemove := {};
    for i := 0 to |run|
      invariant forall j: nat :: j < i ==> run[j].callId in seen
      invariant forall id :: id in seen ==> seen[id] < i && run[seen[id]].callId == id && !Superseded(run, seen[id], i)
      invariant forall j: nat :: j < i && !Superseded(run, j, i) ==> seen[run[j].callId] == j
      invariant forall j: nat :: j in toRemove <==> j < i && Superseded(run, j, i)
    {
      var id := run[i].callId;
      forall j: nat | j <= i
        ensures Superseded(run, j, i + 1) <==> Superseded(run, j, i) || (j < i && run[i].callId == run[j].callId)
      {
        SupersededStep(run, j, i);
      }
      if id in seen {
        toRemove := toRemove + {seen[id]};
      }
      seen := seen[id := i];
    }
  }

  method RemoveSuperseded(run: seq<Item>) returns (kept: seq<Item>)
    requires AllResults(run)
    ensures kept == LastOfEach(run)
  {
    var toRemove := SupersededPositions(run);
    kept := [];
    var i := |run|;
    assert run[|run|..] == [];
    while i > 0
      invariant 0 <= i <= |run| && kept == LastOfEach(run[i..])
    {
      i := i - 1;
      assert run[i..][1..] == run[i + 1..];
      IdsAt(run, i);
      if i !in toRemove {
        kept := [run[i]] + kept;
      }
    }
    assert run[0..] == run;
  }

  lemma {:induction false} IdsAt(run: seq<Item>, i: nat)
    requires i < |run| && AllResults(run)
    ensures run[i].callId in Ids(run[i + 1..]) <==> Superseded(run, i, |run|)
  {
    var rest := run[i + 1..];
    if run[i].callId in Ids(rest) {
      var k := IndexOfId(rest, run[i].callId);
      assert run[k + i + 1].callId == run[i].callId;
    }
    if Superseded(run, i, |run|) {
      var k :| i < k < |run| && run[k].callId == run[i].callId;
      IdInIds(rest, k - i - 1);
    }
  }

  lemma {:induction false} IdInIds(run: seq<Item>, k: nat)
    requires k < |run| && AllResults(run)
    ensures run[k].callId in Ids(run)
  {
    IdsStep(run);
    if k > 0 {
      assert run[k] == run[1..][k - 1];
      IdInIds(run[1..], k - 1);
    }
  }

  /** `items[i..end]` is an assistant with calls and the whole run after it. */
  predicate OwnedTurn(items: seq<Item>, i: nat, end: nat) {
    && i < end <= |items| && Calls(items[i])
    && AllResults(items[i + 1..end]) && StartsNewTurn(items[end..])
  }

  lemma SplitOwnedTurn(items: seq<Item>, i: nat, end: nat)
    requires OwnedTurn(items, i, end)
    ensures items[i..] == [items[i]] + items[i + 1..end] + items[end..]
    ensures items[..end] == items[..i] + [items[i]] + items[i + 1..end]
  {
  }

  lemma LastOfEachTwice(run: seq<Item>)
    requires AllResults(run)
    ensures LastOfEach(LastOfEach(run)) == LastOfEach(run)
  {
    LastOfEachDistinct(run);
    LastOfEachDistinct(LastOfEach(run));
  }

  lemma Rescan(items: seq<Item>, i: nat, end: nat)
    requires OwnedTurn(items, i, end)
    ensures var next := items[..i + 1] + LastOfEach(items[i + 1..end]) + items[end..];
      next[..i] + Dedup(next[i..]) == items[..i] + Dedup(items[i..])
  {
    var run, rest := items[i + 1..end], items[end..];
    var next := items[..i + 1] + LastOfEach(run) + rest;
    SplitOwnedTurn(items, i, end);
    assert next[..i] == items[..i] && next[i..] == [items[i]] + LastOfEach(run) + rest;
    DedupOwnedTurn(items[i], run, rest);
    LastOfEachTwice(run);
    DedupOwnedTurn(items[i], LastOfEach(run), rest);
  }

  lemma Advance(items: seq<Item>, i: nat, end: nat)
    requires OwnedTurn(items, i, end) && |LastOfEach(items[i + 1..end])| == |items[i + 1..end]|
    ensures items[..end] + Dedup(items[end..]) == items[..i] + Dedup(items[i..])
  {
    SplitOwnedTurn(items, i, end);
    DedupOwnedTurn(items[i], items[i + 1..end], items[end..]);
    SameLengthSame(items[i + 1..end]);
    Regroup4(items[..i], [items[i]], items[i + 1..end], Dedup(items[end..]));
  }

  lemma Regroup4(a: seq<Item>, b: seq<Item>, c: seq<Item>, d: seq<Item>)
    ensures (a + b + c) + d == a + (b + c + d)
  {
  }

  lemma AdvanceOther(items: seq<Item>, i: nat)
    requires i < |items| && !Calls(items[i])
    ensures items[..i + 1] + Dedup(items[i + 1..]) == items[..i] + Dedup(items[i..])
  {
    assert items[i..][1..] == items[i + 1..];
    assert items[..i + 1] == items[..i] + [items[i]];
  }

  method RunEnd(items: seq<Item>, start: nat) returns (end: nat)
    requires start <= |items|
    ensures start <= end <= |items| && AllResults(items[start..end]) && StartsNewTurn(items[end..])
  {
    end := start;
    while end < |items| && items[end].ToolResult?
      invariant start <= end <= |items| && AllResults(items[start..end])
    {
      assert items[start..end + 1] == items[start..end] + [items[end]];
      end := end + 1;
    }
  }

  /** A run that was changed is scanned again from its assistant. */
  method DedupDuplicateToolResults(items: seq<Item>) returns (conversation: seq<Item>, removed: nat)
    ensures conversation == Dedup(items) && removed == |items| - |Dedup(items)|
  {
    conversation, removed := items, 0;
    var i := 0;
    while i < |conversation|
      invariant 0 <= i <= |conversation| && |conversation| + removed == |items|
      invariant Dedup(items) == conversation[..i] + Dedup(conversation[i..])
      decreases |conversation| - i
    {
      if Calls(conversation[i]) {
        var end := RunEnd(conversation, i + 1);
        var run := conversation[i + 1..end];
        var kept := RemoveSuperseded(run);
        if |kept| < |run| {
          Rescan(conversation, i, end);
          conversation := conversation[..i + 1] + kept + conversation[end..];
          removed := removed + |run| - |kept|;
        } else {
          Advance(conversation, i, end);
          i := end;
        }
      } else {
        AdvanceOther(conversation, i);
        i := i + 1;
      }
    }
  }

  lemma {:induction false} SameLengthSame(run: seq<Item>)
    ensures |LastOfEach(run)| == |run| ==> LastOfEach(run) == run
  {
    if run != [] { SameLengthSame(run[1..]); }
  }

  // ---- splicing the synthetic results in, last position first

  datatype Repairs = Repairs(at: nat, results: seq<Item>)

  function Splice(items: seq<Item>, repairs: seq<Repairs>): seq<Item>
    requires forall k :: 0 <= k < |repairs| ==> repairs[k].at <= |items|
    decreases |repairs|
  {
    if repairs == [] then items
    else
      var last := repairs[|repairs| - 1];
      Splice(items[..last.at] + last.results + items[last.at..], repairs[..|repairs| - 1])
  }

  /** Splicing into a prefix leaves what follows it. */
  lemma {:induction false} SplicePrefix(p: seq<Item>, t: seq<Item>, repairs: seq<Repairs>)
    requires forall k :: 0 <= k < |repairs| ==> repairs[k].at <= |p|
    ensures Splice(p + t, repairs) == Splice(p, repairs) + t
    decreases |repairs|
  {
    if repairs != [] {
      var last := repairs[|repairs| - 1];
      var p' := p[..last.at] + last.results + p[last.at..];
      assert (p + t)[..last.at] + last.results + (p + t)[last.at..] == p' + t;
      SplicePrefix(p', t, repairs[..|repairs| - 1]);
    }
  }

  predicate Within(repairs: seq<Repairs>, n: nat) { forall k :: 0 <= k < |repairs| ==> repairs[k].at <= n }

  /** One more turn planned: its synthetic results go right after its run. */
  lemma PlanTurn(before: seq<Item>, lead: Item, run: seq<Item>, repairs: seq<Repairs>, synthetic: seq<Item>)
    requires Within(repairs, |before|)
    ensures var p := before + [lead] + run;
      && Splice(p + synthetic, repairs) == Splice(before, repairs) + ([lead] + (run + synthetic))
      && Splice(p, repairs + [Repairs(|p|, synthetic)]) == Splice(p + synthetic, repairs)
  {
    var p := before + [lead] + run;
    assert p + synthetic == before + ([lead] + (run + synthetic));
    SplicePrefix(before, [lead] + (run + synthetic), repairs);
    SpliceOneMore(p, repairs, synthetic);
  }

  lemma PlanOwnedTurn(items: seq<Item>, i: nat, j: nat, repairs: seq<Repairs>, text: Filler)
    requires OwnedTurn(items, i, j) && Within(repairs, i)
    ensures var synthetic := Synthetic(items[i].calls, Ids(items[i + 1..j]), text);
      var repairs' := if synthetic == [] then repairs else repairs + [Repairs(j, synthetic)];
      && Within(repairs', j)
      && Splice(items[..j], repairs') + FillIn(items[j..], text) == Splice(items[..i], repairs) + FillIn(items[i..], text)
  {
    var run := items[i + 1..j];
    var synthetic := Synthetic(items[i].calls, Ids(run), text);
    SplitOwnedTurn(items, i, j);
    FillOwnedTurn(items[i], run, items[j..], text);
    PlanTurn(items[..i], items[i], run, repairs, synthetic);
    assert synthetic == [] ==> items[..j] + synthetic == items[..j];
    Regroup(Splice(items[..i], repairs), [items[i]] + (run + synthetic), FillIn(items[j..], text));
  }

  lemma PlanOther(items: seq<Item>, i: nat, repairs: seq<Repairs>, text: Filler)
    requires i < |items| && !Calls(items[i]) && Within(repairs, i)
    ensures Splice(items[..i + 1], repairs) + FillIn(items[i + 1..], text) == Splice(items[..i], repairs) + FillIn(items[i..], text)
  {
    assert items[i..][1..] == items[i + 1..];
    SplicePrefix(items[..i], [items[i]], repairs);
    assert items[..i + 1] == items[..i] + [items[i]];
    assert FillIn(items[i..], text) == [items[i]] + FillIn(items[i + 1..], text);
    Regroup(Splice(items[..i], repairs), [items[i]], FillIn(items[i + 1..], text));
  }

  /** Phase one: where results are missing, and which. */
  method PlanRepairs(items: seq<Item>, text: Filler) returns (repairs: seq<Repairs>)
    ensures Within(repairs, |items|) && Splice(items, repairs) == FillIn(items, text)
  {
    repairs := [];
    var i := 0;
    assert items[0..] == items && items[..0] == [];
    while i < |items|
      invariant 0 <= i <= |items| && Within(repairs, i)
      invariant FillIn(items, text) == Splice(items[..i], repairs) + FillIn(items[i..], text)
    {
      if Calls(items[i]) {
        var j := RunEnd(items, i + 1);
        var synthetic := Synthetic(items[i].calls, Ids(items[i + 1..j]), text);
        PlanOwnedTurn(items, i, j, repairs, text);
        if synthetic != [] {
          repairs := repairs + [Repairs(j, synthetic)];
        }
        i := j;
      } else {
        PlanOther(items, i, repairs, text);
        i := i + 1;
      }
    }
    assert items[..|items|] == items;
  }

  /** Phase two: splice from the back, so that earlier positions stay valid. */
  method RepairDanglingToolCalls(items: seq<Item>, text: Filler) returns (conversation: seq<Item>, total: nat)
    ensures conversation == FillIn(items, text) && total == |FillIn(items, text)| - |items|
  {
    var repairs := PlanRepairs(items, text);
    conversation, total := items, 0;
    while repairs != []
      invariant Within(repairs, |items|) && |conversation| == |items| + total
      invariant Splice(conversation, repairs) == FillIn(items, text)
      decreases |repairs|
    {
      var last := repairs[|repairs| - 1];
      conversation := conversation[..last.at] + last.results + conversation[last.at..];
      total := total + |last.results|;
      repairs := repairs[..|repairs| - 1];
    }
  }

  lemma SpliceOneMore(p: seq<Item>, repairs: seq<Repairs>, results: seq<Item>)
    requires forall k :: 0 <= k < |repairs| ==> repairs[k].at <= |p|
    ensures Splice(p, repairs + [Repairs(|p|, results)]) == Splice(p + results, repairs)
  {
    assert p[..|p|] + results + p[|p|..] == p + results;
    assert (repairs + [Repairs(|p|, results)])[..|repairs|] == repairs;
  }

  method RepairHistory(items: seq<Item>, text: Filler)
    returns (r: seq<Item>, duplicatesRemoved: nat, strippedIds: seq<string>, inserted: nat)
    ensures r == Repair(items, text) && strippedIds == DisplacedFrom(Dedup(items), {})
    ensures duplicatesRemoved == |items| - |Dedup(items)| && inserted == |r| - |Strip(Dedup(items))|
  {
    var deduped, stripped;
    deduped, duplicatesRemoved := DedupDuplicateToolResults(items);
    stripped, strippedIds := StripDisplacedToolResults(deduped);
    r, inserted := RepairDanglingToolCalls(stripped, text);
  }
}
