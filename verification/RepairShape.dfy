/** What a repaired turn is made of: the results that stay, and those made for open calls. */
module RepairShape {
  import opened Bytes
  import opened Conversation
  import opened HistoryRepair

  // ---------------------------------------------------------------- the results that stay

  predicate AnsweredLater(run: seq<Item>, i: nat)
    requires i < |run| && AllResults(run)
  {
    exists j :: i < j < |run| && run[j].callId == run[i].callId
  }

  lemma AnsweredLaterShift(run: seq<Item>, i: nat)
    requires i + 1 < |run| && AllResults(run)
    ensures AllResults(run[1..]) && (AnsweredLater(run, i + 1) <==> AnsweredLater(run[1..], i))
  {
    if AnsweredLater(run, i + 1) {
      var j :| i + 1 < j < |run| && run[j].callId == run[i + 1].callId;
      assert run[1..][j - 1].callId == run[1..][i].callId;
    }
    if AnsweredLater(run[1..], i) {
      var j :| i < j < |run[1..]| && run[1..][j].callId == run[1..][i].callId;
      assert run[j + 1].callId == run[i + 1].callId;
    }
  }

  /** Of the results with one id the last stays. */
  lemma {:induction false} LastOfEachKeeps(run: seq<Item>) returns (places: seq<nat>)
    requires AllResults(run)
    ensures KeptAt(LastOfEach(run), run, places)
    ensures forall i :: 0 <= i < |run| ==> (i in places <==> !AnsweredLater(run, i))
  {
    if run == [] {
      places := [];
    } else {
      var x, rest := run[0], run[1..];
      assert run == [x] + rest;
      var inner := LastOfEachKeeps(rest);
      IdsAt(run, 0);
      places := KeptWithHead(x, x.callId !in Ids(rest), LastOfEach(rest), rest, inner);
      forall i | 1 <= i < |run| ensures i in places <==> !AnsweredLater(run, i) { AnsweredLaterShift(run, i - 1); }
    }
  }

  lemma {:induction false} AnswersKeeps(run: seq<Item>, ids: set<string>) returns (places: seq<nat>)
    requires AllResults(run)
    ensures KeptAt(Answers(run, ids), run, places)
    ensures forall i :: 0 <= i < |run| ==> (i in places <==> run[i].callId in ids)
  {
    if run == [] {
      places := [];
    } else {
      var x, rest := run[0], run[1..];
      assert run == [x] + rest;
      var inner := AnswersKeeps(rest, ids);
      places := KeptWithHead(x, x.callId in ids, Answers(rest, ids), rest, inner);
    }
  }

  /** Kept of what was kept. */
  lemma KeptTwice<T>(a: seq<T>, b: seq<T>, c: seq<T>, p: seq<nat>, q: seq<nat>) returns (places: seq<nat>)
    requires KeptAt(a, b, p) && KeptAt(b, c, q)
    ensures KeptAt(a, c, places)
    ensures forall i :: i in places <==> exists k :: 0 <= k < |q| && q[k] == i && k in p
  {
    places := seq(|p|, k requires 0 <= k < |p| => q[p[k]]);
    forall i ensures i in places <==> exists k :: 0 <= k < |q| && q[k] == i && k in p {
      if i in places {
        var k :| 0 <= k < |places| && places[k] == i;
        assert q[p[k]] == i && p[k] in p;
      }
      if exists k :: 0 <= k < |q| && q[k] == i && k in p {
        var k :| 0 <= k < |q| && q[k] == i && k in p;
        var j :| 0 <= j < |p| && p[j] == k;
        assert places[j] == i;
      }
    }
  }

  /** Of the results after an assistant, those stay that it called for, the last with each id. */
  lemma StayingResults(run: seq<Item>, ids: set<string>) returns (places: seq<nat>)
    requires AllResults(run)
    ensures KeptAt(Answers(LastOfEach(run), ids), run, places)
    ensures forall i :: 0 <= i < |run| ==> (i in places <==> run[i].callId in ids && !AnsweredLater(run, i))
  {
    var q := LastOfEachKeeps(run);
    var p := AnswersKeeps(LastOfEach(run), ids);
    places := KeptTwice(Answers(LastOfEach(run), ids), LastOfEach(run), run, p, q);
  }

  // ---------------------------------------------------------------- the results that are made

  /** One result for each call at the places, with its text. */
  predicate MadeFor(made: seq<Item>, calls: seq<ToolCall>, places: seq<nat>, text: Filler) {
    && Increasing(places, 0, |calls|) && |made| == |places|
    && forall k :: 0 <= k < |places| ==> made[k] == ToolResult(calls[places[k]].id, text(calls[places[k]]), [])
  }

  lemma MadeWithHead(call: ToolCall, open: bool, made: seq<Item>, rest: seq<ToolCall>, places: seq<nat>, text: Filler)
    returns (more: seq<nat>)
    requires MadeFor(made, rest, places, text)
    ensures MadeFor((if open then [ToolResult(call.id, text(call), [])] else []) + made, [call] + rest, more, text)
    ensures (0 in more <==> open) && forall i :: 0 <= i < |rest| ==> (i + 1 in more <==> i in places)
  {
    more := (if open then [0] else []) + Shifted(places);
    forall i: nat ensures i in Shifted(places) <==> i > 0 && i - 1 in places { ShiftedHas(places, i); }
  }

  lemma {:induction false} SyntheticMade(calls: seq<ToolCall>, answered: set<string>, text: Filler) returns (places: seq<nat>)
    ensures MadeFor(Synthetic(calls, answered, text), calls, places, text)
    ensures forall i :: 0 <= i < |calls| ==> (i in places <==> calls[i].id !in answered)
  {
    if calls == [] {
      places := [];
    } else {
      var call, rest := calls[0], calls[1..];
      assert calls == [call] + rest;
      var inner := SyntheticMade(rest, answered, text);
      places := MadeWithHead(call, call.id !in answered, Synthetic(rest, answered, text), rest, inner, text);
    }
  }

  // ---------------------------------------------------------------- the repaired history

  function CallsOf(lead: Item): seq<ToolCall> { if lead.Assistant? then lead.calls else [] }

  /** No result in the run has the id. */
  predicate Open(run: seq<Item>, id: string)
    requires AllResults(run)
  {
    forall j :: 0 <= j < |run| ==> run[j].callId != id
  }

  lemma {:induction false} AnsweredIds(run: seq<Item>, ids: set<string>, id: string)
    requires AllResults(run) && id in ids
    ensures id in Ids(Answers(LastOfEach(run), ids)) <==> !Open(run, id)
  {
    LastOfEachIds(run);
    AnswersIds(LastOfEach(run), ids);
    if id in Ids(run) {
      var k := IndexOfId(run, id);
    }
    if !Open(run, id) {
      var j :| 0 <= j < |run| && run[j].callId == id;
      IdInIds(run, j);
    }
  }

  /** A repaired turn: its leading item, the last result with each id that it called for, and a
      made result for each call without any. */
  lemma RepairedTurnIs(lead: Item, run: seq<Item>, rest: seq<Item>, text: Filler)
    returns (kept: seq<Item>, places: seq<nat>, made: seq<Item>, open: seq<nat>)
    requires !lead.ToolResult? && AllResults(run) && StartsNewTurn(rest)
    ensures Repair([lead] + run + rest, text) == [lead] + (kept + made) + Repair(rest, text)
    ensures KeptAt(kept, run, places) && MadeFor(made, CallsOf(lead), open, text)
    ensures forall i :: 0 <= i < |run| ==> (i in places <==> Declares(lead, run[i].callId) && !AnsweredLater(run, i))
    ensures forall i :: 0 <= i < |CallsOf(lead)| ==> (i in open <==> Open(run, CallsOf(lead)[i].id))
  {
    var ids := CallIds(Expected(lead));
    kept := Answers(LastOfEach(run), ids);
    made := Synthetic(Expected(lead), Ids(kept), text);
    RepairTurn(lead, run, rest, text);
    places := StayingResults(run, ids);
    open := SyntheticMade(Expected(lead), Ids(kept), text);
    forall i | 0 <= i < |Expected(lead)| ensures i in open <==> Open(run, Expected(lead)[i].id) {
      AnsweredIds(run, ids, Expected(lead)[i].id);
    }
  }

  /** Results that follow nothing are dropped. */
  lemma {:induction false} LeadingResultsAreDropped(run: seq<Item>, rest: seq<Item>, text: Filler)
    requires AllResults(run)
    ensures Repair(run + rest, text) == Repair(rest, text)
  {
    if run == [] {
      assert run + rest == rest;
    } else {
      assert (run + rest)[1..] == run[1..] + rest && (run + rest)[0] == run[0];
      RepairIsTurnwise(run + rest, text);
      RepairIsTurnwise(run[1..] + rest, text);
      LeadingResultsAreDropped(run[1..], rest, text);
    }
  }
}
