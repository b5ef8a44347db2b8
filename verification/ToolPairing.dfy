/** The passes that keep tool calls and tool results paired: validation, sanitising, and the
    stripping of displaced results. */
module ToolPairing {
  import opened Bytes
  import opened Conversation

  /** `a` can be obtained from `b` by dropping items. */
  predicate Subsequence<T(==)>(a: seq<T>, b: seq<T>)
    decreases |b|
  {
    if b == [] then a == []
    else Subsequence(a, b[1..]) || (a != [] && a[0] == b[0] && Subsequence(a[1..], b[1..]))
  }

  // ---------------------------------------------------------------- validate and sanitise

  /** An assistant before position `i` declares the id. */
  predicate DeclaredBefore(items: seq<Item>, i: nat, id: string)
    requires i <= |items|
  {
    exists a :: 0 <= a < i && Declares(items[a], id)
  }

  function Learn(seen: set<string>, item: Item): set<string> {
    if item.Assistant? then seen + CallIds(item.calls) else seen
  }

  predicate Orphan(seen: set<string>, item: Item) { item.ToolResult? && item.callId !in seen }

  function ValidateFrom(items: seq<Item>, seen: set<string>): seq<string> {
    if items == [] then []
    else (if Orphan(seen, items[0]) then [items[0].callId] else []) + ValidateFrom(items[1..], Learn(seen, items[0]))
  }

  /** Ids of results with no earlier assistant that declares them. */
  function Validate(items: seq<Item>): seq<string> { ValidateFrom(items, {}) }

  function SanitizeFrom(items: seq<Item>, seen: set<string>): seq<Item> {
    if items == [] then []
    else (if Orphan(seen, items[0]) then [] else [items[0]]) + SanitizeFrom(items[1..], Learn(seen, items[0]))
  }

  function Sanitize(items: seq<Item>): seq<Item> { SanitizeFrom(items, {}) }

  lemma SanitizeStep(items: seq<Item>, i: nat, seen: set<string>, kept: seq<Item>)
    requires i < |items|
    ensures kept + SanitizeFrom(items[i..], seen) ==
      (if Orphan(seen, items[i]) then kept else kept + [items[i]]) + SanitizeFrom(items[i + 1..], Learn(seen, items[i]))
  {
    assert items[i..][0] == items[i] && items[i..][1..] == items[i + 1..];
  }

  lemma ValidateStep(items: seq<Item>, i: nat, seen: set<string>, ids: seq<string>)
    requires i < |items|
    ensures ids + ValidateFrom(items[i..], seen) ==
      (if Orphan(seen, items[i]) then ids + [items[i].callId] else ids) + ValidateFrom(items[i + 1..], Learn(seen, items[i]))
  {
    assert items[i..][0] == items[i] && items[i..][1..] == items[i + 1..];
  }

  method ValidateCompactedHistory(items: seq<Item>) returns (invalid: seq<string>)
    ensures invalid == Validate(items)
  {
    invalid := [];
    var seen := {};
    for i := 0 to |items|
      invariant Validate(items) == invalid + ValidateFrom(items[i..], seen)
    {
      ValidateStep(items, i, seen, invalid);
      if items[i].Assistant? {
        seen := seen + CallIds(items[i].calls);
      } else if items[i].ToolResult? && items[i].callId !in seen {
        invalid := invalid + [items[i].callId];
      }
    }
  }

  method SanitizeCompactedHistory(items: seq<Item>) returns (kept: seq<Item>, stripped: seq<string>)
    ensures kept == Sanitize(items) && stripped == Validate(items)
  {
    kept, stripped := [], [];
    var seen := {};
    for i := 0 to |items|
      invariant Sanitize(items) == kept + SanitizeFrom(items[i..], seen)
      invariant Validate(items) == stripped + ValidateFrom(items[i..], seen)
    {
      var x := items[i];
      SanitizeStep(items, i, seen, kept);
      ValidateStep(items, i, seen, stripped);
      if x.Assistant? {
        seen := seen + CallIds(x.calls);
        kept := kept + [x];
      } else if x.ToolResult? && x.callId !in seen {
        stripped := stripped + [x.callId];
      } else {
        kept := kept + [x];
      }
    }
  }

  /** Sanitised histories validate, and sanitising them again changes nothing. */
  lemma {:induction false} SanitizedFromValidates(items: seq<Item>, seen: set<string>)
    ensures ValidateFrom(SanitizeFrom(items, seen), seen) == []
  {
    if items != [] {
      var rest := SanitizeFrom(items[1..], Learn(seen, items[0]));
      SanitizedFromValidates(items[1..], Learn(seen, items[0]));
      if Orphan(seen, items[0]) {
        assert SanitizeFrom(items, seen) == rest;
      } else {
        assert ([items[0]] + rest)[1..] == rest;
      }
    }
  }

  lemma SanitizedValidates(items: seq<Item>)
    ensures Validate(Sanitize(items)) == []
  {
    SanitizedFromValidates(items, {});
  }

  lemma {:induction false} ValidFromIff(items: seq<Item>, seen: set<string>)
    ensures ValidateFrom(items, seen) == [] <==>
      forall i :: 0 <= i < |items| && items[i].ToolResult? ==>
        items[i].callId in seen || DeclaredBefore(items, i, items[i].callId)
    ensures ValidateFrom(items, seen) == [] ==> SanitizeFrom(items, seen) == items
  {
    if items != [] {
      var rest := items[1..];
      var seen' := Learn(seen, items[0]);
      ValidFromIff(rest, seen');
      forall i, id | 0 <= i < |rest|
        ensures id in seen' || DeclaredBefore(rest, i, id) <==> id in seen || DeclaredBefore(items, i + 1, id)
      {
        DeclaredShift(seen, items, i, id);
      }
      assert items == [items[0]] + rest;
      if ValidateFrom(items, seen) == [] {
        forall i | 0 <= i < |items| && items[i].ToolResult?
          ensures items[i].callId in seen || DeclaredBefore(items, i, items[i].callId)
        {
          if i > 0 { assert rest[i - 1] == items[i]; }
        }
      } else if !Orphan(seen, items[0]) {
        var i :| 0 <= i < |rest| && rest[i].ToolResult? && rest[i].callId !in seen' && !DeclaredBefore(rest, i, rest[i].callId);
        assert items[i + 1] == rest[i];
      } else {
        assert !DeclaredBefore(items, 0, items[0].callId);
      }
    }
  }

  lemma DeclaredShift(seen: set<string>, items: seq<Item>, i: nat, id: string)
    requires items != [] && i < |items[1..]|
    ensures id in Learn(seen, items[0]) || DeclaredBefore(items[1..], i, id) <==> id in seen || DeclaredBefore(items, i + 1, id)
  {
    if DeclaredBefore(items[1..], i, id) {
      var a :| 0 <= a < i && Declares(items[1..][a], id);
      assert Declares(items[a + 1], id);
    }
    if DeclaredBefore(items, i + 1, id) {
      var a :| 0 <= a < i + 1 && Declares(items[a], id);
      assert a > 0 ==> Declares(items[1..][a - 1], id);
    }
  }

  /** A history validates exactly when each result has an earlier assistant declaring its id;
      such a history is left as it is. */
  lemma ValidIffDeclared(items: seq<Item>)
    ensures Validate(items) == [] <==>
      forall i :: 0 <= i < |items| && items[i].ToolResult? ==> DeclaredBefore(items, i, items[i].callId)
    ensures Validate(items) == [] ==> Sanitize(items) == items
  {
    ValidFromIff(items, {});
  }

  // ---------------------------------------------------------------- displaced results

  /** The ids that a result may answer right after `item`, given those before it. */
  function NextRun(run: set<string>, item: Item): set<string> {
    if item.ToolResult? then run else if item.Assistant? then CallIds(item.calls) else {}
  }

  predicate Displaced(run: set<string>, item: Item) { item.ToolResult? && item.callId !in run }

  function StripFrom(items: seq<Item>, run: set<string>): seq<Item> {
    if items == [] then []
    else (if Displaced(run, items[0]) then [] else [items[0]]) + StripFrom(items[1..], NextRun(run, items[0]))
  }

  function DisplacedFrom(items: seq<Item>, run: set<string>): seq<string> {
    if items == [] then []
    else (if Displaced(run, items[0]) then [items[0].callId] else []) + DisplacedFrom(items[1..], NextRun(run, items[0]))
  }

  function Strip(items: seq<Item>): seq<Item> { StripFrom(items, {}) }

  lemma StripStep(items: seq<Item>, i: nat, run: set<string>, kept: seq<Item>)
    requires i < |items|
    ensures kept + StripFrom(items[i..], run) ==
      (if Displaced(run, items[i]) then kept else kept + [items[i]]) + StripFrom(items[i + 1..], NextRun(run, items[i]))
  {
    assert items[i..][0] == items[i] && items[i..][1..] == items[i + 1..];
  }

  lemma DisplacedStep(items: seq<Item>, i: nat, run: set<string>, ids: seq<string>)
    requires i < |items|
    ensures ids + DisplacedFrom(items[i..], run) ==
      (if Displaced(run, items[i]) then ids + [items[i].callId] else ids) + DisplacedFrom(items[i + 1..], NextRun(run, items[i]))
  {
    assert items[i..][0] == items[i] && items[i..][1..] == items[i + 1..];
  }

  method StripDisplacedToolResults(items: seq<Item>) returns (kept: seq<Item>, stripped: seq<string>)
    ensures kept == Strip(items) && stripped == DisplacedFrom(items, {})
  {
    kept, stripped := [], [];
    var runIds := {};
    for i := 0 to |items|
      invariant Strip(items) == kept + StripFrom(items[i..], runIds)
      invariant DisplacedFrom(items, {}) == stripped + DisplacedFrom(items[i..], runIds)
    {
      var x := items[i];
      StripStep(items, i, runIds, kept);
      DisplacedStep(items, i, runIds, stripped);
      if x.Assistant? {
        runIds := CallIds(x.calls);
        kept := kept + [x];
      } else if x.ToolResult? {
        if x.callId in runIds {
          kept := kept + [x];
        } else {
          stripped := stripped + [x.callId];
        }
      } else {
        runIds := {};
        kept := kept + [x];
      }
    }
  }

  /** The results before position `i` reach back to the start of the list. */
  predicate OnlyResultsUpTo(items: seq<Item>, i: nat)
    requires i < |items|
  { forall k :: 0 <= k <= i ==> items[k].ToolResult? }

  /** The result at `i` continues the run that was open before the list, or is paired in it. */
  predicate PairedFrom(items: seq<Item>, run: set<string>, i: nat)
    requires i < |items| && items[i].ToolResult?
  {
    PairedAt(items, i) || (OnlyResultsUpTo(items, i) && items[i].callId in run)
  }

  lemma PairedShift(items: seq<Item>, run: set<string>, i: nat)
    requires i + 1 < |items| && items[i + 1].ToolResult?
    ensures PairedFrom(items, run, i + 1) <==> PairedFrom(items[1..], NextRun(run, items[0]), i)
  {
    var rest := items[1..];
    var id := items[i + 1].callId;
    if PairedAt(items, i + 1) {
      var a :| 0 <= a < i + 1 && AnsweredBy(items, i + 1, a);
      if a > 0 { assert AnsweredBy(rest, i, a - 1); }
      else { assert forall k :: 0 <= k < i ==> rest[k] == items[k + 1]; }
    }
    if PairedAt(rest, i) {
      var a :| 0 <= a < i && AnsweredBy(rest, i, a);
      assert forall k :: a + 1 < k < i + 1 ==> rest[k - 1] == items[k];
      assert AnsweredBy(items, i + 1, a + 1);
    }
    if OnlyResultsUpTo(rest, i) && id in NextRun(run, items[0]) {
      assert forall k :: 0 < k <= i + 1 ==> items[k] == rest[k - 1];
      if !items[0].ToolResult? { assert AnsweredBy(items, i + 1, 0); }
    }
    if OnlyResultsUpTo(items, i + 1) && id in run {
      assert OnlyResultsUpTo(rest, i);
    }
  }

  lemma {:induction false} NoneDisplacedIff(items: seq<Item>, run: set<string>)
    ensures DisplacedFrom(items, run) == [] <==>
      forall i :: 0 <= i < |items| && items[i].ToolResult? ==> PairedFrom(items, run, i)
    ensures DisplacedFrom(items, run) == [] ==> StripFrom(items, run) == items
  {
    if items != [] {
      var rest := items[1..];
      var run' := NextRun(run, items[0]);
      NoneDisplacedIff(rest, run');
      assert items == [items[0]] + rest;
      assert items[0].ToolResult? ==> (PairedFrom(items, run, 0) <==> items[0].callId in run);
      forall i | 0 <= i < |rest| && rest[i].ToolResult?
        ensures PairedFrom(rest, run', i) <==> PairedFrom(items, run, i + 1)
      {
        PairedShift(items, run, i);
      }
      if DisplacedFrom(items, run) == [] {
        forall i | 0 <= i < |items| && items[i].ToolResult? ensures PairedFrom(items, run, i) {
          if i > 0 { assert rest[i - 1] == items[i]; }
        }
      } else if !Displaced(run, items[0]) {
        var i :| 0 <= i < |rest| && rest[i].ToolResult? && !PairedFrom(rest, run', i);
        assert items[i + 1] == rest[i];
      }
    }
  }

  /** Nothing is displaced exactly when the history is paired; then stripping is the identity. */
  lemma PairedIffNothingDisplaced(items: seq<Item>)
    ensures Paired(items) <==> DisplacedFrom(items, {}) == []
    ensures Paired(items) ==> Strip(items) == items
  {
    NoneDisplacedIff(items, {});
  }

  lemma {:induction false} StrippedFromHasNoneDisplaced(items: seq<Item>, run: set<string>)
    ensures DisplacedFrom(StripFrom(items, run), run) == []
  {
    if items != [] {
      var rest := StripFrom(items[1..], NextRun(run, items[0]));
      StrippedFromHasNoneDisplaced(items[1..], NextRun(run, items[0]));
      if Displaced(run, items[0]) {
        assert StripFrom(items, run) == rest;
      } else {
        assert ([items[0]] + rest)[1..] == rest;
      }
    }
  }

  /** Stripping leaves a paired history and is idempotent. */
  lemma StripPairsAndIsIdempotent(items: seq<Item>)
    ensures Paired(Strip(items)) && Strip(Strip(items)) == Strip(items)
  {
    StrippedFromHasNoneDisplaced(items, {});
    PairedIffNothingDisplaced(Strip(items));
  }

  lemma {:induction false} StripFromWithinSanitize(items: seq<Item>, run: set<string>, seen: set<string>)
    requires run <= seen
    ensures Subsequence(StripFrom(items, run), SanitizeFrom(items, seen))
  {
    if items != [] {
      var x := items[0];
      StripFromWithinSanitize(items[1..], NextRun(run, x), Learn(seen, x));
      var a, b := StripFrom(items[1..], NextRun(run, x)), SanitizeFrom(items[1..], Learn(seen, x));
      assert ([x] + a)[1..] == a && ([x] + b)[1..] == b;
      if Orphan(seen, x) {
        assert StripFrom(items, run) == a && SanitizeFrom(items, seen) == b;
      } else if Displaced(run, x) {
        assert StripFrom(items, run) == a && SanitizeFrom(items, seen) == [x] + b;
      }
    }
  }

  /** The strict pass keeps no item that the lenient one drops, and the order. */
  lemma StripWithinSanitize(items: seq<Item>)
    ensures Subsequence(Strip(items), Sanitize(items))
  {
    StripFromWithinSanitize(items, {}, {});
  }

  // ---------------------------------------------------------------- what each pass keeps

  lemma {:induction false} SanitizeFromKeeps(items: seq<Item>, seen: set<string>) returns (places: seq<nat>)
    ensures KeptAt(SanitizeFrom(items, seen), items, places)
    ensures forall i :: 0 <= i < |items| ==>
      (i in places <==> (items[i].ToolResult? ==> items[i].callId in seen || DeclaredBefore(items, i, items[i].callId)))
  {
    if items == [] {
      places := [];
    } else {
      var x, rest := items[0], items[1..];
      assert items == [x] + rest;
      var inner := SanitizeFromKeeps(rest, Learn(seen, x));
      places := KeptWithHead(x, !Orphan(seen, x), SanitizeFrom(rest, Learn(seen, x)), rest, inner);
      assert !DeclaredBefore(items, 0, if x.ToolResult? then x.callId else "");
      forall i | 0 <= i < |rest|
        ensures i + 1 in places <==> (rest[i].ToolResult? ==> rest[i].callId in seen || DeclaredBefore(items, i + 1, rest[i].callId))
      {
        if rest[i].ToolResult? { DeclaredShift(seen, items, i, rest[i].callId); }
      }
    }
  }

  /** Sanitising keeps, in order, exactly the items that are no results or have an earlier
      assistant declaring their id. */
  lemma SanitizeKeeps(items: seq<Item>) returns (places: seq<nat>)
    ensures KeptAt(Sanitize(items), items, places)
    ensures forall i :: 0 <= i < |items| ==>
      (i in places <==> (items[i].ToolResult? ==> DeclaredBefore(items, i, items[i].callId)))
  {
    places := SanitizeFromKeeps(items, {});
  }

  lemma {:induction false} StripFromKeeps(items: seq<Item>, run: set<string>) returns (places: seq<nat>)
    ensures KeptAt(StripFrom(items, run), items, places)
    ensures forall i :: 0 <= i < |items| ==> (i in places <==> (items[i].ToolResult? ==> PairedFrom(items, run, i)))
  {
    if items == [] {
      places := [];
    } else {
      var x, rest := items[0], items[1..];
      assert items == [x] + rest;
      var inner := StripFromKeeps(rest, NextRun(run, x));
      places := KeptWithHead(x, !Displaced(run, x), StripFrom(rest, NextRun(run, x)), rest, inner);
      assert x.ToolResult? ==> (PairedFrom(items, run, 0) <==> x.callId in run);
      forall i | 0 <= i < |rest| ensures i + 1 in places <==> (rest[i].ToolResult? ==> PairedFrom(items, run, i + 1)) {
        if rest[i].ToolResult? { PairedShift(items, run, i); }
      }
    }
  }

  /** Stripping keeps, in order, exactly the items that are no results or lie in the run of an
      assistant that called for them. */
  lemma StripKeeps(items: seq<Item>) returns (places: seq<nat>)
    ensures KeptAt(Strip(items), items, places)
    ensures forall i :: 0 <= i < |items| ==> (i in places <==> (items[i].ToolResult? ==> PairedAt(items, i)))
  {
    places := StripFromKeeps(items, {});
  }

  /** `ids` are the ids of the results at the places, in order. */
  predicate IdsAre(ids: seq<string>, items: seq<Item>, places: seq<nat>) {
    && Increasing(places, 0, |items|) && |ids| == |places|
    && forall k :: 0 <= k < |places| ==> items[places[k]].ToolResult? && ids[k] == items[places[k]].callId
  }

  lemma IdsWithHead(x: Item, reported: bool, ids: seq<string>, rest: seq<Item>, places: seq<nat>) returns (more: seq<nat>)
    requires IdsAre(ids, rest, places) && (reported ==> x.ToolResult?)
    ensures IdsAre((if reported then [x.callId] else []) + ids, [x] + rest, more)
    ensures (0 in more <==> reported) && forall i :: 0 <= i < |rest| ==> (i + 1 in more <==> i in places)
  {
    more := (if reported then [0] else []) + Shifted(places);
    forall i: nat ensures i in Shifted(places) <==> i > 0 && i - 1 in places { ShiftedHas(places, i); }
  }

  lemma {:induction false} ValidateFromReports(items: seq<Item>, seen: set<string>) returns (places: seq<nat>)
    ensures IdsAre(ValidateFrom(items, seen), items, places)
    ensures forall i :: 0 <= i < |items| && items[i].ToolResult? ==>
      (i in places <==> !(items[i].callId in seen || DeclaredBefore(items, i, items[i].callId)))
  {
    if items == [] {
      places := [];
    } else {
      var x, rest := items[0], items[1..];
      assert items == [x] + rest;
      var inner := ValidateFromReports(rest, Learn(seen, x));
      places := IdsWithHead(x, Orphan(seen, x), ValidateFrom(rest, Learn(seen, x)), rest, inner);
      assert x.ToolResult? ==> !DeclaredBefore(items, 0, x.callId);
      forall i | 0 <= i < |rest| && rest[i].ToolResult?
        ensures i + 1 in places <==> !(rest[i].callId in seen || DeclaredBefore(items, i + 1, rest[i].callId))
      {
        DeclaredShift(seen, items, i, rest[i].callId);
      }
    }
  }

  /** The report names, in order, every result without an earlier assistant declaring its id. */
  lemma ValidateReports(items: seq<Item>) returns (places: seq<nat>)
    ensures IdsAre(Validate(items), items, places)
    ensures forall i :: 0 <= i < |items| && items[i].ToolResult? ==>
      (i in places <==> !DeclaredBefore(items, i, items[i].callId))
  {
    places := ValidateFromReports(items, {});
  }

  lemma {:induction false} DisplacedFromReports(items: seq<Item>, run: set<string>) returns (places: seq<nat>)
    ensures IdsAre(DisplacedFrom(items, run), items, places)
    ensures forall i :: 0 <= i < |items| && items[i].ToolResult? ==> (i in places <==> !PairedFrom(items, run, i))
  {
    if items == [] {
      places := [];
    } else {
      var x, rest := items[0], items[1..];
      assert items == [x] + rest;
      var inner := DisplacedFromReports(rest, NextRun(run, x));
      places := IdsWithHead(x, Displaced(run, x), DisplacedFrom(rest, NextRun(run, x)), rest, inner);
      assert x.ToolResult? ==> (PairedFrom(items, run, 0) <==> x.callId in run);
      forall i | 0 <= i < |rest| && rest[i].ToolResult? ensures i + 1 in places <==> !PairedFrom(items, run, i + 1) {
        PairedShift(items, run, i);
      }
    }
  }

  /** Stripping reports, in order, the ids of exactly the results that it drops. */
  lemma DisplacedReports(items: seq<Item>) returns (places: seq<nat>)
    ensures IdsAre(DisplacedFrom(items, {}), items, places)
    ensures forall i :: 0 <= i < |items| && items[i].ToolResult? ==> (i in places <==> !PairedAt(items, i))
  {
    places := DisplacedFromReports(items, {});
  }
}
