/** Bytes, the small optional type, and the arithmetic and sequence notions shared by the other
    modules. */
module Bytes {
  type Byte = b: int | 0 <= b < 256

  datatype Option<+T> = None | Some(value: T)

  function SaturatingSub(a: nat, b: nat): nat { if a >= b then a - b else 0 }

  function Min(a: nat, b: nat): nat { if a <= b then a else b }

  function Max(a: int, b: int): int { if a >= b then a else b }

  predicate Distinct<T(==)>(list: seq<T>) { list == [] || (list[0] !in list[1..] && Distinct(list[1..])) }

  lemma {:induction false} DistinctPlaces<T>(list: seq<T>)
    requires Distinct(list)
    ensures forall i, j :: 0 <= i < j < |list| ==> list[i] != list[j]
  {
    if list != [] {
      DistinctPlaces(list[1..]);
      assert forall k :: 1 <= k < |list| ==> list[k] == list[1..][k - 1];
    }
  }

  lemma {:induction false} DistinctSnoc<T>(list: seq<T>, x: T)
    requires Distinct(list) && x !in list
    ensures Distinct(list + [x])
  {
    if list != [] {
      assert (list + [x])[1..] == list[1..] + [x];
      DistinctSnoc(list[1..], x);
    }
  }

  lemma Regroup<T>(a: seq<T>, b: seq<T>, c: seq<T>)
    ensures a + b + c == a + (b + c)
  {
  }

  /** The last `cap` bytes of `s`, or all of `s` when it is shorter. */
  function LastBytes(s: seq<Byte>, cap: nat): (r: seq<Byte>)
    ensures |r| <= cap && |r| <= |s|
  {
    if |s| <= cap then s else s[|s| - cap..]
  }

  /** All chunks of a stream, joined in order. */
  function Concat(chunks: seq<seq<Byte>>): seq<Byte> {
    if chunks == [] then [] else chunks[0] + Concat(chunks[1..])
  }

  lemma {:induction false} ConcatAppend(a: seq<seq<Byte>>, b: seq<seq<Byte>>)
    ensures Concat(a + b) == Concat(a) + Concat(b)
  {
    if a == [] {
      assert a + b == b;
    } else {
      assert (a + b)[1..] == a[1..] + b;
      ConcatAppend(a[1..], b);
    }
  }

  /** Places of a list from `lo` on, in order. */
  predicate Increasing(places: seq<nat>, lo: nat, hi: nat) {
    && (forall k :: 0 <= k < |places| ==> lo <= places[k] < hi)
    && forall j, k :: 0 <= j < k < |places| ==> places[j] < places[k]
  }

  /** `kept` are the elements of `list` at the places, in order. */
  predicate KeptAt<T(==)>(kept: seq<T>, list: seq<T>, places: seq<nat>) {
    && Increasing(places, 0, |list|) && |kept| == |places|
    && forall k :: 0 <= k < |places| ==> kept[k] == list[places[k]]
  }

  /** The same places, behind one more element. */
  function Shifted(places: seq<nat>): seq<nat> { seq(|places|, k requires 0 <= k < |places| => places[k] + 1) }

  lemma ShiftedHas(places: seq<nat>, i: nat)
    ensures i in Shifted(places) <==> i > 0 && i - 1 in places
  {
    if i > 0 && i - 1 in places {
      var k :| 0 <= k < |places| && places[k] == i - 1;
      assert Shifted(places)[k] == i;
    }
  }

  /** Dropping or keeping one more element in front. */
  lemma KeptWithHead<T>(x: T, keeps: bool, kept: seq<T>, rest: seq<T>, places: seq<nat>) returns (more: seq<nat>)
    requires KeptAt(kept, rest, places)
    ensures KeptAt((if keeps then [x] else []) + kept, [x] + rest, more)
    ensures (0 in more <==> keeps) && forall i :: 0 <= i < |rest| ==> (i + 1 in more <==> i in places)
  {
    more := (if keeps then [0] else []) + Shifted(places);
    forall i: nat ensures i in Shifted(places) <==> i > 0 && i - 1 in places { ShiftedHas(places, i); }
  }
}
