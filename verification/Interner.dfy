/** The arena interner: byte strings in one buffer, found through a hash table of ids. */
module Interner {
  import opened Bytes

  type Hash = seq<Byte> -> nat

  const U16: nat := 0x1_0000
  const U32: nat := 0x1_0000_0000

  /** The fields of an interner; an offset is a start, stored in 32 bits, and a length, stored in 16. */
  datatype Store = Store(arena: seq<Byte>, lookup: map<nat, seq<nat>>, offsets: seq<(nat, nat)>)

  const Empty := Store([], map[], [])

  function Slice(arena: seq<Byte>, o: (nat, nat)): Option<seq<Byte>> {
    if o.0 + o.1 <= |arena| then Some(arena[o.0..o.0 + o.1]) else None
  }

  function BytesAt(st: Store, id: nat): Option<seq<Byte>> {
    if id < |st.offsets| then Slice(st.arena, st.offsets[id]) else None
  }

  function Bucket(lookup: map<nat, seq<nat>>, h: nat): seq<nat> { if h in lookup then lookup[h] else [] }

  function Push(lookup: map<nat, seq<nat>>, h: nat, id: nat): map<nat, seq<nat>> {
    lookup[h := Bucket(lookup, h) + [id]]
  }

  /** The first id of a bucket whose bytes are `s`. */
  function Scan(st: Store, ids: seq<nat>, s: seq<Byte>): Option<nat> {
    if ids == [] then None
    else if BytesAt(st, ids[0]) == Some(s) then Some(ids[0]) else Scan(st, ids[1..], s)
  }

  function Lookup(st: Store, hash: Hash, s: seq<Byte>): Option<nat> { Scan(st, Bucket(st.lookup, hash(s)), s) }

  function Added(st: Store, hash: Hash, s: seq<Byte>): (Store, nat) {
    var id := |st.offsets| % U32;
    (Store(st.arena + s, Push(st.lookup, hash(s), id), st.offsets + [(|st.arena| % U32, |s| % U16)]), id)
  }

  function Interned(st: Store, hash: Hash, s: seq<Byte>): (Store, nat) {
    var known := Lookup(st, hash, s);
    if known.Some? then (st, known.value) else Added(st, hash, s)
  }

  /** The table over the first `n` offsets, entries outside the arena left out. */
  function Table(arena: seq<Byte>, offsets: seq<(nat, nat)>, n: nat, hash: Hash): map<nat, seq<nat>>
    requires n <= |offsets|
  {
    if n == 0 then map[]
    else
      var table := Table(arena, offsets, n - 1, hash);
      var bytes := Slice(arena, offsets[n - 1]);
      if bytes.Some? then Push(table, hash(bytes.value), (n - 1) % U32) else table
  }

  function Rebuilt(arena: seq<Byte>, offsets: seq<(nat, nat)>, hash: Hash): Store {
    Store(arena, Table(arena, offsets, |offsets|, hash), offsets)
  }

  class StringInterner {
    const hash: Hash
    var arena: seq<Byte>
    var lookup: map<nat, seq<nat>>
    var offsets: seq<(nat, nat)>

    function State(): Store
      reads this
    { Store(arena, lookup, offsets) }

    constructor (hash: Hash)
      ensures State() == Empty && this.hash == hash
    {
      this.hash := hash;
      arena, lookup, offsets := [], map[], [];
    }

    constructor FromParts(hash: Hash, arena: seq<Byte>, offsets: seq<(nat, nat)>)
      ensures State() == Rebuilt(arena, offsets, hash) && this.hash == hash
    {
      var lookup := map[];
      for idx := 0 to |offsets|
        invariant lookup == Table(arena, offsets, idx, hash)
      {
        var bytes := Slice(arena, offsets[idx]);
        if bytes.Some? {
          lookup := Push(lookup, hash(bytes.value), idx % U32);
        }
      }
      this.hash := hash;
      this.arena, this.lookup, this.offsets := arena, lookup, offsets;
    }

    method GetBytes(id: nat) returns (r: Option<seq<Byte>>)
      ensures r == BytesAt(State(), id)
    {
      if id >= |offsets| { return None; }
      var (start, len) := offsets[id];
      if start + len > |arena| { return None; }
      return Some(arena[start..start + len]);
    }

    method GetBytesId(s: seq<Byte>) returns (r: Option<nat>)
      ensures r == Lookup(State(), hash, s)
    {
      var h := hash(s);
      if h in lookup {
        var ids := lookup[h];
        for i := 0 to |ids|
          invariant Lookup(State(), hash, s) == Scan(State(), ids[i..], s)
        {
          assert ids[i..][0] == ids[i] && ids[i..][1..] == ids[i + 1..];
          var bytes := GetBytes(ids[i]);
          if bytes == Some(s) { return Some(ids[i]); }
        }
      }
      return None;
    }

    method InternBytes(s: seq<Byte>) returns (id: nat)
      modifies this
      ensures (State(), id) == Interned(old(State()), hash, s)
    {
      var known := GetBytesId(s);
      if known.Some? { return known.value; }
      var start, len := |arena| % U32, |s| % U16;
      arena := arena + s;
      id := |offsets| % U32;
      offsets := offsets + [(start, len)];
      lookup := Push(lookup, hash(s), id);
    }

    method Clear()
      modifies this
      ensures State() == Empty
    {
      arena, lookup, offsets := [], map[], [];
    }
  }

  // ---------------------------------------------------------------- the list it stands for

  /** Linear search. */
  function IndexOf<T(==)>(list: seq<T>, x: T): (r: Option<nat>)
    ensures r.Some? ==> r.value < |list| && list[r.value] == x
    ensures r.None? ==> x !in list
    ensures r.Some? ==> x !in list[..r.value]
  {
    if list == [] then None
    else if list[0] == x then Some(0)
    else
      var rest := IndexOf(list[1..], x);
      if rest.None? then None
      else
        assert list[..rest.value + 1] == [list[0]] + list[1..][..rest.value];
        Some(rest.value + 1)
  }

  /** Appending a string that is not there yet. */
  function Extended(list: seq<seq<Byte>>, s: seq<Byte>): seq<seq<Byte>> { if s in list then list else list + [s] }

  /** The store holds the strings of a duplicate-free list in its order, and its table is the one
      that would be rebuilt from its arena and offsets. */
  predicate Represents(st: Store, hash: Hash, list: seq<seq<Byte>>) {
    && Distinct(list)
    && |st.offsets| == |list| <= U32
    && (forall i :: 0 <= i < |list| ==> st.offsets[i].1 < U16 && BytesAt(st, i) == Some(list[i]))
    && st.lookup == Table(st.arena, st.offsets, |st.offsets|, hash)
  }

  /** What the 32-bit starts and ids and the 16-bit lengths can hold. */
  predicate Fits(st: Store, s: seq<Byte>) { |s| < U16 && |st.arena| < U32 && |st.offsets| < U32 }

  /** A bucket holds, in order, exactly the ids of the strings with its hash. */
  lemma {:induction false} BucketIsExact(st: Store, hash: Hash, list: seq<seq<Byte>>, n: nat, h: nat)
    requires n <= |st.offsets| == |list| <= U32
    requires forall i :: 0 <= i < |list| ==> BytesAt(st, i) == Some(list[i])
    ensures forall id :: id in Bucket(Table(st.arena, st.offsets, n, hash), h) <==> 0 <= id < n && hash(list[id]) == h
  {
    if n > 0 {
      BucketIsExact(st, hash, list, n - 1, h);
      assert BytesAt(st, n - 1) == Some(list[n - 1]);
    }
  }

  lemma {:induction false} ScanFindsMember(st: Store, ids: seq<nat>, s: seq<Byte>)
    ensures Scan(st, ids, s).Some? ==> Scan(st, ids, s).value in ids && BytesAt(st, Scan(st, ids, s).value) == Some(s)
    ensures forall k :: 0 <= k < |ids| && BytesAt(st, ids[k]) == Some(s) ==> Scan(st, ids, s).Some?
  {
    if ids != [] {
      ScanFindsMember(st, ids[1..], s);
      assert forall k :: 1 <= k < |ids| ==> ids[k] == ids[1..][k - 1];
    }
  }

  /** The hash lookup is a linear search, whatever the hash function and its collisions. */
  lemma LookupIsLinearSearch(st: Store, hash: Hash, list: seq<seq<Byte>>, s: seq<Byte>)
    requires Represents(st, hash, list)
    ensures Lookup(st, hash, s) == IndexOf(list, s)
  {
    var ids := Bucket(st.lookup, hash(s));
    BucketIsExact(st, hash, list, |list|, hash(s));
    ScanFindsMember(st, ids, s);
    DistinctPlaces(list);
    var found, first := Scan(st, ids, s), IndexOf(list, s);
    if found.Some? {
      assert list[found.value] == s;
      assert first.Some?;
    }
    if first.Some? {
      assert first.value in ids;
      var k :| 0 <= k < |ids| && ids[k] == first.value;
      assert BytesAt(st, ids[k]) == Some(s);
    }
  }

  lemma {:induction false} TableKept(arena: seq<Byte>, offsets: seq<(nat, nat)>, arena': seq<Byte>, offsets': seq<(nat, nat)>, n: nat, hash: Hash)
    requires n <= |offsets| <= |offsets'|
    requires forall i :: 0 <= i < n ==> Slice(arena, offsets[i]) == Slice(arena', offsets'[i])
    ensures Table(arena, offsets, n, hash) == Table(arena', offsets', n, hash)
  {
    if n > 0 { TableKept(arena, offsets, arena', offsets', n - 1, hash); }
  }

  lemma SliceKept(arena: seq<Byte>, s: seq<Byte>, o: (nat, nat))
    requires Slice(arena, o).Some?
    ensures Slice(arena + s, o) == Slice(arena, o)
  {
    assert (arena + s)[o.0..o.0 + o.1] == arena[o.0..o.0 + o.1];
  }

  lemma SliceAdded(arena: seq<Byte>, s: seq<Byte>)
    ensures Slice(arena + s, (|arena|, |s|)) == Some(s)
  {
    assert (arena + s)[|arena|..|arena| + |s|] == s;
  }

  /** Within the limits nothing is truncated. */
  lemma AddedWithinLimits(st: Store, hash: Hash, s: seq<Byte>)
    requires Fits(st, s)
    ensures Added(st, hash, s) ==
      (Store(st.arena + s, Push(st.lookup, hash(s), |st.offsets|), st.offsets + [(|st.arena|, |s|)]), |st.offsets|)
  {
  }

  lemma AddedTable(st: Store, hash: Hash, list: seq<seq<Byte>>, s: seq<Byte>)
    requires Represents(st, hash, list) && Fits(st, s)
    ensures var arena, offsets := st.arena + s, st.offsets + [(|st.arena|, |s|)];
      && (forall i :: 0 <= i < |list| ==> Slice(arena, offsets[i]) == Some(list[i]))
      && Table(arena, offsets, |offsets|, hash) == Push(st.lookup, hash(s), |st.offsets|)
  {
    var arena, offsets := st.arena + s, st.offsets + [(|st.arena|, |s|)];
    forall i | 0 <= i < |list| ensures Slice(arena, offsets[i]) == Slice(st.arena, st.offsets[i]) == Some(list[i]) {
      assert BytesAt(st, i) == Some(list[i]);
      SliceKept(st.arena, s, st.offsets[i]);
    }
    SliceAdded(st.arena, s);
    TableKept(st.arena, st.offsets, arena, offsets, |list|, hash);
  }

  lemma AddedRepresents(st: Store, hash: Hash, list: seq<seq<Byte>>, s: seq<Byte>)
    requires Represents(st, hash, list) && Fits(st, s) && s !in list
    ensures Represents(Added(st, hash, s).0, hash, list + [s])
  {
    AddedWithinLimits(st, hash, s);
    AddedTable(st, hash, list, s);
    SliceAdded(st.arena, s);
    DistinctSnoc(list, s);
    var st' := Added(st, hash, s).0;
    forall i | 0 <= i < |list| + 1 ensures st'.offsets[i].1 < U16 && BytesAt(st', i) == Some((list + [s])[i]) {
      if i < |list| { assert BytesAt(st, i) == Some(list[i]) && st'.offsets[i] == st.offsets[i]; }
    }
  }

  /** Interning appends to the list exactly when the string is new, and returns its place. */
  lemma InternRefinesList(st: Store, hash: Hash, list: seq<seq<Byte>>, s: seq<Byte>)
    requires Represents(st, hash, list) && Fits(st, s)
    ensures Represents(Interned(st, hash, s).0, hash, Extended(list, s))
    ensures IndexOf(Extended(list, s), s) == Some(Interned(st, hash, s).1)
  {
    LookupIsLinearSearch(st, hash, list, s);
    if s !in list {
      assert Interned(st, hash, s) == Added(st, hash, s);
      AddedRepresents(st, hash, list, s);
      AddedWithinLimits(st, hash, s);
      AppendIsLast(list, s);
    }
  }

  lemma AppendIsLast(list: seq<seq<Byte>>, s: seq<Byte>)
    requires s !in list
    ensures IndexOf(list + [s], s) == Some(|list|)
  {
    var at := IndexOf(list + [s], s);
    assert (list + [s])[|list|] == s;
    assert forall k :: 0 <= k < |list| ==> (list + [s])[k] == list[k];
  }

  // ---------------------------------------------------------------- whole runs

  function InternAll(st: Store, hash: Hash, inputs: seq<seq<Byte>>): (r: (Store, seq<nat>))
    ensures |r.1| == |inputs|
    decreases |inputs|
  {
    if inputs == [] then (st, [])
    else
      var (st', id) := Interned(st, hash, inputs[0]);
      var (end, ids) := InternAll(st', hash, inputs[1..]);
      (end, [id] + ids)
  }

  function ExtendAll(list: seq<seq<Byte>>, inputs: seq<seq<Byte>>): seq<seq<Byte>>
    decreases |inputs|
  {
    if inputs == [] then list else ExtendAll(Extended(list, inputs[0]), inputs[1..])
  }

  function Total(inputs: seq<seq<Byte>>): nat { if inputs == [] then 0 else |inputs[0]| + Total(inputs[1..]) }

  predicate AllFit(st: Store, inputs: seq<seq<Byte>>) {
    && (forall i :: 0 <= i < |inputs| ==> |inputs[i]| < U16)
    && |st.arena| + Total(inputs) < U32 && |st.offsets| + |inputs| <= U32
  }

  lemma FitsNext(st: Store, hash: Hash, inputs: seq<seq<Byte>>)
    requires inputs != [] && AllFit(st, inputs)
    ensures Fits(st, inputs[0]) && AllFit(Interned(st, hash, inputs[0]).0, inputs[1..])
  {
  }

  lemma {:induction false} ListOnlyGrows(list: seq<seq<Byte>>, inputs: seq<seq<Byte>>)
    ensures list <= ExtendAll(list, inputs)
    ensures forall s :: s in ExtendAll(list, inputs) <==> s in list || s in inputs
    decreases |inputs|
  {
    if inputs != [] { ListOnlyGrows(Extended(list, inputs[0]), inputs[1..]); }
  }

  lemma {:induction false} RunRepresents(st: Store, hash: Hash, list: seq<seq<Byte>>, inputs: seq<seq<Byte>>)
    requires Represents(st, hash, list) && AllFit(st, inputs)
    ensures Represents(InternAll(st, hash, inputs).0, hash, ExtendAll(list, inputs))
    decreases |inputs|
  {
    if inputs != [] {
      FitsNext(st, hash, inputs);
      InternRefinesList(st, hash, list, inputs[0]);
      RunRepresents(Interned(st, hash, inputs[0]).0, hash, Extended(list, inputs[0]), inputs[1..]);
    }
  }

  lemma BytesOfEarlierId(end: Store, hash: Hash, list: seq<seq<Byte>>, earlier: seq<seq<Byte>>, id: nat, s: seq<Byte>)
    requires Represents(end, hash, list) && earlier <= list && IndexOf(earlier, s) == Some(id)
    ensures BytesAt(end, id) == Some(s)
  {
  }

  predicate IdsName(end: Store, ids: seq<nat>, inputs: seq<seq<Byte>>) {
    |ids| == |inputs| && forall i :: 0 <= i < |ids| ==> BytesAt(end, ids[i]) == Some(inputs[i])
  }

  lemma IdsNameCons(end: Store, id: nat, ids: seq<nat>, inputs: seq<seq<Byte>>)
    requires inputs != [] && BytesAt(end, id) == Some(inputs[0]) && IdsName(end, ids, inputs[1..])
    ensures IdsName(end, [id] + ids, inputs)
  {
    assert forall i :: 1 <= i < |inputs| ==> inputs[i] == inputs[1..][i - 1];
  }

  lemma {:induction false} RunKeepsBytes(st: Store, hash: Hash, list: seq<seq<Byte>>, inputs: seq<seq<Byte>>)
    requires Represents(st, hash, list) && AllFit(st, inputs)
    ensures IdsName(InternAll(st, hash, inputs).0, InternAll(st, hash, inputs).1, inputs)
    decreases |inputs|
  {
    if inputs != [] {
      var (st', id) := Interned(st, hash, inputs[0]);
      var list' := Extended(list, inputs[0]);
      FitsNext(st, hash, inputs);
      InternRefinesList(st, hash, list, inputs[0]);
      RunKeepsBytes(st', hash, list', inputs[1..]);
      RunRepresents(st', hash, list', inputs[1..]);
      ListOnlyGrows(list', inputs[1..]);
      var (end, ids) := InternAll(st', hash, inputs[1..]);
      BytesOfEarlierId(end, hash, ExtendAll(list', inputs[1..]), list', id, inputs[0]);
      IdsNameCons(end, id, ids, inputs);
    }
  }

  /** After any run the store represents the strings in order of first use, and every id returned
      on the way still names the bytes it was returned for. */
  lemma RunRefinesList(hash: Hash, inputs: seq<seq<Byte>>)
    requires AllFit(Empty, inputs)
    ensures var (end, ids) := InternAll(Empty, hash, inputs);
      Represents(end, hash, ExtendAll([], inputs)) && IdsName(end, ids, inputs)
  {
    RunRepresents(Empty, hash, [], inputs);
    RunKeepsBytes(Empty, hash, [], inputs);
  }

  /** Two ids of a run are equal exactly when their strings are. */
  lemma IdsEqualIffBytesEqual(hash: Hash, inputs: seq<seq<Byte>>, i: nat, j: nat)
    requires AllFit(Empty, inputs) && i < |inputs| && j < |inputs|
    ensures var ids := InternAll(Empty, hash, inputs).1; ids[i] == ids[j] <==> inputs[i] == inputs[j]
  {
    RunRefinesList(hash, inputs);
    var (end, ids) := InternAll(Empty, hash, inputs);
    var list := ExtendAll([], inputs);
    DistinctPlaces(list);
    assert BytesAt(end, ids[i]) == Some(list[ids[i]]) && BytesAt(end, ids[j]) == Some(list[ids[j]]);
  }

  /** Rebuilding from the saved arena and offsets gives the same interner, table included. */
  lemma FromPartsRestoresRun(hash: Hash, inputs: seq<seq<Byte>>)
    requires AllFit(Empty, inputs)
    ensures var end := InternAll(Empty, hash, inputs).0; Rebuilt(end.arena, end.offsets, hash) == end
  {
    RunRefinesList(hash, inputs);
  }

  // ---------------------------------------------------------------- runs with strings of any length

  /** Every entry lies in the arena, with a length of 16 bits, and buckets hold ids of entries. */
  ghost predicate Sound(st: Store) {
    && |st.offsets| <= U32
    && (forall i :: 0 <= i < |st.offsets| ==> st.offsets[i].1 < U16 && BytesAt(st, i).Some?)
    && forall h, id :: id in Bucket(st.lookup, h) ==> id < |st.offsets|
  }

  /** What starts and ids can hold, whatever the lengths. */
  predicate Room(st: Store) { |st.arena| < U32 && |st.offsets| < U32 }

  predicate ShortLengths(st: Store) { forall i :: 0 <= i < |st.offsets| ==> st.offsets[i].1 < U16 }

  /** A stored length is below 2^16, so a longer string is not found. */
  lemma LongIsNotFound(st: Store, hash: Hash, s: seq<Byte>)
    requires ShortLengths(st) && |s| >= U16
    ensures Lookup(st, hash, s) == None
  {
    ScanFindsMember(st, Bucket(st.lookup, hash(s)), s);
  }

  lemma {:induction false} RunLengthsShort(st: Store, hash: Hash, inputs: seq<seq<Byte>>)
    requires ShortLengths(st)
    ensures ShortLengths(InternAll(st, hash, inputs).0)
    decreases |inputs|
  {
    if inputs != [] { RunLengthsShort(Interned(st, hash, inputs[0]).0, hash, inputs[1..]); }
  }

  /** After any run whatever, a string of 2^16 bytes or more is stored anew by every intern. */
  lemma LongIsAlwaysAdded(hash: Hash, inputs: seq<seq<Byte>>, s: seq<Byte>)
    requires |s| >= U16
    ensures var st := InternAll(Empty, hash, inputs).0; var st' := Interned(st, hash, s).0;
      && Lookup(st, hash, s) == None && Lookup(st', hash, s) == None
      && |st'.offsets| == |st.offsets| + 1 && st'.arena == st.arena + s
  {
    var st := InternAll(Empty, hash, inputs).0;
    RunLengthsShort(Empty, hash, inputs);
    LongIsNotFound(st, hash, s);
    LongIsNotFound(Interned(st, hash, s).0, hash, s);
  }

  lemma {:induction false} ScanSame(st: Store, st': Store, ids: seq<nat>, s: seq<Byte>)
    requires forall id :: id in ids ==> BytesAt(st', id) == BytesAt(st, id)
    ensures Scan(st', ids, s) == Scan(st, ids, s)
  {
    if ids != [] {
      assert ids[0] in ids;
      ScanSame(st, st', ids[1..], s);
    }
  }

  lemma {:induction false} ScanSnoc(st: Store, ids: seq<nat>, id: nat, s: seq<Byte>)
    ensures Scan(st, ids + [id], s) ==
      if Scan(st, ids, s).Some? then Scan(st, ids, s) else if BytesAt(st, id) == Some(s) then Some(id) else None
  {
    if ids == [] {
      assert ids + [id] == [id] && [id][1..] == [];
    } else {
      assert (ids + [id])[1..] == ids[1..] + [id];
      ScanSnoc(st, ids[1..], id, s);
    }
  }

  /** Adding keeps every entry, and puts the string cut to 16 bits of length behind them. */
  lemma AddedEntries(st: Store, hash: Hash, s: seq<Byte>)
    requires Sound(st) && Room(st)
    ensures var st' := Added(st, hash, s).0;
      && (forall i :: 0 <= i < |st.offsets| ==> BytesAt(st', i) == BytesAt(st, i))
      && BytesAt(st', |st.offsets|) == Some(s[..|s| % U16])
  {
    var st' := Added(st, hash, s).0;
    forall i | 0 <= i < |st.offsets| ensures BytesAt(st', i) == BytesAt(st, i) {
      assert BytesAt(st, i).Some?;
      SliceKept(st.arena, s, st.offsets[i]);
    }
    var n := |s| % U16;
    assert st'.arena[|st.arena|..|st.arena| + n] == s[..n];
  }

  lemma AddedIsSound(st: Store, hash: Hash, s: seq<Byte>)
    requires Sound(st) && Room(st)
    ensures Sound(Added(st, hash, s).0)
  {
    var st' := Added(st, hash, s).0;
    AddedEntries(st, hash, s);
    forall i | 0 <= i < |st'.offsets| ensures st'.offsets[i].1 < U16 && BytesAt(st', i).Some? {
      if i < |st.offsets| { assert BytesAt(st, i).Some? && st'.offsets[i] == st.offsets[i]; }
    }
    forall h, id | id in Bucket(st'.lookup, h) ensures id < |st'.offsets| {
      assert id in Bucket(st.lookup, h) || id == |st.offsets|;
    }
  }

  /** What was found is still found at the same id; a new short string is found at its own. */
  lemma AddedLookup(st: Store, hash: Hash, s: seq<Byte>, t: seq<Byte>)
    requires Sound(st) && Room(st)
    ensures var st' := Added(st, hash, s).0;
      && (Lookup(st, hash, t).Some? ==> Lookup(st', hash, t) == Lookup(st, hash, t))
      && (|s| < U16 && Lookup(st, hash, s).None? ==> Lookup(st', hash, s) == Some(|st.offsets|))
  {
    var st' := Added(st, hash, s).0;
    AddedEntries(st, hash, s);
    LookupKept(st, st', hash, s, t);
    LookupKept(st, st', hash, s, s);
    if |s| < U16 { assert s[..|s| % U16] == s; }
  }

  lemma LookupKept(st: Store, st': Store, hash: Hash, s: seq<Byte>, t: seq<Byte>)
    requires Sound(st) && Room(st) && st'.lookup == Push(st.lookup, hash(s), |st.offsets|)
    requires forall i :: 0 <= i < |st.offsets| ==> BytesAt(st', i) == BytesAt(st, i)
    ensures Lookup(st', hash, t) ==
      if Lookup(st, hash, t).Some? || hash(t) != hash(s) || BytesAt(st', |st.offsets|) != Some(t) then Lookup(st, hash, t)
      else Some(|st.offsets|)
  {
    var ids := Bucket(st.lookup, hash(t));
    ScanSame(st, st', ids, t);
    ScanSnoc(st', ids, |st.offsets|, t);
  }

  /** In such a store an interned string is found again exactly when its length is below 2^16. */
  lemma FoundAgainIffLengthFits(st: Store, hash: Hash, s: seq<Byte>)
    requires Sound(st) && Room(st)
    ensures var (st', id) := Interned(st, hash, s);
      && Sound(st') && id < |st'.offsets|
      && (Lookup(st', hash, s) == Some(id) <==> |s| < U16)
  {
    ScanFindsMember(st, Bucket(st.lookup, hash(s)), s);
    AddedIsSound(st, hash, s);
    AddedLookup(st, hash, s, s);
    if |s| >= U16 {
      LongIsNotFound(st, hash, s);
      LongIsNotFound(Added(st, hash, s).0, hash, s);
    }
  }

  predicate AllHaveRoom(st: Store, inputs: seq<seq<Byte>>) {
    |st.arena| + Total(inputs) < U32 && |st.offsets| + |inputs| <= U32
  }

  lemma RoomNext(st: Store, hash: Hash, inputs: seq<seq<Byte>>)
    requires inputs != [] && AllHaveRoom(st, inputs)
    ensures Room(st) && AllHaveRoom(Interned(st, hash, inputs[0]).0, inputs[1..])
  {
  }

  /** What is found once is found at the same id, with its bytes, to the end of the run. */
  lemma {:induction false} RunKeepsFound(st: Store, hash: Hash, inputs: seq<seq<Byte>>, t: seq<Byte>)
    requires Sound(st) && AllHaveRoom(st, inputs)
    ensures var end := InternAll(st, hash, inputs).0;
      Sound(end) && (Lookup(st, hash, t).Some? ==> Lookup(end, hash, t) == Lookup(st, hash, t))
    decreases |inputs|
  {
    if inputs != [] {
      RoomNext(st, hash, inputs);
      AddedIsSound(st, hash, inputs[0]);
      AddedLookup(st, hash, inputs[0], t);
      RunKeepsFound(Interned(st, hash, inputs[0]).0, hash, inputs[1..], t);
    }
  }

  /** Over any run that has room, long strings included, a short input is found in the end at the
      id returned for it, which still names its bytes. */
  lemma {:induction false} ShortInputsAreFound(st: Store, hash: Hash, inputs: seq<seq<Byte>>, i: nat)
    requires Sound(st) && AllHaveRoom(st, inputs) && i < |inputs| && |inputs[i]| < U16
    ensures var (end, ids) := InternAll(st, hash, inputs);
      Lookup(end, hash, inputs[i]) == Some(ids[i]) && BytesAt(end, ids[i]) == Some(inputs[i])
    decreases |inputs|
  {
    var (st', id) := Interned(st, hash, inputs[0]);
    RoomNext(st, hash, inputs);
    FoundAgainIffLengthFits(st, hash, inputs[0]);
    if i == 0 {
      RunKeepsFound(st', hash, inputs[1..], inputs[0]);
      var end := InternAll(st, hash, inputs).0;
      ScanFindsMember(end, Bucket(end.lookup, hash(inputs[0])), inputs[0]);
    } else {
      ShortInputsAreFound(st', hash, inputs[1..], i - 1);
    }
  }

  /** Two short inputs of such a run have one id exactly when their bytes are equal. */
  lemma ShortIdsEqualIffBytesEqual(hash: Hash, inputs: seq<seq<Byte>>, i: nat, j: nat)
    requires AllHaveRoom(Empty, inputs) && i < |inputs| && j < |inputs| && |inputs[i]| < U16 && |inputs[j]| < U16
    ensures var ids := InternAll(Empty, hash, inputs).1; ids[i] == ids[j] <==> inputs[i] == inputs[j]
  {
    ShortInputsAreFound(Empty, hash, inputs, i);
    ShortInputsAreFound(Empty, hash, inputs, j);
  }

  lemma {:induction false} LongIdIsLater(st: Store, hash: Hash, inputs: seq<seq<Byte>>, j: nat)
    requires Sound(st) && AllHaveRoom(st, inputs) && j < |inputs| && |inputs[j]| >= U16
    ensures InternAll(st, hash, inputs).1[j] >= |st.offsets|
    decreases |inputs|
  {
    RoomNext(st, hash, inputs);
    FoundAgainIffLengthFits(st, hash, inputs[0]);
    if j == 0 {
      LongIsNotFound(st, hash, inputs[0]);
    } else {
      LongIdIsLater(Interned(st, hash, inputs[0]).0, hash, inputs[1..], j - 1);
    }
  }

  /** A long input gets an id that no earlier input has, its own earlier occurrences included. */
  lemma {:induction false} LongIdIsNew(st: Store, hash: Hash, inputs: seq<seq<Byte>>, i: nat, j: nat)
    requires Sound(st) && AllHaveRoom(st, inputs) && i < j < |inputs| && |inputs[j]| >= U16
    ensures InternAll(st, hash, inputs).1[i] != InternAll(st, hash, inputs).1[j]
    decreases |inputs|
  {
    var st' := Interned(st, hash, inputs[0]).0;
    RoomNext(st, hash, inputs);
    FoundAgainIffLengthFits(st, hash, inputs[0]);
    if i == 0 {
      LongIdIsLater(st', hash, inputs[1..], j - 1);
    } else {
      LongIdIsNew(st', hash, inputs[1..], i - 1, j - 1);
    }
  }

  // ---------------------------------------------------------------- rebuilding after such runs

  /** What an entry holds of the string it was added for. */
  function Cut(s: seq<Byte>): seq<Byte> { s[..|s| % U16] }

  lemma CutTwice(s: seq<Byte>)
    ensures Cut(Cut(s)) == Cut(s) && (|s| < U16 ==> Cut(s) == s)
  {
  }

  /** The table that files each word's place under the hash of the word. */
  function Filed(words: seq<seq<Byte>>, hash: Hash): map<nat, seq<nat>> {
    if words == [] then map[]
    else
      var n := |words| - 1;
      Push(Filed(words[..n], hash), hash(words[n]), n)
  }

  /** The store came from adding these words: entries hold them cut, buckets file them whole. */
  predicate Holds(st: Store, hash: Hash, words: seq<seq<Byte>>) {
    && |st.offsets| == |words|
    && (forall i :: 0 <= i < |words| ==> BytesAt(st, i) == Some(Cut(words[i])))
    && st.lookup == Filed(words, hash)
  }

  lemma {:induction false} FiledIds(words: seq<seq<Byte>>, hash: Hash, h: nat)
    ensures forall id :: id in Bucket(Filed(words, hash), h) <==> 0 <= id < |words| && hash(words[id]) == h
  {
    if words != [] {
      var n := |words| - 1;
      FiledIds(words[..n], hash, h);
      assert forall id :: 0 <= id < n ==> words[..n][id] == words[id];
    }
  }

  lemma AddedHolds(st: Store, hash: Hash, words: seq<seq<Byte>>, s: seq<Byte>)
    requires Sound(st) && Room(st) && Holds(st, hash, words)
    ensures Holds(Added(st, hash, s).0, hash, words + [s])
  {
    AddedEntries(st, hash, s);
    assert (words + [s])[..|words|] == words;
    var st' := Added(st, hash, s).0;
    forall i | 0 <= i < |words| + 1 ensures BytesAt(st', i) == Some(Cut((words + [s])[i])) {
      if i < |words| { assert BytesAt(st, i) == Some(Cut(words[i])); }
    }
  }

  /** The first of the words that leaves the bytes `s` in its entry. */
  function FirstCut(words: seq<seq<Byte>>, s: seq<Byte>): (r: Option<seq<Byte>>)
    ensures r.Some? ==> r.value in words && Cut(r.value) == s
    ensures r.None? ==> forall w :: w in words ==> Cut(w) != s
  {
    if words == [] then None
    else
      var n := |words| - 1;
      var before := FirstCut(words[..n], s);
      if before.Some? then before else if Cut(words[n]) == s then Some(words[n]) else None
  }

  lemma {:induction false} FirstCutConcat(a: seq<seq<Byte>>, b: seq<seq<Byte>>, s: seq<Byte>)
    ensures FirstCut(a + b, s) == if FirstCut(a, s).Some? then FirstCut(a, s) else FirstCut(b, s)
  {
    if b == [] {
      assert a + b == a;
    } else {
      var n := |b| - 1;
      assert (a + b)[..|a + b| - 1] == a + b[..n] && (a + b)[|a + b| - 1] == b[n];
      FirstCutConcat(a, b[..n], s);
    }
  }

  lemma FoundIsHeld(st: Store, hash: Hash, words: seq<seq<Byte>>, s: seq<Byte>)
    requires Sound(st) && Holds(st, hash, words) && Lookup(st, hash, s).Some?
    ensures |s| < U16 && FirstCut(words, s).Some?
  {
    ScanFindsMember(st, Bucket(st.lookup, hash(s)), s);
    var id := Lookup(st, hash, s).value;
    assert BytesAt(st, id) == Some(Cut(words[id])) && words[id] in words;
  }

  /** The words that a run adds: for what a reader of entries can tell, they are its inputs. */
  lemma {:induction false} RunHolds(st: Store, hash: Hash, words: seq<seq<Byte>>, inputs: seq<seq<Byte>>, s: seq<Byte>)
    returns (all: seq<seq<Byte>>)
    requires Sound(st) && AllHaveRoom(st, inputs) && Holds(st, hash, words)
    ensures Holds(InternAll(st, hash, inputs).0, hash, all)
    ensures FirstCut(all, s) == FirstCut(words + inputs, s)
    ensures forall w :: |w| >= U16 ==> (w in all <==> w in words + inputs)
    decreases |inputs|
  {
    if inputs == [] {
      all := words;
      assert words + inputs == words;
    } else {
      var x, rest := inputs[0], inputs[1..];
      var st' := Interned(st, hash, x).0;
      RoomNext(st, hash, inputs);
      FoundAgainIffLengthFits(st, hash, x);
      assert words + inputs == words + [x] + rest;
      if Lookup(st, hash, x).Some? {
        FoundIsHeld(st, hash, words, x);
        all := RunHolds(st', hash, words, rest, s);
        SkipKnown(words, x, rest, s);
      } else {
        AddedHolds(st, hash, words, x);
        all := RunHolds(st', hash, words + [x], rest, s);
      }
    }
  }

  lemma SkipKnown(words: seq<seq<Byte>>, x: seq<Byte>, rest: seq<seq<Byte>>, s: seq<Byte>)
    requires |x| < U16 && FirstCut(words, x).Some?
    ensures FirstCut(words + [x] + rest, s) == FirstCut(words + rest, s)
  {
    FirstCutConcat(words + [x], rest, s);
    FirstCutConcat(words, rest, s);
    CutTwice(x);
    assert (words + [x])[..|words|] == words;
  }

  /** The place of the first word that leaves the bytes `s` and is filed under their hash. */
  function FirstFiled(words: seq<seq<Byte>>, hash: Hash, s: seq<Byte>): (r: Option<nat>)
    ensures r.Some? ==> r.value < |words|
  {
    if words == [] then None
    else
      var n := |words| - 1;
      var before := FirstFiled(words[..n], hash, s);
      if before.Some? then before else if Cut(words[n]) == s && hash(words[n]) == hash(s) then Some(n) else None
  }

  lemma {:induction false} ScanFiled(st: Store, hash: Hash, words: seq<seq<Byte>>, n: nat, s: seq<Byte>)
    requires n <= |words| == |st.offsets| && forall i :: 0 <= i < |words| ==> BytesAt(st, i) == Some(Cut(words[i]))
    ensures Scan(st, Bucket(Filed(words[..n], hash), hash(s)), s) == FirstFiled(words[..n], hash, s)
  {
    if n > 0 {
      assert words[..n][..n - 1] == words[..n - 1];
      ScanFiled(st, hash, words, n - 1, s);
      ScanSnoc(st, Bucket(Filed(words[..n - 1], hash), hash(s)), n - 1, s);
    }
  }

  lemma HeldLookup(st: Store, hash: Hash, words: seq<seq<Byte>>, s: seq<Byte>)
    requires Holds(st, hash, words)
    ensures Lookup(st, hash, s) == FirstFiled(words, hash, s)
  {
    assert words[..|words|] == words;
    ScanFiled(st, hash, words, |words|, s);
  }

  function Cuts(words: seq<seq<Byte>>): (r: seq<seq<Byte>>)
    ensures |r| == |words| && forall i :: 0 <= i < |words| ==> r[i] == Cut(words[i])
  {
    seq(|words|, i requires 0 <= i < |words| => Cut(words[i]))
  }

  lemma {:induction false} TableIsFiled(arena: seq<Byte>, offsets: seq<(nat, nat)>, words: seq<seq<Byte>>, n: nat, hash: Hash)
    requires n <= |offsets| == |words| <= U32
    requires forall i :: 0 <= i < |words| ==> Slice(arena, offsets[i]) == Some(words[i])
    ensures Table(arena, offsets, n, hash) == Filed(words[..n], hash)
  {
    if n > 0 {
      assert words[..n][..n - 1] == words[..n - 1];
      TableIsFiled(arena, offsets, words, n - 1, hash);
    }
  }

  /** A rebuilt store files each entry under the hash of the bytes it holds. */
  lemma RebuiltHolds(st: Store, hash: Hash, words: seq<seq<Byte>>)
    requires Holds(st, hash, words) && |words| <= U32
    ensures Holds(Rebuilt(st.arena, st.offsets, hash), hash, Cuts(words))
  {
    var held := Cuts(words);
    forall i | 0 <= i < |held|
      ensures Slice(st.arena, st.offsets[i]) == Some(held[i]) && Cut(held[i]) == held[i]
    {
      assert BytesAt(st, i) == Some(Cut(words[i]));
      CutTwice(words[i]);
    }
    TableIsFiled(st.arena, st.offsets, held, |held|, hash);
    assert held[..|held|] == held;
  }

  /** Filed whole or cut, a string is found at the same place unless the first entry with its
      bytes belongs to a word of another hash. */
  lemma {:induction false} FiledWholeOrCut(words: seq<seq<Byte>>, hash: Hash, s: seq<Byte>)
    ensures var w := FirstCut(words, s); var cut, whole := FirstFiled(Cuts(words), hash, s), FirstFiled(words, hash, s);
      && (cut.Some? <==> w.Some?) && (whole.Some? ==> w.Some?)
      && (cut.Some? ==> words[cut.value] == w.value)
      && (cut != whole <==> w.Some? && hash(w.value) != hash(s))
  {
    if words != [] {
      var n := |words| - 1;
      assert Cuts(words)[..n] == Cuts(words[..n]);
      CutTwice(words[n]);
      FiledWholeOrCut(words[..n], hash, s);
    }
  }

  /** After any run that has room, long strings included, rebuilding from arena and offsets changes
      the lookup of `s` exactly when the first input that is `s` up to its length modulo 2^16 has
      another hash: the rebuild files the prefix of a long string, not the string. */
  lemma RebuiltDiffersIff(hash: Hash, inputs: seq<seq<Byte>>, s: seq<Byte>)
    requires AllHaveRoom(Empty, inputs)
    ensures var end := InternAll(Empty, hash, inputs).0; var first := FirstCut(inputs, s);
      (Lookup(Rebuilt(end.arena, end.offsets, hash), hash, s) != Lookup(end, hash, s))
      <==> first.Some? && hash(first.value) != hash(s)
  {
    var end := InternAll(Empty, hash, inputs).0;
    var words := RunHolds(Empty, hash, [], inputs, s);
    assert [] + inputs == inputs;
    RunKeepsFound(Empty, hash, inputs, s);
    RebuiltHolds(end, hash, words);
    HeldLookup(end, hash, words, s);
    HeldLookup(Rebuilt(end.arena, end.offsets, hash), hash, Cuts(words), s);
    FiledWholeOrCut(words, hash, s);
  }

  /** So the store of one long string answers for its prefix otherwise once it is rebuilt. */
  lemma RebuildMovesPrefix(hash: Hash, w: seq<Byte>)
    requires U16 <= |w| < U32 && hash(Cut(w)) != hash(w)
    ensures var end := InternAll(Empty, hash, [w]).0;
      Lookup(Rebuilt(end.arena, end.offsets, hash), hash, Cut(w)) != Lookup(end, hash, Cut(w))
  {
    assert Total([w][1..]) == 0;
    assert [w][..0] == [];
    RebuiltDiffersIff(hash, [w], Cut(w));
  }

  lemma {:induction false} FiledSame(a: seq<seq<Byte>>, b: seq<seq<Byte>>, hash: Hash)
    requires |a| == |b| && forall i :: 0 <= i < |a| ==> hash(a[i]) == hash(b[i])
    ensures Filed(a, hash) == Filed(b, hash)
  {
    if a != [] { FiledSame(a[..|a| - 1], b[..|b| - 1], hash); }
  }

  /** The rebuilt store is the whole store exactly when no long input has another hash than the
      prefix that its entry holds. */
  lemma FromPartsRestoresIff(hash: Hash, inputs: seq<seq<Byte>>)
    requires AllHaveRoom(Empty, inputs)
    ensures var end := InternAll(Empty, hash, inputs).0;
      Rebuilt(end.arena, end.offsets, hash) == end <==> forall w :: w in inputs ==> hash(Cut(w)) == hash(w)
  {
    var end := InternAll(Empty, hash, inputs).0;
    var words := RunHolds(Empty, hash, [], inputs, []);
    assert [] + inputs == inputs;
    RunKeepsFound(Empty, hash, inputs, []);
    RebuiltHolds(end, hash, words);
    if forall w :: w in inputs ==> hash(Cut(w)) == hash(w) {
      forall i | 0 <= i < |words| ensures hash(Cuts(words)[i]) == hash(words[i]) { KeptHash(hash, inputs, words, i); }
      FiledSame(Cuts(words), words, hash);
    } else {
      var w :| w in inputs && hash(Cut(w)) != hash(w);
      CutTwice(w);
      var i :| 0 <= i < |words| && words[i] == w;
      FiledIds(words, hash, hash(w));
      FiledIds(Cuts(words), hash, hash(w));
      assert i in Bucket(end.lookup, hash(w)) && i !in Bucket(Filed(Cuts(words), hash), hash(w));
    }
  }

  lemma KeptHash(hash: Hash, inputs: seq<seq<Byte>>, words: seq<seq<Byte>>, i: nat)
    requires i < |words| && forall w :: |w| >= U16 ==> (w in words <==> w in inputs)
    requires forall w :: w in inputs ==> hash(Cut(w)) == hash(w)
    ensures hash(Cut(words[i])) == hash(words[i])
  {
    CutTwice(words[i]);
    assert words[i] in words;
  }
}
