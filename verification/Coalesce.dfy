/** The index manager: file events coalesced by path, applied in one batch, and compared with
    applying them one by one. */
module Coalesce {
  import opened Bytes

  type Path = string

  /** What indexing one file yields. */
  type Entry = string

  type Index = map<Path, Entry>

  /** The files that can be read and parsed, each with the entry it yields. */
  type Files = map<Path, Entry>

  datatype Kind = Created | Modified | Removed | Renamed

  datatype Event = Event(paths: seq<Path>, kind: Kind)

  datatype Update = Update(path: Path, kind: Kind)

  datatype Config = Config(supported: Path -> bool, hidden: Path -> bool) {
    predicate ShouldIndex(p: Path) { supported(p) && !hidden(p) }
  }

  function Get<K, V>(m: map<K, V>, k: K): Option<V> { if k in m then Some(m[k]) else None }

  function Put<K, V>(m: map<K, V>, k: K, v: Option<V>): map<K, V> { if v.Some? then m[k := v.value] else m - {k} }

  // ---------------------------------------------------------------- coalescing

  /** A rename with both paths removes the first and creates the second; any other event is the
      same update on each of its paths. */
  function UpdatesOf(e: Event): seq<Update> {
    if e.kind.Renamed? && |e.paths| >= 2 then [Update(e.paths[0], Removed), Update(e.paths[1], Created)]
    else seq(|e.paths|, i requires 0 <= i < |e.paths| => Update(e.paths[i], e.kind))
  }

  predicate Writes(k: Kind) { k.Created? || k.Modified? }

  function Merge(prev: Option<Kind>, kind: Kind): Option<Kind> {
    if prev.Some? && Writes(prev.value) && kind.Removed? then None
    else if prev == Some(Removed) && Writes(kind) then Some(Created)
    else Some(kind)
  }

  function Inserted(events: map<Path, Kind>, u: Update): map<Path, Kind> {
    Put(events, u.path, Merge(Get(events, u.path), u.kind))
  }

  function InsertAll(events: map<Path, Kind>, us: seq<Update>): map<Path, Kind> {
    if us == [] then events else Inserted(InsertAll(events, us[..|us| - 1]), us[|us| - 1])
  }

  class CoalescedEvents {
    var events: map<Path, Kind>

    constructor ()
      ensures events == map[]
    {
      events := map[];
    }

    method Insert(path: Path, kind: Kind)
      modifies this
      ensures events == Inserted(old(events), Update(path, kind))
    {
      if path !in events {
        events := events[path := kind];
      } else {
        match (events[path], kind)
        case (Created, Removed) => events := events - {path};
        case (Modified, Removed) => events := events - {path};
        case (Removed, Created) => events := events[path := Created];
        case (Removed, Modified) => events := events[path := Created];
        case _ => events := events[path := kind];
      }
    }

    method Add(e: Event)
      modifies this
      ensures events == InsertAll(old(events), UpdatesOf(e))
    {
      ghost var us := UpdatesOf(e);
      if e.kind.Renamed? && |e.paths| >= 2 {
        Insert(e.paths[0], Removed);
        Insert(e.paths[1], Created);
        InsertPair(old(events), us[0], us[1]);
        return;
      }
      for i := 0 to |e.paths|
        invariant events == InsertAll(old(events), us[..i])
      {
        Insert(e.paths[i], e.kind);
        assert us[..i + 1][..i] == us[..i];
      }
      assert us[..|us|] == us;
    }
  }

  lemma InsertPair(events: map<Path, Kind>, a: Update, b: Update)
    ensures InsertAll(events, [a, b]) == Inserted(Inserted(events, a), b)
  {
    assert [a][..0] == [];
    assert InsertAll(events, [a]) == Inserted(events, a);
    assert [a, b][..1] == [a];
  }

  lemma {:induction false} InsertAllConcat(events: map<Path, Kind>, a: seq<Update>, b: seq<Update>)
    ensures InsertAll(InsertAll(events, a), b) == InsertAll(events, a + b)
  {
    if b == [] {
      assert a + b == a;
    } else {
      var n := |b| - 1;
      assert (a + b)[..|a + b| - 1] == a + b[..n];
      InsertAllConcat(events, a, b[..n]);
    }
  }

  // ---------------------------------------------------------------- applying a batch

  /** What an update of a path leaves there, given the files of the moment. */
  function Effect(before: Option<Entry>, u: Update, files: Files, cfg: Config): Option<Entry> {
    if !cfg.ShouldIndex(u.path) then before else if u.kind.Removed? then None else Get(files, u.path)
  }

  function FlushedAt(index: Index, events: map<Path, Kind>, p: Path, files: Files, cfg: Config): Option<Entry> {
    if p in events then Effect(Get(index, p), Update(p, events[p]), files, cfg) else Get(index, p)
  }

  function Flushed(index: Index, events: map<Path, Kind>, files: Files, cfg: Config): Index {
    map p | p in index.Keys + events.Keys && FlushedAt(index, events, p, files, cfg).Some? ::
      FlushedAt(index, events, p, files, cfg).value
  }

  function CountedIn(ps: set<Path>, cfg: Config): set<Path> { set p | p in ps && cfg.ShouldIndex(p) }

  datatype Command =
    | FileEvent(event: Event)
    | FileEventBatch(events: seq<Event>)
    | Rebuild(rebuilt: Index)
    | BackgroundRefresh(stale: seq<Path>, deleted: seq<Path>)
    | Query
    | Shutdown

  predicate IsFileCommand(c: Command) { c.FileEvent? || c.FileEventBatch? }

  function BatchUpdates(es: seq<Event>): seq<Update> {
    if es == [] then [] else BatchUpdates(es[..|es| - 1]) + UpdatesOf(es[|es| - 1])
  }

  function CommandUpdates(c: Command): seq<Update> {
    if c.FileEvent? then UpdatesOf(c.event) else if c.FileEventBatch? then BatchUpdates(c.events) else []
  }

  /** `queue` is what has arrived by the time a drain finds the channel empty; `answers` are the
      indexes that queries have been answered from. */
  datatype State = State(index: Index, updates: nat, queue: seq<Command>, answers: seq<Index>)

  function Reindexed(index: Index, p: Path, files: Files): Index { Put(index, p, Get(files, p)) }

  function ReindexedAll(index: Index, ps: seq<Path>, files: Files, cfg: Config): Index {
    if ps == [] then index
    else
      var before, p := ReindexedAll(index, ps[..|ps| - 1], files, cfg), ps[|ps| - 1];
      if cfg.supported(p) then Reindexed(before, p, files) else before
  }

  function Refreshed(index: Index, stale: seq<Path>, deleted: seq<Path>, files: Files, cfg: Config): Index {
    ReindexedAll(index - (set p | p in deleted), stale, files, cfg)
  }

  function Applied(st: State, events: map<Path, Kind>, files: Files, cfg: Config): State {
    st.(index := Flushed(st.index, events, files, cfg), updates := st.updates + |CountedIn(events.Keys, cfg)|)
  }

  /** The commands that are no file events; the flag tells whether to go on. */
  function Handled(st: State, c: Command, files: Files, cfg: Config): (State, bool) {
    match c
    case Rebuild(rebuilt) => (st.(index := rebuilt), true)
    case BackgroundRefresh(stale, deleted) => (st.(index := Refreshed(st.index, stale, deleted, files, cfg)), true)
    case Query => (st.(answers := st.answers + [st.index]), true)
    case Shutdown => (st, false)
    case _ => (st, true)
  }

  /** How many commands a drain takes before it meets one that is no file event. */
  function DrainLength(queue: seq<Command>): (n: nat)
    ensures n <= |queue| && (forall i :: 0 <= i < n ==> IsFileCommand(queue[i])) && (n < |queue| ==> !IsFileCommand(queue[n]))
  {
    if queue == [] || !IsFileCommand(queue[0]) then 0 else 1 + DrainLength(queue[1..])
  }

  function QueueUpdates(cs: seq<Command>): seq<Update> {
    if cs == [] then [] else QueueUpdates(cs[..|cs| - 1]) + CommandUpdates(cs[|cs| - 1])
  }

  /** A single event drains the file events behind it and flushes before anything else is
      handled; a batch is flushed at once. */
  function Processed(st: State, c: Command, files: Files, cfg: Config): (State, bool) {
    match c
    case FileEvent(e) =>
      var n := DrainLength(st.queue);
      var events := InsertAll(map[], UpdatesOf(e) + QueueUpdates(st.queue[..n]));
      if n < |st.queue| then Handled(Applied(st.(queue := st.queue[n + 1..]), events, files, cfg), st.queue[n], files, cfg)
      else (Applied(st.(queue := []), events, files, cfg), true)
    case FileEventBatch(es) => (Applied(st, InsertAll(map[], BatchUpdates(es)), files, cfg), true)
    case _ => Handled(st, c, files, cfg)
  }

  lemma CountOneMore(all: set<Path>, left: set<Path>, p: Path, cfg: Config)
    requires left <= all && p in left
    ensures |CountedIn(all - (left - {p}), cfg)| == |CountedIn(all - left, cfg)| + if cfg.ShouldIndex(p) then 1 else 0
  {
    var a, b := CountedIn(all - left, cfg), CountedIn(all - (left - {p}), cfg);
    if cfg.ShouldIndex(p) { assert b == a + {p}; } else { assert b == a; }
  }

  /** All entries but those in `left` have been applied. */
  ghost predicate HalfApplied(before: Index, index: Index, events: map<Path, Kind>, left: set<Path>, files: Files, cfg: Config) {
    forall p :: Get(index, p) == if p in left then Get(before, p) else FlushedAt(before, events, p, files, cfg)
  }

  lemma HalfStart(before: Index, events: map<Path, Kind>, files: Files, cfg: Config)
    ensures HalfApplied(before, before, events, events.Keys, files, cfg)
  {
  }

  lemma HalfStep(before: Index, index: Index, index': Index, events: map<Path, Kind>, left: set<Path>, p: Path, files: Files, cfg: Config)
    requires HalfApplied(before, index, events, left, files, cfg) && p in left && p in events
    requires index' == Put(index, p, Effect(Get(index, p), Update(p, events[p]), files, cfg))
    ensures HalfApplied(before, index', events, left - {p}, files, cfg)
  {
    forall q ensures Get(index', q) == if q in left - {p} then Get(before, q) else FlushedAt(before, events, q, files, cfg) {
      assert Get(index, q) == if q in left then Get(before, q) else FlushedAt(before, events, q, files, cfg);
    }
  }

  lemma WholeApplied(before: Index, index: Index, events: map<Path, Kind>, files: Files, cfg: Config)
    requires HalfApplied(before, index, events, {}, files, cfg)
    ensures index == Flushed(before, events, files, cfg)
  {
    var flushed := Flushed(before, events, files, cfg);
    forall p ensures Get(index, p) == Get(flushed, p) { FlushedLookup(before, events, p, files, cfg); }
    SameLookups(index, flushed);
  }

  lemma FlushedLookup(index: Index, events: map<Path, Kind>, p: Path, files: Files, cfg: Config)
    ensures Get(Flushed(index, events, files, cfg), p) == FlushedAt(index, events, p, files, cfg)
  {
  }

  class IndexManager {
    const cfg: Config
    var index: Index
    var updates: nat
    var queue: seq<Command>
    var answers: seq<Index>

    function Now(): State
      reads this
    { State(index, updates, queue, answers) }

    constructor (cfg: Config, index: Index)
      ensures this.cfg == cfg && Now() == State(index, 0, [], [])
    {
      this.cfg := cfg;
      this.index, updates, queue, answers := index, 0, [], [];
    }

    method ReindexFile(p: Path, files: Files)
      requires cfg.supported(p)
      modifies `index
      ensures index == Reindexed(old(index), p, files)
    {
      index := index - {p};
      if p in files { index := index[p := files[p]]; }
    }

    method RemoveFile(p: Path)
      modifies `index
      ensures index == old(index) - {p}
    {
      index := index - {p};
    }

    method ApplyEntry(p: Path, kind: Kind, files: Files)
      modifies `index, `updates
      ensures index == Put(old(index), p, Effect(Get(old(index), p), Update(p, kind), files, cfg))
      ensures updates == old(updates) + if cfg.ShouldIndex(p) then 1 else 0
    {
      match kind {
        case Created => if cfg.ShouldIndex(p) { ReindexFile(p, files); updates := updates + 1; }
        case Modified => if cfg.ShouldIndex(p) { ReindexFile(p, files); updates := updates + 1; }
        case Removed => if cfg.ShouldIndex(p) { RemoveFile(p); updates := updates + 1; }
        case Renamed => if cfg.ShouldIndex(p) { ReindexFile(p, files); updates := updates + 1; }
      }
    }

    /** The entries of the batch are taken in an arbitrary order. */
    method ApplyCoalesced(coalesced: CoalescedEvents, files: Files)
      modifies `index, `updates
      ensures Now() == Applied(old(Now()), coalesced.events, files, cfg)
    {
      var events := coalesced.events;
      var left := events.Keys;
      ghost var before, count := index, updates;
      HalfStart(before, events, files, cfg);
      while left != {}
        invariant left <= events.Keys
        invariant HalfApplied(before, index, events, left, files, cfg)
        invariant updates == count + |CountedIn(events.Keys - left, cfg)|
        decreases |left|
      {
        var p :| p in left;
        ghost var index0 := index;
        ApplyEntry(p, events[p], files);
        CountOneMore(events.Keys, left, p, cfg);
        HalfStep(before, index0, index, events, left, p, files, cfg);
        left := left - {p};
      }
      assert events.Keys - {} == events.Keys;
      WholeApplied(before, index, events, files, cfg);
    }

    method ProcessBackgroundRefresh(stale: seq<Path>, deleted: seq<Path>, files: Files)
      modifies `index
      ensures index == Refreshed(old(index), stale, deleted, files, cfg)
    {
      for i := 0 to |deleted|
        invariant index == old(index) - (set p | p in deleted[..i])
      {
        RemoveFile(deleted[i]);
        assert deleted[..i + 1] == deleted[..i] + [deleted[i]];
      }
      assert deleted[..|deleted|] == deleted;
      ghost var kept := index;
      for i := 0 to |stale|
        invariant index == ReindexedAll(kept, stale[..i], files, cfg)
      {
        if cfg.supported(stale[i]) { ReindexFile(stale[i], files); }
        assert stale[..i + 1][..i] == stale[..i];
      }
      assert stale[..|stale|] == stale;
    }

    method Handle(c: Command, files: Files) returns (keep: bool)
      requires !IsFileCommand(c)
      modifies this
      ensures (Now(), keep) == Handled(old(Now()), c, files, cfg)
    {
      keep := true;
      match c {
        case Rebuild(rebuilt) => index := rebuilt;
        case BackgroundRefresh(stale, deleted) => ProcessBackgroundRefresh(stale, deleted, files);
        case Query => answers := answers + [index];
        case Shutdown => keep := false;
      }
    }

    method ProcessCommandCoalesced(c: Command, files: Files) returns (keep: bool)
      modifies this
      ensures (Now(), keep) == Processed(old(Now()), c, files, cfg)
    {
      match c {
        case FileEvent(e) =>
          keep := DrainAndFlush(e, files);
        case FileEventBatch(es) =>
          var coalesced := new CoalescedEvents();
          AddBatch(coalesced, es);
          ApplyCoalesced(coalesced, files);
          keep := true;
        case _ =>
          keep := Handle(c, files);
      }
    }

    method AddBatch(coalesced: CoalescedEvents, es: seq<Event>)
      modifies coalesced
      ensures coalesced.events == InsertAll(old(coalesced.events), BatchUpdates(es))
    {
      for k := 0 to |es|
        invariant coalesced.events == InsertAll(old(coalesced.events), BatchUpdates(es[..k]))
      {
        coalesced.Add(es[k]);
        assert es[..k + 1][..k] == es[..k];
        InsertAllConcat(old(coalesced.events), BatchUpdates(es[..k]), UpdatesOf(es[k]));
      }
      assert es[..|es|] == es;
    }

    /** Takes the file events that are waiting, up to a command of another kind. */
    method Drain(coalesced: CoalescedEvents) returns (other: Option<Command>)
      modifies `queue, coalesced
      ensures var n := DrainLength(old(queue));
        && coalesced.events == InsertAll(old(coalesced.events), QueueUpdates(old(queue)[..n]))
        && other == (if n < |old(queue)| then Some(old(queue)[n]) else None)
        && queue == if n < |old(queue)| then old(queue)[n + 1..] else []
    {
      ghost var q, events0, n := queue, coalesced.events, 0;
      while queue != []
        invariant n <= DrainLength(q) && queue == q[n..]
        invariant coalesced.events == InsertAll(events0, QueueUpdates(q[..n]))
        decreases |queue|
      {
        var cmd := queue[0];
        queue := queue[1..];
        if !IsFileCommand(cmd) {
          assert n == DrainLength(q);
          return Some(cmd);
        }
        AddCommand(coalesced, cmd);
        DrainAdvance(q, n, events0);
        n := n + 1;
      }
      assert n == DrainLength(q) == |q|;
      other := None;
    }

    method AddCommand(coalesced: CoalescedEvents, c: Command)
      requires IsFileCommand(c)
      modifies coalesced
      ensures coalesced.events == InsertAll(old(coalesced.events), CommandUpdates(c))
    {
      match c {
        case FileEvent(e) => coalesced.Add(e);
        case FileEventBatch(batch) => AddBatch(coalesced, batch);
      }
    }

    method DrainAndFlush(e: Event, files: Files) returns (keep: bool)
      modifies this
      ensures (Now(), keep) == Processed(old(Now()), FileEvent(e), files, cfg)
    {
      var coalesced := new CoalescedEvents();
      coalesced.Add(e);
      var other := Drain(coalesced);
      InsertAllConcat(map[], UpdatesOf(e), QueueUpdates(old(queue)[..DrainLength(old(queue))]));
      ApplyCoalesced(coalesced, files);
      keep := true;
      if other.Some? { keep := Handle(other.value, files); }
    }
  }

  lemma DrainAdvance(queue: seq<Command>, n: nat, events: map<Path, Kind>)
    requires n < |queue|
    ensures InsertAll(InsertAll(events, QueueUpdates(queue[..n])), CommandUpdates(queue[n]))
      == InsertAll(events, QueueUpdates(queue[..n + 1]))
  {
    QueueGrows(queue, n);
    InsertAllConcat(events, QueueUpdates(queue[..n]), CommandUpdates(queue[n]));
  }

  lemma QueueGrows(queue: seq<Command>, n: nat)
    requires n < |queue|
    ensures QueueUpdates(queue[..n + 1]) == QueueUpdates(queue[..n]) + CommandUpdates(queue[n])
  {
    assert queue[..n + 1][..n] == queue[..n];
  }

  lemma SameLookups<K, V>(a: map<K, V>, b: map<K, V>)
    requires forall k :: Get(a, k) == Get(b, k)
    ensures a == b
  {
    assert forall k :: k in a <==> Get(a, k).Some?;
    assert forall k :: k in b <==> Get(b, k).Some?;
  }

  // ---------------------------------------------------------------- against one-by-one replay

  function Replay(index: Index, us: seq<Update>, files: Files, cfg: Config): Index {
    if us == [] then index
    else
      var before, u := Replay(index, us[..|us| - 1], files, cfg), us[|us| - 1];
      Put(before, u.path, Effect(Get(before, u.path), u, files, cfg))
  }

  /** The kinds of the updates of one path, in order. */
  function Kinds(us: seq<Update>, p: Path): seq<Kind> {
    if us == [] then []
    else
      var before, u := Kinds(us[..|us| - 1], p), us[|us| - 1];
      if u.path == p then before + [u.kind] else before
  }

  /** A removal directly after a create or modify of the same path cancels both. */
  predicate Cancels(ks: seq<Kind>) { |ks| >= 2 && Writes(ks[|ks| - 2]) && ks[|ks| - 1].Removed? }

  /** What is coalesced for a path is decided by its last two updates. */
  lemma {:induction false} CoalescedAt(us: seq<Update>, p: Path)
    ensures var e, ks := Get(InsertAll(map[], us), p), Kinds(us, p);
      && (e.None? <==> ks == [] || Cancels(ks))
      && (e.Some? ==> (e.value.Removed? <==> ks[|ks| - 1].Removed?))
      && (e.Some? && Writes(e.value) <==> ks != [] && Writes(ks[|ks| - 1]))
  {
    if us != [] {
      CoalescedAt(us[..|us| - 1], p);
    }
  }

  lemma {:induction false} ReplayAt(index: Index, us: seq<Update>, p: Path, files: Files, cfg: Config)
    ensures var ks := Kinds(us, p);
      Get(Replay(index, us, files, cfg), p) ==
        if ks == [] || !cfg.ShouldIndex(p) then Get(index, p) else if ks[|ks| - 1].Removed? then None else Get(files, p)
  {
    if us != [] {
      ReplayAt(index, us[..|us| - 1], p, files, cfg);
    }
  }

  lemma BatchAt(index: Index, us: seq<Update>, p: Path, files: Files, cfg: Config)
    ensures var ks := Kinds(us, p);
      Get(Flushed(index, InsertAll(map[], us), files, cfg), p) ==
        if ks == [] || !cfg.ShouldIndex(p) || Cancels(ks) then Get(index, p)
        else if ks[|ks| - 1].Removed? then None else Get(files, p)
  {
    CoalescedAt(us, p);
    FlushedLookup(index, InsertAll(map[], us), p, files, cfg);
  }

  /** A flushed batch leaves a path as replay does, except exactly when the path was indexed and
      its last two updates cancel: then its earlier entry stays. */
  lemma FlushAgreesIff(index: Index, us: seq<Update>, p: Path, files: Files, cfg: Config)
    ensures Get(Flushed(index, InsertAll(map[], us), files, cfg), p) == Get(Replay(index, us, files, cfg), p)
      <==> !(p in index && cfg.ShouldIndex(p) && Cancels(Kinds(us, p)))
  {
    BatchAt(index, us, p, files, cfg);
    ReplayAt(index, us, p, files, cfg);
  }

  /** The whole indexes are equal exactly when no indexed path is cancelled. */
  lemma BatchAgreesIff(index: Index, us: seq<Update>, files: Files, cfg: Config)
    ensures Flushed(index, InsertAll(map[], us), files, cfg) == Replay(index, us, files, cfg)
      <==> forall p :: p in index && cfg.ShouldIndex(p) ==> !Cancels(Kinds(us, p))
  {
    var a, b := Flushed(index, InsertAll(map[], us), files, cfg), Replay(index, us, files, cfg);
    forall p ensures Get(a, p) == Get(b, p) <==> !(p in index && cfg.ShouldIndex(p) && Cancels(Kinds(us, p))) {
      FlushAgreesIff(index, us, p, files, cfg);
    }
    if forall p :: p in index && cfg.ShouldIndex(p) ==> !Cancels(Kinds(us, p)) {
      SameLookups(a, b);
    }
  }

  /** A modify and a removal in one batch leave the entry of a file that is gone. */
  lemma CancelledEntryIsStale(index: Index, p: Path, files: Files, cfg: Config)
    requires p in index && cfg.ShouldIndex(p) && p !in files
    ensures var us := [Update(p, Modified), Update(p, Removed)];
      && Get(Flushed(index, InsertAll(map[], us), files, cfg), p) == Some(index[p])
      && p !in Replay(index, us, files, cfg)
  {
    var us := [Update(p, Modified), Update(p, Removed)];
    assert us[..1] == [us[0]] && us[..1][..0] == [];
    assert Kinds(us[..1], p) == [Modified];
    assert Kinds(us, p) == [Modified, Removed];
    BatchAt(index, us, p, files, cfg);
    ReplayAt(index, us, p, files, cfg);
  }

  // ---------------------------------------------------------------- whole runs of the manager

  function OneByOne(st: State, c: Command, files: Files, cfg: Config): (State, bool) {
    if IsFileCommand(c) then (st.(index := Replay(st.index, CommandUpdates(c), files, cfg)), true)
    else Handled(st, c, files, cfg)
  }

  function StepAll(st: State, cs: seq<Command>, files: Files, cfg: Config): (State, bool) {
    if cs == [] then (st, true)
    else
      var (before, keep) := StepAll(st, cs[..|cs| - 1], files, cfg);
      if keep then OneByOne(before, cs[|cs| - 1], files, cfg) else (before, false)
  }

  /** One command received by the loop, what is waiting behind it when its drain ends, and the
      files of that moment. */
  datatype Round = Round(cmd: Command, waiting: seq<Command>, files: Files)

  /** The drain of the round takes all that is waiting. */
  predicate Complete(r: Round) {
    if r.cmd.FileEvent? then |r.waiting| <= DrainLength(r.waiting) + 1 else r.waiting == []
  }

  function RoundUpdates(r: Round): seq<Update> {
    CommandUpdates(r.cmd) + QueueUpdates(r.waiting[..DrainLength(r.waiting)])
  }

  /** The command of the round that is no file event, handled after its batch. */
  function Other(r: Round): Option<Command> {
    if r.cmd.FileEvent? then
      var n := DrainLength(r.waiting);
      if n < |r.waiting| then Some(r.waiting[n]) else None
    else if r.cmd.FileEventBatch? then None
    else Some(r.cmd)
  }

  function Finished(st: State, other: Option<Command>, files: Files, cfg: Config): (State, bool) {
    if other.Some? then Handled(st, other.value, files, cfg) else (st, true)
  }

  function ProcessedAll(st: State, rounds: seq<Round>, cfg: Config): State
    decreases |rounds|
  {
    if rounds == [] then st
    else
      var r := rounds[0];
      var (next, keep) := Processed(st.(queue := r.waiting), r.cmd, r.files, cfg);
      if keep then ProcessedAll(next, rounds[1..], cfg) else next
  }

  function OneByOneAll(st: State, rounds: seq<Round>, cfg: Config): State
    decreases |rounds|
  {
    if rounds == [] then st
    else
      var r := rounds[0];
      var (next, keep) := StepAll(st, [r.cmd] + r.waiting, r.files, cfg);
      if keep then OneByOneAll(next, rounds[1..], cfg) else next
  }

  /** The two states have the same entry for a path, and so had they at every answered query. */
  predicate AgreeAt(a: State, b: State, p: Path) {
    && Get(a.index, p) == Get(b.index, p)
    && |a.answers| == |b.answers|
    && forall i :: 0 <= i < |a.answers| ==> Get(a.answers[i], p) == Get(b.answers[i], p)
  }

  lemma {:induction false} ReindexAgrees(a: Index, b: Index, ps: seq<Path>, p: Path, files: Files, cfg: Config)
    requires Get(a, p) == Get(b, p)
    ensures Get(ReindexedAll(a, ps, files, cfg), p) == Get(ReindexedAll(b, ps, files, cfg), p)
  {
    if ps != [] { ReindexAgrees(a, b, ps[..|ps| - 1], p, files, cfg); }
  }

  lemma HandledAgrees(a: State, b: State, c: Command, p: Path, files: Files, cfg: Config)
    requires AgreeAt(a, b, p)
    ensures AgreeAt(Handled(a, c, files, cfg).0, Handled(b, c, files, cfg).0, p)
    ensures Handled(a, c, files, cfg).1 == Handled(b, c, files, cfg).1
  {
    if c.BackgroundRefresh? {
      var gone := set q | q in c.deleted;
      assert Get(a.index - gone, p) == Get(b.index - gone, p);
      ReindexAgrees(a.index - gone, b.index - gone, c.stale, p, files, cfg);
    }
  }

  lemma {:induction false} ReplayConcat(index: Index, a: seq<Update>, b: seq<Update>, files: Files, cfg: Config)
    ensures Replay(Replay(index, a, files, cfg), b, files, cfg) == Replay(index, a + b, files, cfg)
  {
    if b == [] {
      assert a + b == a;
    } else {
      var n := |b| - 1;
      assert (a + b)[..|a + b| - 1] == a + b[..n];
      ReplayConcat(index, a, b[..n], files, cfg);
    }
  }

  lemma {:induction false} StepFileCommands(st: State, cs: seq<Command>, files: Files, cfg: Config)
    requires forall i :: 0 <= i < |cs| ==> IsFileCommand(cs[i])
    ensures StepAll(st, cs, files, cfg) == (st.(index := Replay(st.index, QueueUpdates(cs), files, cfg)), true)
  {
    if cs != [] {
      var n := |cs| - 1;
      StepFileCommands(st, cs[..n], files, cfg);
      ReplayConcat(st.index, QueueUpdates(cs[..n]), CommandUpdates(cs[n]), files, cfg);
    }
  }

  lemma QueueUpdatesSnoc(cs: seq<Command>, c: Command)
    ensures QueueUpdates(cs + [c]) == QueueUpdates(cs) + CommandUpdates(c)
  {
    assert (cs + [c])[..|cs|] == cs;
  }

  lemma {:induction false} QueueUpdatesCons(c: Command, cs: seq<Command>)
    ensures QueueUpdates([c] + cs) == CommandUpdates(c) + QueueUpdates(cs)
  {
    if cs == [] {
      assert ([c] + cs)[..0] == [];
    } else {
      var n := |cs| - 1;
      QueueUpdatesCons(c, cs[..n]);
      QueueUpdatesSnoc([c] + cs[..n], cs[n]);
      assert [c] + cs == [c] + cs[..n] + [cs[n]];
      Regroup(CommandUpdates(c), QueueUpdates(cs[..n]), CommandUpdates(cs[n]));
    }
  }

  lemma BatchAgrees(a: State, b: State, us: seq<Update>, p: Path, files: Files, cfg: Config)
    requires AgreeAt(a, b, p) && (cfg.ShouldIndex(p) ==> !Cancels(Kinds(us, p)))
    ensures AgreeAt(Applied(a, InsertAll(map[], us), files, cfg), b.(index := Replay(b.index, us, files, cfg)), p)
  {
    BatchAt(a.index, us, p, files, cfg);
    ReplayAt(b.index, us, p, files, cfg);
  }

  lemma StepBehind(st: State, cs: seq<Command>, c: Command, files: Files, cfg: Config)
    requires StepAll(st, cs, files, cfg).1
    ensures StepAll(st, cs + [c], files, cfg) == OneByOne(StepAll(st, cs, files, cfg).0, c, files, cfg)
  {
    assert (cs + [c])[..|cs|] == cs;
  }

  lemma TakenSteps(b: State, e: Event, taken: seq<Command>, files: Files, cfg: Config)
    requires forall i :: 0 <= i < |taken| ==> IsFileCommand(taken[i])
    ensures StepAll(b, [FileEvent(e)] + taken, files, cfg) ==
      (b.(index := Replay(b.index, UpdatesOf(e) + QueueUpdates(taken), files, cfg)), true)
  {
    QueueUpdatesCons(FileEvent(e), taken);
    StepFileCommands(b, [FileEvent(e)] + taken, files, cfg);
  }

  lemma NothingCoalesced(st: State, files: Files, cfg: Config)
    ensures Applied(st, map[], files, cfg) == st
  {
    var none: map<Path, Kind> := map[];
    SameLookups(Flushed(st.index, none, files, cfg), st.index);
    assert CountedIn(none.Keys, cfg) == {};
  }

  lemma DrainedRound(st: State, r: Round, cfg: Config)
    requires Complete(r) && r.cmd.FileEvent?
    ensures Processed(st.(queue := r.waiting), r.cmd, r.files, cfg) ==
      Finished(Applied(st.(queue := []), InsertAll(map[], RoundUpdates(r)), r.files, cfg), Other(r), r.files, cfg)
  {
    var n := DrainLength(r.waiting);
    if n < |r.waiting| {
      assert r.waiting[n + 1..] == [];
    }
  }

  /** A round of the manager flushes one batch and then handles the other command. */
  lemma RoundIsBatch(st: State, r: Round, cfg: Config)
    requires Complete(r)
    ensures Processed(st.(queue := r.waiting), r.cmd, r.files, cfg) ==
      Finished(Applied(st.(queue := []), InsertAll(map[], RoundUpdates(r)), r.files, cfg), Other(r), r.files, cfg)
  {
    if r.cmd.FileEvent? {
      DrainedRound(st, r, cfg);
    } else {
      assert RoundUpdates(r) == CommandUpdates(r.cmd);
      if !r.cmd.FileEventBatch? { NothingCoalesced(st.(queue := []), r.files, cfg); }
    }
  }

  lemma BrokenSteps(st: State, e: Event, taken: seq<Command>, c: Command, files: Files, cfg: Config)
    requires forall i :: 0 <= i < |taken| ==> IsFileCommand(taken[i])
    requires !IsFileCommand(c)
    ensures StepAll(st, [FileEvent(e)] + taken + [c], files, cfg) ==
      Handled(st.(index := Replay(st.index, UpdatesOf(e) + QueueUpdates(taken), files, cfg)), c, files, cfg)
  {
    TakenSteps(st, e, taken, files, cfg);
    StepBehind(st, [FileEvent(e)] + taken, c, files, cfg);
  }

  lemma DrainedSteps(st: State, r: Round, cfg: Config)
    requires Complete(r) && r.cmd.FileEvent?
    ensures StepAll(st, [r.cmd] + r.waiting, r.files, cfg) ==
      Finished(st.(index := Replay(st.index, RoundUpdates(r), r.files, cfg)), Other(r), r.files, cfg)
  {
    var n := DrainLength(r.waiting);
    var taken := r.waiting[..n];
    if n == |r.waiting| {
      assert taken == r.waiting;
      TakenSteps(st, r.cmd.event, taken, r.files, cfg);
    } else {
      assert [r.cmd] + r.waiting == [r.cmd] + taken + [r.waiting[n]];
      BrokenSteps(st, r.cmd.event, taken, r.waiting[n], r.files, cfg);
    }
  }

  /** One by one, a round is the replay of the same updates and then the other command. */
  lemma RoundIsReplay(st: State, r: Round, cfg: Config)
    requires Complete(r)
    ensures StepAll(st, [r.cmd] + r.waiting, r.files, cfg) ==
      Finished(st.(index := Replay(st.index, RoundUpdates(r), r.files, cfg)), Other(r), r.files, cfg)
  {
    if r.cmd.FileEvent? {
      DrainedSteps(st, r, cfg);
    } else {
      assert RoundUpdates(r) == CommandUpdates(r.cmd);
      SingleStep(st, r.cmd, r.files, cfg);
    }
  }

  predicate AgreeAfter(x: (State, bool), y: (State, bool), p: Path) { AgreeAt(x.0, y.0, p) && x.1 == y.1 }

  lemma SingleStep(b: State, c: Command, files: Files, cfg: Config)
    ensures StepAll(b, [c] + [], files, cfg) == OneByOne(b, c, files, cfg)
  {
    assert [c] + [] == [] + [c];
    StepBehind(b, [], c, files, cfg);
  }

  lemma RoundAgrees(a: State, b: State, r: Round, p: Path, cfg: Config)
    requires Complete(r) && AgreeAt(a, b, p) && (cfg.ShouldIndex(p) ==> !Cancels(Kinds(RoundUpdates(r), p)))
    ensures AgreeAfter(Processed(a.(queue := r.waiting), r.cmd, r.files, cfg), StepAll(b, [r.cmd] + r.waiting, r.files, cfg), p)
  {
    var us := RoundUpdates(r);
    RoundIsBatch(a, r, cfg);
    RoundIsReplay(b, r, cfg);
    BatchAgrees(a.(queue := []), b, us, p, r.files, cfg);
    if Other(r).Some? {
      HandledAgrees(Applied(a.(queue := []), InsertAll(map[], us), r.files, cfg), b.(index := Replay(b.index, us, r.files, cfg)),
                    Other(r).value, p, r.files, cfg);
    }
  }

  /** Over any run, at a path that no batch cancels, every query is answered as if all commands
      received before it had been applied one by one. */
  lemma {:induction false} QueriesSeeReplay(a: State, b: State, rounds: seq<Round>, p: Path, cfg: Config)
    requires AgreeAt(a, b, p)
    requires forall k :: 0 <= k < |rounds| ==>
      Complete(rounds[k]) && (cfg.ShouldIndex(p) ==> !Cancels(Kinds(RoundUpdates(rounds[k]), p)))
    ensures AgreeAt(ProcessedAll(a, rounds, cfg), OneByOneAll(b, rounds, cfg), p)
    decreases |rounds|
  {
    if rounds != [] {
      var r := rounds[0];
      RoundAgrees(a, b, r, p, cfg);
      var x, y := Processed(a.(queue := r.waiting), r.cmd, r.files, cfg), StepAll(b, [r.cmd] + r.waiting, r.files, cfg);
      if x.1 { QueriesSeeReplay(x.0, y.0, rounds[1..], p, cfg); }
    }
  }

  // ---------------------------------------------------------------- exactly where runs differ

  /** The other command of the round sets the entry of the path whatever it was. */
  predicate Settles(r: Round, p: Path, cfg: Config) {
    Other(r).Some? &&
    match Other(r).value
    case Rebuild(_) => true
    case BackgroundRefresh(stale, deleted) => p in deleted || (p in stale && cfg.supported(p))
    case _ => false
  }

  predicate Touches(r: Round, p: Path, cfg: Config) {
    Settles(r, p, cfg) || (cfg.ShouldIndex(p) && Kinds(RoundUpdates(r), p) != [])
  }

  /** The batch of the round cancels the path, and nothing sets its entry afterwards. */
  predicate LeavesCancelled(r: Round, p: Path, cfg: Config) {
    !Settles(r, p, cfg) && cfg.ShouldIndex(p) && Cancels(Kinds(RoundUpdates(r), p))
  }

  predicate Stops(r: Round) { Other(r) == Some(Shutdown) }

  /** The rounds that are run: up to a shutdown. */
  function Reached(rounds: seq<Round>): (r: seq<Round>)
    ensures r <= rounds
  {
    if rounds == [] then [] else if Stops(rounds[0]) then [rounds[0]] else [rounds[0]] + Reached(rounds[1..])
  }

  function LastTouch(rounds: seq<Round>, p: Path, cfg: Config): (r: Option<nat>)
    ensures r.Some? ==> r.value < |rounds| && Touches(rounds[r.value], p, cfg)
    ensures forall k :: 0 <= k < |rounds| && Touches(rounds[k], p, cfg) ==> r.Some? && k <= r.value
  {
    if rounds == [] then None
    else
      var later := LastTouch(rounds[1..], p, cfg);
      if later.Some? then Some(later.value + 1) else if Touches(rounds[0], p, cfg) then Some(0) else None
  }

  /** The last round that touches the path cancels it while the manager has an entry for it. */
  predicate LastCancels(a: State, rounds: seq<Round>, p: Path, cfg: Config) {
    var k := LastTouch(Reached(rounds), p, cfg);
    k.Some? && LeavesCancelled(rounds[k.value], p, cfg) && p in ProcessedAll(a, rounds[..k.value], cfg).index
  }

  lemma {:induction false} ReindexedAt(index: Index, ps: seq<Path>, p: Path, files: Files, cfg: Config)
    ensures Get(ReindexedAll(index, ps, files, cfg), p) ==
      if p in ps && cfg.supported(p) then Get(files, p) else Get(index, p)
  {
    if ps != [] {
      var n := |ps| - 1;
      ReindexedAt(index, ps[..n], p, files, cfg);
      assert ps == ps[..n] + [ps[n]];
    }
  }

  /** What the other command leaves at a path of any two states. */
  lemma FinishedAt(a: State, b: State, r: Round, p: Path, cfg: Config)
    ensures var x, y := Finished(a, Other(r), r.files, cfg), Finished(b, Other(r), r.files, cfg);
      && x.1 == y.1 == !Stops(r)
      && (Settles(r, p, cfg) ==> Get(x.0.index, p) == Get(y.0.index, p))
      && (!Settles(r, p, cfg) ==> Get(x.0.index, p) == Get(a.index, p) && Get(y.0.index, p) == Get(b.index, p))
  {
    if Other(r).Some? && Other(r).value.BackgroundRefresh? {
      var c := Other(r).value;
      var gone := set q | q in c.deleted;
      ReindexedAt(a.index - gone, c.stale, p, r.files, cfg);
      ReindexedAt(b.index - gone, c.stale, p, r.files, cfg);
    }
  }

  /** What is stale stands in the manager's index and not in the replayed one. */
  predicate StaleOrSame(a: State, b: State, p: Path) {
    Get(a.index, p) == Get(b.index, p) || (p in a.index && p !in b.index)
  }

  /** One round at a path: untouched it stays, cancelled it goes from the replay only, otherwise
      the two agree. */
  lemma RoundAt(a: State, b: State, r: Round, p: Path, cfg: Config)
    requires Complete(r)
    ensures var x, y := Processed(a.(queue := r.waiting), r.cmd, r.files, cfg), StepAll(b, [r.cmd] + r.waiting, r.files, cfg);
      && x.1 == y.1 == !Stops(r)
      && (!Touches(r, p, cfg) ==> Get(x.0.index, p) == Get(a.index, p) && Get(y.0.index, p) == Get(b.index, p))
      && (LeavesCancelled(r, p, cfg) ==> Get(x.0.index, p) == Get(a.index, p) && p !in y.0.index)
      && (Touches(r, p, cfg) && !LeavesCancelled(r, p, cfg) ==> Get(x.0.index, p) == Get(y.0.index, p))
  {
    var us := RoundUpdates(r);
    RoundIsBatch(a, r, cfg);
    RoundIsReplay(b, r, cfg);
    BatchAt(a.index, us, p, r.files, cfg);
    ReplayAt(b.index, us, p, r.files, cfg);
    FinishedAt(Applied(a.(queue := []), InsertAll(map[], us), r.files, cfg), b.(index := Replay(b.index, us, r.files, cfg)), r, p, cfg);
  }

  lemma FirstRoundOf(a: State, rounds: seq<Round>, k: nat, cfg: Config)
    requires 0 < k <= |rounds| && Processed(a.(queue := rounds[0].waiting), rounds[0].cmd, rounds[0].files, cfg).1
    ensures ProcessedAll(a, rounds[..k], cfg) ==
      ProcessedAll(Processed(a.(queue := rounds[0].waiting), rounds[0].cmd, rounds[0].files, cfg).0, rounds[1..][..k - 1], cfg)
  {
    assert rounds[..k][1..] == rounds[1..][..k - 1];
  }

  /** What a round before the others adds to the condition. */
  lemma LastCancelsCons(a: State, rounds: seq<Round>, p: Path, cfg: Config)
    requires rounds != [] && Complete(rounds[0])
    ensures var r, rest := rounds[0], rounds[1..];
      var x := Processed(a.(queue := r.waiting), r.cmd, r.files, cfg).0;
      var here := LeavesCancelled(r, p, cfg) && p in a.index;
      && (Stops(r) ==> (LastCancels(a, rounds, p, cfg) <==> here))
      && (!Stops(r) && LastTouch(Reached(rest), p, cfg).Some? ==>
            (LastCancels(a, rounds, p, cfg) <==> LastCancels(x, rest, p, cfg)))
      && (!Stops(r) && LastTouch(Reached(rest), p, cfg).None? ==> (LastCancels(a, rounds, p, cfg) <==> here))
  {
    var r, rest := rounds[0], rounds[1..];
    RoundAt(a, a, r, p, cfg);
    assert Reached(rounds)[1..] == if Stops(r) then [] else Reached(rest);
    assert rounds[..0] == [];
    var later := LastTouch(Reached(rounds)[1..], p, cfg);
    if later.Some? { FirstRoundOf(a, rounds, later.value + 1, cfg); }
  }

  /** Over any run from states that agree at a path, or differ there by a stale entry, the two
      indexes end up different exactly when the last round that touches the path cancels an entry
      of the manager, or they differed and no round touches it. */
  lemma {:induction false} RunDiffersIff(a: State, b: State, rounds: seq<Round>, p: Path, cfg: Config)
    requires StaleOrSame(a, b, p) && forall k :: 0 <= k < |rounds| ==> Complete(rounds[k])
    ensures var x, y := ProcessedAll(a, rounds, cfg), OneByOneAll(b, rounds, cfg);
      && StaleOrSame(x, y, p)
      && (Get(x.index, p) != Get(y.index, p) <==>
            LastCancels(a, rounds, p, cfg) || (Get(a.index, p) != Get(b.index, p) && LastTouch(Reached(rounds), p, cfg).None?))
    decreases |rounds|
  {
    if rounds != [] {
      var r, rest := rounds[0], rounds[1..];
      var x, y := Processed(a.(queue := r.waiting), r.cmd, r.files, cfg), StepAll(b, [r.cmd] + r.waiting, r.files, cfg);
      RoundAt(a, b, r, p, cfg);
      LastCancelsCons(a, rounds, p, cfg);
      assert Reached(rounds)[1..] == if Stops(r) then [] else Reached(rest);
      if !Stops(r) { RunDiffersIff(x.0, y.0, rest, p, cfg); }
    }
  }

  /** After any run the manager's index and the replayed one differ at a path exactly when the last
      round that touches it is one whose batch cancels it while the manager has it indexed. */
  lemma IndexesDifferIff(st: State, rounds: seq<Round>, p: Path, cfg: Config)
    requires forall k :: 0 <= k < |rounds| ==> Complete(rounds[k])
    ensures Get(ProcessedAll(st, rounds, cfg).index, p) != Get(OneByOneAll(st, rounds, cfg).index, p)
      <==> LastCancels(st, rounds, p, cfg)
  {
    RunDiffersIff(st, st, rounds, p, cfg);
  }

  /** So whatever batches cancelled before, a later update that is not cancelled, a refresh of the
      path or a rebuild makes the two agree there again. */
  lemma LaterTouchRestores(st: State, rounds: seq<Round>, k: nat, p: Path, cfg: Config)
    requires forall j :: 0 <= j < |rounds| ==> Complete(rounds[j])
    requires k < |Reached(rounds)| && Touches(rounds[k], p, cfg)
    requires forall j :: k <= j < |Reached(rounds)| ==> !LeavesCancelled(rounds[j], p, cfg)
    ensures Get(ProcessedAll(st, rounds, cfg).index, p) == Get(OneByOneAll(st, rounds, cfg).index, p)
  {
    RunDiffersIff(st, st, rounds, p, cfg);
    assert Touches(Reached(rounds)[k], p, cfg);
  }

  // ---------------------------------------------------------------- what single commands do

  predicate SameKind(us: seq<Update>, ps: seq<Path>, kind: Kind) {
    |us| == |ps| && forall i :: 0 <= i < |us| ==> us[i] == Update(ps[i], kind)
  }

  /** Updates of one kind: no cancelling, each path coalesced to that kind and to no other. */
  lemma {:induction false} OneKind(us: seq<Update>, ps: seq<Path>, kind: Kind, p: Path)
    requires SameKind(us, ps, kind)
    ensures Get(InsertAll(map[], us), p) == if p in ps then Some(kind) else None
    ensures Kinds(us, p) != [] <==> p in ps
    ensures forall i :: 0 <= i < |Kinds(us, p)| ==> Kinds(us, p)[i] == kind
  {
    if us != [] {
      var n := |us| - 1;
      OneKind(us[..n], ps[..n], kind, p);
      assert ps == ps[..n] + [ps[n]];
    }
  }

  /** An event that is no two-path rename gives each of its paths its own kind and touches no
      other path, coalesced or one by one. */
  lemma PlainEventAt(st: State, e: Event, p: Path, files: Files, cfg: Config)
    requires st.queue == [] && !(e.kind.Renamed? && |e.paths| >= 2)
    ensures var now := if !cfg.ShouldIndex(p) || p !in e.paths then Get(st.index, p)
                       else if e.kind.Removed? then None else Get(files, p);
      && Get(InsertAll(map[], UpdatesOf(e)), p) == (if p in e.paths then Some(e.kind) else None)
      && Get(Processed(st, FileEvent(e), files, cfg).0.index, p) == now
      && Get(OneByOne(st, FileEvent(e), files, cfg).0.index, p) == now
  {
    var us := UpdatesOf(e);
    OneKind(us, e.paths, e.kind, p);
    assert us + [] == us;
    BatchAt(st.index, us, p, files, cfg);
    ReplayAt(st.index, us, p, files, cfg);
  }

  /** A rename takes the entry away from its first path and indexes its second one; paths after
      those and all others stay, coalesced or one by one. */
  lemma RenameAt(st: State, from: Path, to: Path, more: seq<Path>, p: Path, files: Files, cfg: Config)
    requires st.queue == []
    ensures var e := Event([from, to] + more, Renamed);
      var now := if !cfg.ShouldIndex(p) then Get(st.index, p) else if p == to then Get(files, p)
                 else if p == from then None else Get(st.index, p);
      && Get(Processed(st, FileEvent(e), files, cfg).0.index, p) == now
      && Get(OneByOne(st, FileEvent(e), files, cfg).0.index, p) == now
  {
    var e := Event([from, to] + more, Renamed);
    var us := UpdatesOf(e);
    RenameKinds(us, from, to, p);
    assert us + [] == us;
    BatchAt(st.index, us, p, files, cfg);
    ReplayAt(st.index, us, p, files, cfg);
  }

  lemma RenameKinds(us: seq<Update>, from: Path, to: Path, p: Path)
    requires us == [Update(from, Removed), Update(to, Created)]
    ensures Kinds(us, p) == (if p == from then [Removed] else []) + (if p == to then [Created] else [])
  {
    assert us[..1] == [us[0]] && us[..1][..0] == [];
    assert Kinds(us[..1], p) == if p == from then [Removed] else [];
  }

  /** What the commands that are no file events leave at a path. */
  lemma OtherCommandAt(st: State, c: Command, p: Path, files: Files, cfg: Config)
    requires !IsFileCommand(c)
    ensures Get(Processed(st, c, files, cfg).0.index, p) ==
      match c
      case Rebuild(rebuilt) => Get(rebuilt, p)
      case BackgroundRefresh(stale, deleted) =>
        if p in stale && cfg.supported(p) then Get(files, p) else if p in deleted then None else Get(st.index, p)
      case _ => Get(st.index, p)
  {
    if c.BackgroundRefresh? {
      var gone := set q | q in c.deleted;
      ReindexedAt(st.index - gone, c.stale, p, files, cfg);
    }
  }

  /** A query that a drain meets is answered from the index that holds every event before it. */
  lemma {:induction false} QuerySeesDrainedEvents(st: State, e: Event, taken: seq<Command>, files: Files, cfg: Config)
    requires forall i :: 0 <= i < |taken| ==> IsFileCommand(taken[i])
    ensures var after := Processed(st.(queue := taken + [Query]), FileEvent(e), files, cfg).0;
      && |after.answers| == |st.answers| + 1 && after.answers[..|st.answers|] == st.answers
      && forall p :: Get(after.answers[|st.answers|], p) ==
           var ks := Kinds(UpdatesOf(e) + QueueUpdates(taken), p);
           if ks == [] || !cfg.ShouldIndex(p) || Cancels(ks) then Get(st.index, p)
           else if ks[|ks| - 1].Removed? then None else Get(files, p)
  {
    var us := UpdatesOf(e) + QueueUpdates(taken);
    DrainedAnswer(st, e, taken, files, cfg);
    forall p ensures Get(Flushed(st.index, InsertAll(map[], us), files, cfg), p) ==
      var ks := Kinds(us, p);
      if ks == [] || !cfg.ShouldIndex(p) || Cancels(ks) then Get(st.index, p)
      else if ks[|ks| - 1].Removed? then None else Get(files, p)
    {
      BatchAt(st.index, us, p, files, cfg);
    }
  }

  lemma {:induction false} DrainedAnswer(st: State, e: Event, taken: seq<Command>, files: Files, cfg: Config)
    requires forall i :: 0 <= i < |taken| ==> IsFileCommand(taken[i])
    ensures Processed(st.(queue := taken + [Query]), FileEvent(e), files, cfg).0.answers ==
      st.answers + [Flushed(st.index, InsertAll(map[], UpdatesOf(e) + QueueUpdates(taken)), files, cfg)]
  {
    var queue := taken + [Query];
    assert queue[|taken|] == Query && queue[..|taken|] == taken;
  }
}
