/** The wait/feeder protocol of a terminal session: one feeder task, any number of
    resizers and any number of waiters, interleaved step by step.

    The grid is represented by the sequence of writes applied to it; a screen condition
    is a function of that sequence, because the emulator is deterministic. */
module WaitProtocol {
  import opened Bytes

  const RAW_TAIL_CAP: nat := 2048

  // ---------------------------------------------------------------- raw output tail

  /** What one push leaves in the bounded tail. */
  function PushTail(tail: seq<Byte>, bytes: seq<Byte>): seq<Byte>
    requires |tail| <= RAW_TAIL_CAP
  {
    if |bytes| >= RAW_TAIL_CAP then bytes[|bytes| - RAW_TAIL_CAP..]
    else LastBytes(tail, RAW_TAIL_CAP - |bytes|) + bytes
  }

  /** Pushing onto the tail of `all` gives the tail of `all + bytes`. */
  lemma PushTailKeepsLast(all: seq<Byte>, bytes: seq<Byte>)
    ensures PushTail(LastBytes(all, RAW_TAIL_CAP), bytes) == LastBytes(all + bytes, RAW_TAIL_CAP)
  {
    if |bytes| >= RAW_TAIL_CAP {
      assert (all + bytes)[|all| + |bytes| - RAW_TAIL_CAP..] == bytes[|bytes| - RAW_TAIL_CAP..];
    } else if |all| + |bytes| <= RAW_TAIL_CAP {
    } else {
      var cut := |all| + |bytes| - RAW_TAIL_CAP;
      assert (all + bytes)[cut..] == all[cut..] + bytes;
      LastOfLast(all, RAW_TAIL_CAP, RAW_TAIL_CAP - |bytes|);
    }
  }

  lemma LastOfLast(s: seq<Byte>, big: nat, small: nat)
    requires small <= big
    ensures LastBytes(LastBytes(s, big), small) == LastBytes(s, small)
  {
    if |s| > big {
      assert s[|s| - big..][big - small..] == s[|s| - small..];
    }
  }

  /** The shared, mutex-guarded deque of recent output. */
  class RawTail {
    var tail: seq<Byte>
    ghost var all: seq<Byte>  // every byte ever pushed

    ghost predicate Valid() reads this {
      tail == LastBytes(all, RAW_TAIL_CAP)
    }

    constructor ()
      ensures Valid() && all == []
    {
      tail, all := [], [];
    }

    method Push(bytes: seq<Byte>)
      requires Valid()
      modifies this
      ensures Valid() && all == old(all) + bytes
      ensures tail == PushTail(old(tail), bytes)
    {
      PushTailKeepsLast(all, bytes);
      all := all + bytes;
      if |bytes| >= RAW_TAIL_CAP {
        tail := bytes[|bytes| - RAW_TAIL_CAP..];
        return;
      }
      ghost var before := tail;
      while |tail| + |bytes| > RAW_TAIL_CAP
        invariant |tail| <= |before| && tail == before[|before| - |tail|..]
        invariant |tail| == |before| || |tail| + |bytes| >= RAW_TAIL_CAP
        invariant all == old(all) + bytes
      {
        tail := tail[1..];
      }
      tail := tail + bytes;
    }
  }

  // ---------------------------------------------------------------- the protocol state

  datatype Write = Fed(chunk: seq<Byte>) | Resized(cols: nat, rows: nat)

  type Condition = seq<Write> -> bool

  datatype FeederPc =
    | Receiving
    | Holding(chunk: seq<Byte>)  // received and pushed to the tail, grid not yet fed
    | FeedBumpDue(at: nat)       // grid write number `at` done, generation not yet bumped
    | Exited

  datatype ResizerPc =
    | Waiting                    // before taking the terminal lock
    | Locked
    | Changed(at: nat)           // grid write number `at` done
    | Upgraded(at: nat)          // holds a strong sender, bump still due
    | Bumped                     // bumped, strong sender still held
    | Releasing                  // no sender held, terminal lock still held
    | Finished

  datatype WaiterPc = Top | Marked | Parked | Matched | Reporting(ended: bool)
    | ScreenTaken(ended: bool, screen: nat)   // terminal lock released, raw tail still to be read
    | Reported(ended: bool, screen: nat, rawTail: seq<Byte>)

  /** `seen` is the receiver's version; `checked` is the number of writes on the grid
      when the condition was last evaluated. */
  datatype Waiter = Waiter(pc: WaiterPc, seen: nat, checked: nat, cond: Condition)

  datatype State = State(
    produced: seq<seq<Byte>>,    // every chunk the PTY reader sent
    queue: seq<seq<Byte>>,       // sent and not yet received by the feeder
    readerDone: bool,
    feeder: FeederPc,
    tail: seq<Byte>,
    writes: seq<Write>,
    generation: nat,
    lock: Option<nat>,           // the resizer holding the terminal mutex
    resizers: seq<ResizerPc>,
    waiters: seq<Waiter>,
    silent: set<nat>)            // writes that found the sender already gone

  const INITIAL := State([], [], false, Receiving, [], [], 0, None, [], [], {})

  predicate HoldsSender(pc: ResizerPc) { pc.Upgraded? || pc.Bumped? }

  /** The feeder owns the only long-lived strong sender; an upgraded resizer holds one too. */
  predicate SenderAlive(s: State) {
    !s.feeder.Exited? || exists r :: 0 <= r < |s.resizers| && HoldsSender(s.resizers[r])
  }

  datatype Step =
    | ReaderSend(chunk: seq<Byte>)
    | ReaderStop
    | FeederReceive
    | FeederFeed
    | FeederBump
    | FeederExit
    | StartResize
    | ResizeLock(r: nat)
    | ResizeFail(r: nat)
    | ResizeGrid(r: nat, cols: nat, rows: nat)
    | ResizeUpgrade(r: nat)
    | ResizeBump(r: nat)
    | ResizeDropSender(r: nat)
    | ResizeUnlock(r: nat)
    | StartWait(cond: Condition)
    | MarkSeen(w: nat)
    | CheckGrid(w: nat)
    | Wake(w: nat)
    | SenderGone(w: nat)
    | Deadline(w: nat)
    | TakeScreen(w: nat)
    | TakeTail(w: nat)

  predicate ResizerAt(s: State, r: nat) { r < |s.resizers| }

  predicate WaiterAt(s: State, w: nat, pc: WaiterPc) { w < |s.waiters| && s.waiters[w].pc == pc }

  predicate Enabled(s: State, step: Step) {
    match step
    case ReaderSend(_) => !s.readerDone
    case ReaderStop => !s.readerDone
    case FeederReceive => s.feeder.Receiving? && s.queue != []
    case FeederFeed => s.feeder.Holding? && s.lock.None?
    case FeederBump => s.feeder.FeedBumpDue?
    case FeederExit => s.feeder.Receiving? && s.queue == [] && s.readerDone
    case StartResize => true
    case ResizeLock(r) => ResizerAt(s, r) && s.resizers[r].Waiting? && s.lock.None?
    case ResizeFail(r) => ResizerAt(s, r) && s.resizers[r].Locked?
    case ResizeGrid(r, _, _) => ResizerAt(s, r) && s.resizers[r].Locked?
    case ResizeUpgrade(r) => ResizerAt(s, r) && s.resizers[r].Changed?
    case ResizeBump(r) => ResizerAt(s, r) && s.resizers[r].Upgraded?
    case ResizeDropSender(r) => ResizerAt(s, r) && s.resizers[r].Bumped?
    case ResizeUnlock(r) => ResizerAt(s, r) && s.resizers[r].Releasing?
    case StartWait(_) => true
    case MarkSeen(w) => WaiterAt(s, w, Top)
    case CheckGrid(w) => WaiterAt(s, w, Marked) && s.lock.None?
    case Wake(w) => WaiterAt(s, w, Parked) && s.waiters[w].seen != s.generation
    case SenderGone(w) => WaiterAt(s, w, Parked) && s.waiters[w].seen == s.generation && !SenderAlive(s)
    case Deadline(w) => WaiterAt(s, w, Parked)
    case TakeScreen(w) => w < |s.waiters| && s.waiters[w].pc.Reporting? && s.lock.None?
    case TakeTail(w) => w < |s.waiters| && s.waiters[w].pc.ScreenTaken?
  }

  function SetResizer(s: State, r: nat, pc: ResizerPc): State
    requires ResizerAt(s, r)
  { s.(resizers := s.resizers[r := pc]) }

  function SetWaiter(s: State, w: nat, x: Waiter): State
    requires w < |s.waiters|
  { s.(waiters := s.waiters[w := x]) }

  function Do(s: State, step: Step): State
    requires Enabled(s, step) && |s.tail| <= RAW_TAIL_CAP
  {
    match step
    case ReaderSend(chunk) => s.(produced := s.produced + [chunk], queue := s.queue + [chunk])
    case ReaderStop => s.(readerDone := true)
    case FeederReceive =>
      s.(queue := s.queue[1..], tail := PushTail(s.tail, s.queue[0]), feeder := Holding(s.queue[0]))
    case FeederFeed =>
      s.(writes := s.writes + [Fed(s.feeder.chunk)], feeder := FeedBumpDue(|s.writes|))
    case FeederBump => s.(generation := s.generation + 1, feeder := Receiving)
    case FeederExit => s.(feeder := Exited)
    case StartResize => s.(resizers := s.resizers + [Waiting])
    case ResizeLock(r) => SetResizer(s, r, Locked).(lock := Some(r))
    case ResizeFail(r) => SetResizer(s, r, Finished).(lock := None)
    case ResizeGrid(r, cols, rows) =>
      SetResizer(s, r, Changed(|s.writes|)).(writes := s.writes + [Resized(cols, rows)])
    case ResizeUpgrade(r) =>
      var at := s.resizers[r].at;
      if SenderAlive(s) then SetResizer(s, r, Upgraded(at))
      else SetResizer(s, r, Releasing).(silent := s.silent + {at})
    case ResizeBump(r) => SetResizer(s, r, Bumped).(generation := s.generation + 1)
    case ResizeDropSender(r) => SetResizer(s, r, Releasing)
    case ResizeUnlock(r) => SetResizer(s, r, Finished).(lock := None)
    case StartWait(cond) => s.(waiters := s.waiters + [Waiter(Top, 0, 0, cond)])
    case MarkSeen(w) => SetWaiter(s, w, s.waiters[w].(pc := Marked, seen := s.generation))
    case CheckGrid(w) =>
      var met := s.waiters[w].cond(s.writes);
      SetWaiter(s, w, s.waiters[w].(pc := if met then Matched else Parked, checked := |s.writes|))
    case Wake(w) => SetWaiter(s, w, s.waiters[w].(pc := Top, seen := s.generation))
    case SenderGone(w) => SetWaiter(s, w, s.waiters[w].(pc := Reporting(true)))
    case Deadline(w) => SetWaiter(s, w, s.waiters[w].(pc := Reporting(false)))
    case TakeScreen(w) => SetWaiter(s, w, s.waiters[w].(pc := ScreenTaken(s.waiters[w].pc.ended, |s.writes|)))
    case TakeTail(w) =>
      SetWaiter(s, w, s.waiters[w].(pc := Reported(s.waiters[w].pc.ended, s.waiters[w].pc.screen, s.tail)))
  }

  // ---------------------------------------------------------------- invariants

  /** Output chunks on the grid, in order. */
  function FedChunks(writes: seq<Write>): seq<seq<Byte>> {
    if writes == [] then []
    else
      var n := |writes| - 1;
      FedChunks(writes[..n]) + if writes[n].Fed? then [writes[n].chunk] else []
  }

  /** Chunks the feeder has received but not yet applied. */
  function InHand(pc: FeederPc): seq<seq<Byte>> {
    if pc.Holding? then [pc.chunk] else []
  }

  /** Write `i` is on the grid but its bump has not happened (and may never happen). */
  predicate Unannounced(s: State, i: nat) {
    || s.feeder == FeedBumpDue(i)
    || (exists r :: 0 <= r < |s.resizers| && (s.resizers[r] == Changed(i) || s.resizers[r] == Upgraded(i)))
    || i in s.silent
  }

  /** Output is neither lost nor reordered on its way to the grid, and the tail follows it. */
  predicate StreamInv(s: State) {
    && s.produced == FedChunks(s.writes) + InHand(s.feeder) + s.queue
    && s.tail == LastBytes(Concat(FedChunks(s.writes) + InHand(s.feeder)), RAW_TAIL_CAP)
    && (s.feeder.Exited? ==> s.queue == [] && s.readerDone)
    && (s.feeder.FeedBumpDue? ==> s.feeder.at < |s.writes|)
  }

  /** Only the mutex holder is past `Locked`, and it writes resizes only. */
  predicate LockInv(s: State) {
    && (forall r :: 0 <= r < |s.resizers| && !s.resizers[r].Waiting? && !s.resizers[r].Finished?
          ==> s.lock == Some(r))
    && (forall r :: 0 <= r < |s.resizers| && (s.resizers[r].Changed? || s.resizers[r].Upgraded?)
          ==> s.resizers[r].at < |s.writes| && s.writes[s.resizers[r].at].Resized?)
  }

  /** A write without announcement is a resize that found no sender. */
  predicate SilentInv(s: State) {
    && (forall i :: i in s.silent ==> i < |s.writes| && s.writes[i].Resized?)
    && (s.silent != {} ==> s.feeder.Exited? && !SenderAlive(s))
  }

  predicate ResizerInv(s: State) { LockInv(s) && SilentInv(s) }

  /** The check of a parked waiter is stale only by writes that were not announced yet. */
  predicate WaiterInv(s: State, x: Waiter) {
    && x.seen <= s.generation
    && x.checked <= |s.writes|
    && (x.pc.Parked? || GivenUp(x.pc) ==> !x.cond(s.writes[..x.checked]))
    && (x.pc.Matched? ==> x.cond(s.writes[..x.checked]))
    && (x.pc.Parked? && x.seen == s.generation ==>
          forall i :: x.checked <= i < |s.writes| ==> Unannounced(s, i))
    && (EndedPc(x.pc) ==> !SenderAlive(s) && forall i :: x.checked <= i < |s.writes| ==> s.writes[i].Resized?)
    && (x.pc.ScreenTaken? || x.pc.Reported? ==> x.checked <= x.pc.screen <= |s.writes|)
    && (x.pc.Reported? && x.pc.ended ==> x.pc.rawTail == s.tail)
  }

  predicate GivenUp(pc: WaiterPc) { pc.Reporting? || pc.ScreenTaken? || pc.Reported? }

  predicate EndedPc(pc: WaiterPc) { GivenUp(pc) && pc.ended }

  predicate Inv(s: State) {
    && StreamInv(s)
    && ResizerInv(s)
    && forall w :: 0 <= w < |s.waiters| ==> WaiterInv(s, s.waiters[w])
  }

  // ---------------------------------------------------------------- every step keeps the invariants

  lemma FedChunksAppend(writes: seq<Write>, x: Write)
    ensures FedChunks(writes + [x]) == FedChunks(writes) + if x.Fed? then [x.chunk] else []
  {
    assert (writes + [x])[..|writes|] == writes;
  }

  lemma ReceiveKeepsTail(fed: seq<seq<Byte>>, chunk: seq<Byte>)
    ensures PushTail(LastBytes(Concat(fed), RAW_TAIL_CAP), chunk) == LastBytes(Concat(fed + [chunk]), RAW_TAIL_CAP)
  {
    ConcatAppend(fed, [chunk]);
    assert Concat([chunk]) == chunk + Concat([chunk][1..]) == chunk;
    PushTailKeepsLast(Concat(fed), chunk);
  }

  lemma StreamStep(s: State, step: Step)
    requires StreamInv(s) && Enabled(s, step)
    ensures StreamInv(Do(s, step))
  {
    var s' := Do(s, step);
    var fed := FedChunks(s.writes);
    assert fed + [] == fed;
    match step {
      case FeederReceive =>
        assert s.queue == [s.queue[0]] + s.queue[1..];
        ReceiveKeepsTail(fed, s.queue[0]);
      case FeederFeed =>
        FedChunksAppend(s.writes, Fed(s.feeder.chunk));
        assert FedChunks(s'.writes) + [] == FedChunks(s'.writes);
      case ResizeGrid(r, cols, rows) =>
        FedChunksAppend(s.writes, Resized(cols, rows));
      case ReaderSend(chunk) =>
        assert s'.produced == fed + InHand(s.feeder) + (s.queue + [chunk]);
      case _ =>
        assert s'.writes == s.writes && InHand(s'.feeder) == InHand(s.feeder) && s'.tail == s.tail;
    }
  }

  /** Once the last sender is gone no step brings one back. */
  lemma SenderStaysGone(s: State, step: Step)
    requires |s.tail| <= RAW_TAIL_CAP && Enabled(s, step) && !SenderAlive(s)
    ensures !SenderAlive(Do(s, step))
  {
  }

  lemma LockStep(s: State, step: Step)
    requires |s.tail| <= RAW_TAIL_CAP && LockInv(s) && Enabled(s, step)
    ensures LockInv(Do(s, step))
  {
  }

  lemma SilentStep(s: State, step: Step)
    requires |s.tail| <= RAW_TAIL_CAP && ResizerInv(s) && Enabled(s, step)
    ensures SilentInv(Do(s, step))
  {
    if !SenderAlive(s) {
      SenderStaysGone(s, step);
    }
  }

  lemma ResizerStep(s: State, step: Step)
    requires |s.tail| <= RAW_TAIL_CAP && ResizerInv(s) && Enabled(s, step)
    ensures ResizerInv(Do(s, step))
  {
    LockStep(s, step);
    SilentStep(s, step);
  }

  /** A write without its bump stays unannounced, or the generation moves on. */
  lemma UnannouncedStep(s: State, step: Step, i: nat)
    requires Inv(s) && Enabled(s, step) && Unannounced(s, i)
    requires Do(s, step).generation == s.generation
    ensures Unannounced(Do(s, step), i)
  {
    var s' := Do(s, step);
    if s.feeder != FeedBumpDue(i) && i !in s.silent {
      var r :| 0 <= r < |s.resizers| && (s.resizers[r] == Changed(i) || s.resizers[r] == Upgraded(i));
      assert s'.resizers[r] == Changed(i) || s'.resizers[r] == Upgraded(i) || i in s'.silent;
    }
  }

  lemma NewWriteUnannounced(s: State, step: Step, i: nat)
    requires Inv(s) && Enabled(s, step) && |s.writes| <= i < |Do(s, step).writes|
    ensures Unannounced(Do(s, step), i)
    ensures !SenderAlive(s) ==> Do(s, step).writes[i].Resized?
  {
    var s' := Do(s, step);
    if step.ResizeGrid? {
      assert s'.resizers[step.r] == Changed(i);
    }
  }

  /** After the sender is gone every unannounced write is a resize. */
  lemma UnannouncedWithoutSender(s: State, i: nat)
    requires ResizerInv(s) && !SenderAlive(s) && Unannounced(s, i)
    ensures i < |s.writes| && s.writes[i].Resized?
  {
  }

  /** Waiters that the step does not touch. */
  lemma BystanderStep(s: State, step: Step, x: Waiter)
    requires Inv(s) && Enabled(s, step) && WaiterInv(s, x)
    ensures WaiterInv(Do(s, step), x)
  {
    var s' := Do(s, step);
    assert s'.writes[..x.checked] == s.writes[..x.checked];
    if !SenderAlive(s) {
      SenderStaysGone(s, step);
    }
    forall i | x.checked <= i < |s'.writes| && x.pc.Parked? && x.seen == s'.generation
      ensures Unannounced(s', i)
    {
      if i < |s.writes| { UnannouncedStep(s, step, i); } else { NewWriteUnannounced(s, step, i); }
    }
    forall i | x.checked <= i < |s'.writes| && EndedPc(x.pc)
      ensures s'.writes[i].Resized?
    {
      if i >= |s.writes| { NewWriteUnannounced(s, step, i); }
    }
  }

  /** The waiter that takes the step itself. */
  lemma ActorStep(s: State, step: Step, w: nat)
    requires Inv(s) && Enabled(s, step) && w < |s.waiters|
    requires
      match step
      case MarkSeen(v) => v == w
      case CheckGrid(v) => v == w
      case Wake(v) => v == w
      case SenderGone(v) => v == w
      case Deadline(v) => v == w
      case TakeScreen(v) => v == w
      case TakeTail(v) => v == w
      case _ => false
    ensures WaiterInv(Do(s, step), Do(s, step).waiters[w])
  {
    var s' := Do(s, step);
    var x := s.waiters[w];
    assert WaiterInv(s, x);
    assert SenderAlive(s') == SenderAlive(s);
    assert s.writes[..|s.writes|] == s.writes;
    if step.SenderGone? {
      forall i | x.checked <= i < |s.writes| ensures s.writes[i].Resized? {
        UnannouncedWithoutSender(s, i);
      }
    }
  }

  lemma InvStep(s: State, step: Step)
    requires Inv(s) && Enabled(s, step)
    ensures Inv(Do(s, step))
  {
    var s' := Do(s, step);
    StreamStep(s, step);
    ResizerStep(s, step);
    forall w | 0 <= w < |s'.waiters| ensures WaiterInv(s', s'.waiters[w]) {
      if w < |s.waiters| && s'.waiters[w] == s.waiters[w] {
        BystanderStep(s, step, s.waiters[w]);
      } else if w < |s.waiters| {
        ActorStep(s, step, w);
      }
    }
  }

  // ---------------------------------------------------------------- whole runs

  /** The state after a run, or None when some step of it was not enabled. */
  function Exec(steps: seq<Step>): (r: Option<State>)
    ensures r.Some? ==> Inv(r.value)
  {
    if steps == [] then Some(INITIAL)
    else
      var n := |steps| - 1;
      var before := Exec(steps[..n]);
      if before.None? || !Enabled(before.value, steps[n]) then None
      else
        InvStep(before.value, steps[n]);
        Some(Do(before.value, steps[n]))
  }

  /** No writer is between its grid change and its bump. */
  predicate Quiet(s: State) {
    && !s.feeder.FeedBumpDue?
    && forall r :: 0 <= r < |s.resizers| ==> !s.resizers[r].Changed? && !s.resizers[r].Upgraded?
  }

  lemma QuietIsAnnounced(s: State)
    requires Quiet(s)
    ensures forall i: nat :: i !in s.silent ==> !Unannounced(s, i)
  {
  }

  /** In every interleaving, a waiter parked with no unseen generation has checked the
      current grid, unless a writer still owes its bump. */
  lemma NoLostWakeup(steps: seq<Step>, s: State, w: nat)
    requires Exec(steps) == Some(s) && WaiterAt(s, w, Parked)
    requires SenderAlive(s) && Quiet(s) && s.waiters[w].seen == s.generation
    ensures s.waiters[w].checked == |s.writes| && !s.waiters[w].cond(s.writes)
  {
    var x := s.waiters[w];
    assert WaiterInv(s, x);
    QuietIsAnnounced(s);
    assert x.checked == |s.writes|;
    assert s.writes[..x.checked] == s.writes;
  }

  /** So a parked waiter whose condition holds can always wake without its deadline. */
  lemma MetConditionCanWake(steps: seq<Step>, s: State, w: nat)
    requires Exec(steps) == Some(s) && WaiterAt(s, w, Parked)
    requires SenderAlive(s) && Quiet(s) && s.waiters[w].cond(s.writes)
    ensures Enabled(s, Wake(w))
  {
    if s.waiters[w].seen == s.generation {
      NoLostWakeup(steps, s, w);
    }
  }

  lemma {:induction false} FedChunksBeforeResizes(writes: seq<Write>, n: nat)
    requires n <= |writes| && forall i :: n <= i < |writes| ==> writes[i].Resized?
    ensures FedChunks(writes[..n]) == FedChunks(writes)
    decreases |writes|
  {
    if n < |writes| {
      var rest := writes[..|writes| - 1];
      assert rest[..n] == writes[..n];
      FedChunksBeforeResizes(rest, n);
      assert FedChunks(writes) == FedChunks(rest) + [];
    } else {
      assert writes[..n] == writes;
    }
  }

  /** A wait that reports `ended` last evaluated its condition, and found it false, on a
      grid holding every chunk the PTY ever produced; its raw tail is that of all output. */
  lemma EndedSawAllOutput(steps: seq<Step>, s: State, w: nat)
    requires Exec(steps) == Some(s) && w < |s.waiters| && EndedPc(s.waiters[w].pc)
    ensures var x := s.waiters[w];
      && s.readerDone && s.queue == []
      && FedChunks(s.writes[..x.checked]) == s.produced
      && !x.cond(s.writes[..x.checked])
      && (x.pc.Reported? ==> x.pc.rawTail == LastBytes(Concat(s.produced), RAW_TAIL_CAP))
  {
    var x := s.waiters[w];
    assert WaiterInv(s, x);
    assert s.produced == FedChunks(s.writes) + [] + [] == FedChunks(s.writes) + [];
    assert FedChunks(s.writes) + [] == FedChunks(s.writes);
    FedChunksBeforeResizes(s.writes, x.checked);
  }

  lemma {:induction false} FedChunksGrow(writes: seq<Write>, n: nat)
    requires n <= |writes|
    ensures FedChunks(writes[..n]) <= FedChunks(writes)
    decreases |writes|
  {
    if n < |writes| {
      var rest := writes[..|writes| - 1];
      assert rest[..n] == writes[..n];
      FedChunksGrow(rest, n);
    } else {
      assert writes[..n] == writes;
    }
  }

  /** The raw tail is that of the first `n` chunks of output, and the screen shows no others. */
  predicate TailCovers(s: State, screen: nat, rawTail: seq<Byte>, n: nat) {
    && screen <= |s.writes| && n <= |s.produced|
    && FedChunks(s.writes[..screen]) <= s.produced[..n]
    && rawTail == LastBytes(Concat(s.produced[..n]), RAW_TAIL_CAP)
  }

  lemma TailTaken(s: State, screen: nat)
    requires StreamInv(s) && screen <= |s.writes|
    ensures TailCovers(s, screen, s.tail, |FedChunks(s.writes)| + |InHand(s.feeder)|)
  {
    var heard := FedChunks(s.writes) + InHand(s.feeder);
    assert s.produced[..|heard|] == heard;
    FedChunksGrow(s.writes, screen);
  }

  lemma CoverKept(s: State, step: Step, screen: nat, rawTail: seq<Byte>, n: nat)
    requires Inv(s) && Enabled(s, step) && TailCovers(s, screen, rawTail, n)
    ensures TailCovers(Do(s, step), screen, rawTail, n)
  {
    var s' := Do(s, step);
    assert s'.writes[..screen] == s.writes[..screen] && s'.produced[..n] == s.produced[..n];
  }

  /** Screen and raw tail of a report are read one after the other; whatever runs in between, all
      the output that the screen shows is part of the output whose tail is reported. */
  lemma {:induction false} ReportedTailCoversScreen(steps: seq<Step>, s: State, w: nat) returns (n: nat)
    requires Exec(steps) == Some(s) && w < |s.waiters| && s.waiters[w].pc.Reported?
    ensures TailCovers(s, s.waiters[w].pc.screen, s.waiters[w].pc.rawTail, n)
    decreases |steps|
  {
    var last, before := steps[|steps| - 1], Exec(steps[..|steps| - 1]).value;
    if last == TakeTail(w) {
      assert WaiterInv(before, before.waiters[w]);
      TailTaken(before, before.waiters[w].pc.screen);
      n := |FedChunks(before.writes)| + |InHand(before.feeder)|;
      CoverKept(before, last, before.waiters[w].pc.screen, before.tail, n);
    } else {
      n := ReportedTailCoversScreen(steps[..|steps| - 1], before, w);
      CoverKept(before, last, s.waiters[w].pc.screen, s.waiters[w].pc.rawTail, n);
    }
  }

  /** When a waiter finds the sender gone, its last check was of the present grid exactly when
      every write without its bump came before that check; with no writer at work these are
      the resizes that found no sender to bump with. */
  lemma EndedCheckIsCurrentIff(steps: seq<Step>, s: State, w: nat)
    requires Exec(steps) == Some(s) && Enabled(s, SenderGone(w))
    ensures var checked := s.waiters[w].checked;
      && (checked == |s.writes| <==> forall i: nat :: Unannounced(s, i) ==> i < checked)
      && (Quiet(s) ==> (checked == |s.writes| <==> forall i :: i in s.silent ==> i < checked))
  {
    var x := s.waiters[w];
    assert WaiterInv(s, x);
    forall i: nat | Unannounced(s, i) ensures i < |s.writes| { UnannouncedWithoutSender(s, i); }
    if x.checked < |s.writes| { assert Unannounced(s, x.checked); }
    if Quiet(s) { QuietIsAnnounced(s); }
  }

  /** So exactly then the verdict `ended`, reached on the grid of that check, holds of the
      present grid whatever the condition was. */
  lemma EndedVerdictHoldsIff(steps: seq<Step>, s: State, w: nat)
    requires Exec(steps) == Some(s) && Enabled(s, SenderGone(w))
    ensures var checked := s.waiters[w].checked;
      (forall c: Condition :: !c(s.writes[..checked]) ==> !c(s.writes))
        <==> forall i: nat :: Unannounced(s, i) ==> i < checked
  {
    var checked := s.waiters[w].checked;
    assert WaiterInv(s, s.waiters[w]);
    EndedCheckIsCurrentIff(steps, s, w);
    if checked == |s.writes| {
      assert s.writes[..checked] == s.writes;
    } else {
      var present: Condition := grid => grid == s.writes;
      assert !present(s.writes[..checked]) && present(s.writes);
    }
  }

  /** The grid is not always final when the feeder is gone: a resize after its exit changes the
      screen without a bump. For every output and resize with which a condition comes true only
      by that resize, a waiter parked before it fails as ended although its condition holds. */
  lemma LateResizeDefeatsEndedWait(cond: Condition, chunk: seq<Byte>, cols: nat, rows: nat) returns (steps: seq<Step>, s: State)
    requires !cond([Fed(chunk)]) && cond([Fed(chunk), Resized(cols, rows)])
    ensures Exec(steps) == Some(s) && |s.waiters| == 1 && Quiet(s)
    ensures s.waiters[0].pc == Reporting(true) && s.waiters[0].cond == cond && cond(s.writes)
  {
    steps, s := FruitlessWait(cond, chunk);
    steps, s := LateResize(steps, s, cols, rows);
    assert s.writes == [Fed(chunk), Resized(cols, rows)];
    steps, s := GiveUp(steps, s);
  }

  lemma GiveUp(steps0: seq<Step>, s0: State) returns (steps: seq<Step>, s: State)
    requires Exec(steps0) == Some(s0) && s0.feeder.Exited? && s0.resizers == [Finished]
    requires WaiterAt(s0, 0, Parked) && s0.waiters[0].seen == s0.generation
    ensures Exec(steps) == Some(s) && s == SetWaiter(s0, 0, s0.waiters[0].(pc := Reporting(true)))
  {
    assert !SenderAlive(s0);
    steps, s := RunOne(steps0, s0, SenderGone(0));
  }

  /** A session whose one chunk of output has been fed and announced, and that is over. */
  function Over(chunk: seq<Byte>, waiters: seq<Waiter>): State {
    State([chunk], [], true, Exited, PushTail([], chunk), [Fed(chunk)], 1, None, [], waiters, {})
  }

  lemma OutputFed(chunk: seq<Byte>) returns (steps: seq<Step>, s: State)
    ensures Exec(steps) == Some(s)
    ensures s == INITIAL.(produced := [chunk], tail := PushTail([], chunk), writes := [Fed(chunk)], generation := 1)
  {
    steps, s := RunOne([], INITIAL, ReaderSend(chunk));
    steps, s := RunOne(steps, s, FeederReceive);
    steps, s := RunOne(steps, s, FeederFeed);
    steps, s := RunOne(steps, s, FeederBump);
  }

  lemma FeederGone(chunk: seq<Byte>) returns (steps: seq<Step>, s: State)
    ensures Exec(steps) == Some(s) && s == Over(chunk, [])
  {
    steps, s := OutputFed(chunk);
    steps, s := RunOne(steps, s, ReaderStop);
    steps, s := RunOne(steps, s, FeederExit);
  }

  /** A waiter that parks on the grid of such a session, its condition unmet. */
  lemma FruitlessWait(cond: Condition, chunk: seq<Byte>) returns (steps: seq<Step>, s: State)
    requires !cond([Fed(chunk)])
    ensures Exec(steps) == Some(s) && s == Over(chunk, [Waiter(Parked, 1, 1, cond)])
  {
    steps, s := FeederGone(chunk);
    steps, s := RunOne(steps, s, StartWait(cond));
    steps, s := RunOne(steps, s, MarkSeen(0));
    steps, s := RunOne(steps, s, CheckGrid(0));
  }

  lemma LateGridChange(steps0: seq<Step>, s0: State, cols: nat, rows: nat) returns (steps: seq<Step>, s: State)
    requires Exec(steps0) == Some(s0) && s0.lock.None? && s0.resizers == []
    ensures Exec(steps) == Some(s)
    ensures s == s0.(writes := s0.writes + [Resized(cols, rows)], resizers := [Changed(|s0.writes|)], lock := Some(0))
  {
    steps, s := RunOne(steps0, s0, StartResize);
    steps, s := RunOne(steps, s, ResizeLock(0));
    steps, s := RunOne(steps, s, ResizeGrid(0, cols, rows));
  }

  lemma LateUnlock(steps0: seq<Step>, s0: State, at: nat) returns (steps: seq<Step>, s: State)
    requires Exec(steps0) == Some(s0) && s0.resizers == [Changed(at)] && s0.feeder.Exited?
    ensures Exec(steps) == Some(s)
    ensures s == s0.(resizers := [Finished], silent := s0.silent + {at}, lock := None)
  {
    assert !SenderAlive(s0);
    steps, s := RunOne(steps0, s0, ResizeUpgrade(0));
    assert s.resizers == [Releasing];
    steps, s := RunOne(steps, s, ResizeUnlock(0));
  }

  /** A whole resize of such a session: it finds no sender and bumps nothing. */
  lemma LateResize(steps0: seq<Step>, s0: State, cols: nat, rows: nat) returns (steps: seq<Step>, s: State)
    requires Exec(steps0) == Some(s0) && s0.lock.None? && s0.resizers == [] && s0.silent == {} && s0.feeder.Exited?
    ensures Exec(steps) == Some(s)
    ensures s == s0.(writes := s0.writes + [Resized(cols, rows)], resizers := [Finished], silent := {|s0.writes|})
  {
    steps, s := LateGridChange(steps0, s0, cols, rows);
    steps, s := LateUnlock(steps, s, |s0.writes|);
  }

  lemma RunOne(steps: seq<Step>, s: State, step: Step) returns (steps': seq<Step>, s': State)
    requires Exec(steps) == Some(s) && Enabled(s, step)
    ensures s' == Do(s, step) && Exec(steps') == Some(s')
  {
    steps' := steps + [step];
    s' := Do(s, step);
    assert steps'[..|steps|] == steps;
  }
}
