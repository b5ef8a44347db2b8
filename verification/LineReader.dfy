/** The line-buffered reader: a task that cuts a stream into lines, a queue of lines, and a
    reader that serves them piecewise. */
module LineReader {
  import opened Bytes

  const MAX_LINE_SIZE: nat := 67108864

  const NEWLINE: Byte := 10

  /** One result of filling the source's buffer; the end of the source is the end of the list. */
  datatype Fetch = Data(bytes: seq<Byte>) | Broken(error: string)

  datatype Failure = TooLong | Io(error: string)

  datatype Message = Line(bytes: seq<Byte>) | Failed(why: Failure)

  function FirstNewline(s: seq<Byte>): (n: nat)
    ensures n <= |s| && (n < |s| ==> s[n] == NEWLINE)
    ensures forall i :: 0 <= i < n ==> s[i] != NEWLINE
  {
    if s == [] || s[0] == NEWLINE then 0 else 1 + FirstNewline(s[1..])
  }

  /** What a source yields is nonempty until it ends. */
  predicate WellFetched(fs: seq<Fetch>) { forall k :: 0 <= k < |fs| && fs[k].Data? ==> fs[k].bytes != [] }

  function Remaining(fs: seq<Fetch>): seq<Byte> {
    if fs == [] then [] else (if fs[0].Data? then fs[0].bytes else []) + Remaining(fs[1..])
  }

  // ---------------------------------------------------------------- the reader task

  /** `line` is what has been read of the current line; after a failure it is lost. */
  datatype Task = Task(fetches: seq<Fetch>, line: seq<Byte>, ended: bool, failure: Option<Failure>)

  function Start(fs: seq<Fetch>): Task { Task(fs, [], false, None) }

  /** The part of a fetch that is consumed: up to and with its first newline. */
  function Taken(b: seq<Byte>): (r: seq<Byte>)
    ensures r <= b && (b != [] ==> r != [])
  {
    var n := FirstNewline(b);
    if n < |b| then b[..n + 1] else b
  }

  function Consumed(fs: seq<Fetch>, n: nat): seq<Fetch>
    requires fs != [] && fs[0].Data? && n <= |fs[0].bytes|
  {
    if n < |fs[0].bytes| then [Data(fs[0].bytes[n..])] + fs[1..] else fs[1..]
  }

  predicate EndsLine(b: seq<Byte>) { b != [] && b[|b| - 1] == NEWLINE }

  /** One fill of the source, and what is sent when it completes a line, ends or fails. */
  function Step(t: Task): (Task, seq<Message>)
    requires !t.ended
  {
    if t.fetches == [] then
      if t.line == [] then (Task([], [], true, None), []) else (Start([]), [Line(t.line)])
    else
      match t.fetches[0]
      case Broken(e) => (Task(t.fetches[1..], t.line, true, Some(Io(e))), [Failed(Io(e))])
      case Data(b) =>
        var line, rest := t.line + Taken(b), Consumed(t.fetches, |Taken(b)|);
        if |line| > MAX_LINE_SIZE then (Task(rest, line, true, Some(TooLong)), [Failed(TooLong)])
        else if EndsLine(Taken(b)) then (Start(rest), [Line(line)])
        else (Task(rest, line, false, None), [])
  }

  lemma ConsumedKeeps(fs: seq<Fetch>, n: nat)
    requires fs != [] && fs[0].Data? && n <= |fs[0].bytes| && WellFetched(fs)
    ensures fs[0].bytes[..n] + Remaining(Consumed(fs, n)) == Remaining(fs)
    ensures WellFetched(Consumed(fs, n)) && |Consumed(fs, n)| <= |fs| && (n == |fs[0].bytes| ==> |Consumed(fs, n)| < |fs|)
  {
    var b, rest := fs[0].bytes, Consumed(fs, n);
    if n < |b| {
      assert rest[1..] == fs[1..];
      assert b[..n] + (b[n..] + Remaining(fs[1..])) == b + Remaining(fs[1..]);
    } else {
      assert b[..n] == b;
    }
  }

  lemma StepKeepsBytes(t: Task)
    requires !t.ended && WellFetched(t.fetches)
    ensures var (t', sent) := Step(t);
      && QueuedBytes(sent) + t'.line + Remaining(t'.fetches) == t.line + Remaining(t.fetches)
      && WellFetched(t'.fetches)
  {
    var (t', sent) := Step(t);
    if sent != [] { OneMessage(sent[0]); }
    if t.fetches != [] && t.fetches[0].Data? {
      var taken := Taken(t.fetches[0].bytes);
      ConsumedKeeps(t.fetches, |taken|);
      Regroup(t.line, taken, Remaining(t'.fetches));
      assert QueuedBytes(sent) + t'.line == t.line + taken;
    } else {
      assert QueuedBytes(sent) + t'.line == t.line;
    }
  }

  lemma OneMessage(m: Message)
    ensures QueuedBytes([m]) == if m.Line? then m.bytes else []
  {
    assert [m][1..] == [];
  }

  function Left(t: Task): nat { |Remaining(t.fetches)| + |t.fetches| }

  /** All messages that a task still sends. */
  function Messages(t: Task): seq<Message>
    requires WellFetched(t.fetches)
    decreases Left(t), |t.line|, if t.ended then 0 else 1
  {
    if t.ended then []
    else
      var (t', sent) := Step(t);
      StepDecreases(t);
      sent + Messages(t')
  }

  lemma StepDecreases(t: Task)
    requires !t.ended && WellFetched(t.fetches)
    ensures WellFetched(Step(t).0.fetches)
    ensures var t' := Step(t).0;
      || Left(t') < Left(t)
      || (Left(t') == Left(t) && (|t'.line| < |t.line| || (t'.line == t.line && t'.ended)))
  {
    if t.fetches != [] && t.fetches[0].Data? {
      ConsumedKeeps(t.fetches, |Taken(t.fetches[0].bytes)|);
    }
  }

  datatype ReadResult = Ok(n: nat) | Err(why: Failure)

  lemma MessagesStep(t: Task)
    requires WellFetched(t.fetches) && !t.ended
    ensures WellFetched(Step(t).0.fetches)
    ensures Messages(t) == Step(t).1 + Messages(Step(t).0)
    ensures Step(t).0.ended ==> Messages(t) == Step(t).1
  {
    StepDecreases(t);
  }

  lemma EndMessages(line: seq<Byte>)
    ensures Messages(Task([], line, false, None)) == if line == [] then [] else [Line(line)] + Messages(Start([]))
  {
  }

  datatype Filled = AtEnd | Stopped(why: Failure) | Completed | Partial

  /** The outcome of one fill, against the step of the task. */
  predicate FilledBy(t: Task, r: Filled, fs: seq<Fetch>, line: seq<Byte>)
    requires !t.ended
  {
    match r
    case AtEnd => t.fetches == [] && fs == [] && line == t.line
    case Stopped(why) => Step(t) == (Task(fs, line, true, Some(why)), [Failed(why)])
    case Completed => t.fetches != [] && Step(t) == (Start(fs), [Line(line)])
    case Partial => Step(t) == (Task(fs, line, false, None), [])
  }

  lemma StoppedFacts(t: Task, fs: seq<Fetch>, line: seq<Byte>, why: Failure)
    requires WellFetched(t.fetches) && !t.ended && Step(t) == (Task(fs, line, true, Some(why)), [Failed(why)])
    ensures WellFetched(fs) && line + Remaining(fs) == t.line + Remaining(t.fetches) && Messages(t) == [Failed(why)]
  {
    StepKeepsBytes(t);
    MessagesStep(t);
    assert QueuedBytes([Failed(why)]) + line == line;
  }

  lemma CompletedFacts(t: Task, fs: seq<Fetch>, line: seq<Byte>)
    requires WellFetched(t.fetches) && !t.ended && t.fetches != [] && Step(t) == (Start(fs), [Line(line)])
    ensures WellFetched(fs) && line + Remaining(fs) == t.line + Remaining(t.fetches)
    ensures line != [] && Messages(t) == [Line(line)] + Messages(Start(fs))
  {
    StepKeepsBytes(t);
    MessagesStep(t);
    assert QueuedBytes([Line(line)]) + [] == line;
  }

  lemma PartialFacts(t: Task, fs: seq<Fetch>, line: seq<Byte>)
    requires WellFetched(t.fetches) && !t.ended && Step(t) == (Task(fs, line, false, None), [])
    ensures WellFetched(fs) && line + Remaining(fs) == t.line + Remaining(t.fetches)
    ensures Messages(t) == Messages(Task(fs, line, false, None)) && Left(Task(fs, line, false, None)) < Left(t)
  {
    StepKeepsBytes(t);
    MessagesStep(t);
    StepDecreases(t);
    assert QueuedBytes([]) + line == line;
  }

  class ReaderTask {
    var fetches: seq<Fetch>
    var line: seq<Byte>
    var tx: seq<Message>

    constructor (fs: seq<Fetch>)
      ensures fetches == fs && line == [] && tx == []
    {
      fetches, line, tx := fs, [], [];
    }

    /** One fill: what it takes from the source is appended to the line. */
    method FillOnce() returns (r: Filled)
      requires WellFetched(fetches)
      modifies `fetches, `line
      ensures FilledBy(Task(old(fetches), old(line), false, None), r, fetches, line)
    {
      if fetches == [] { return AtEnd; }
      match fetches[0] {
        case Broken(e) =>
          fetches := fetches[1..];
          return Stopped(Io(e));
        case Data(available) =>
          var pos := FirstNewline(available);
          var consumed, done := |available|, false;
          if pos < |available| { consumed, done := pos + 1, true; }
          line := line + available[..consumed];
          fetches := Consumed(fetches, consumed);
          assert available[..consumed] == Taken(available) && done == EndsLine(Taken(available));
          if |line| > MAX_LINE_SIZE { return Stopped(TooLong); }
          return if done then Completed else Partial;
      }
    }

    /** Reads one line; its length is checked after every fill. */
    method ReadLineCapped() returns (r: ReadResult)
      requires WellFetched(fetches)
      modifies `fetches, `line
      ensures WellFetched(fetches) && line + Remaining(fetches) == Remaining(old(fetches))
      ensures match r
        case Ok(n) => n == |line| &&
          Messages(Start(old(fetches))) == if n == 0 then [] else [Line(line)] + Messages(Start(fetches))
        case Err(why) => Messages(Start(old(fetches))) == [Failed(why)]
    {
      line := [];
      while true
        invariant WellFetched(fetches) && line + Remaining(fetches) == Remaining(old(fetches))
        invariant Messages(Task(fetches, line, false, None)) == Messages(Start(old(fetches)))
        decreases Left(Task(fetches, line, false, None))
      {
        ghost var t := Task(fetches, line, false, None);
        var filled := FillOnce();
        match filled {
          case AtEnd =>
            EndMessages(line);
            return Ok(|line|);
          case Stopped(why) =>
            StoppedFacts(t, fetches, line, why);
            return Err(why);
          case Completed =>
            CompletedFacts(t, fetches, line);
            return Ok(|line|);
          case Partial => PartialFacts(t, fetches, line);
        }
      }
    }

    method Run()
      requires WellFetched(fetches)
      modifies this
      ensures tx == old(tx) + Messages(Start(old(fetches)))
    {
      while true
        invariant WellFetched(fetches)
        invariant tx + Messages(Start(fetches)) == old(tx) + Messages(Start(old(fetches)))
        decreases |Remaining(fetches)|
      {
        ghost var before := fetches;
        var r := ReadLineCapped();
        match r {
          case Ok(n) =>
            if n == 0 { return; }
            assert |Remaining(before)| == n + |Remaining(fetches)|;
            Regroup(tx, [Line(line)], Messages(Start(fetches)));
            tx := tx + [Line(line)];
            line := [];
          case Err(why) =>
            tx := tx + [Failed(why)];
            return;
        }
      }
    }
  }

  // ---------------------------------------------------------------- the lines, whatever the chunking

  datatype End = Eof | Failing(error: string)

  function DataBeforeEnd(fs: seq<Fetch>): seq<Byte> {
    if fs == [] || fs[0].Broken? then [] else fs[0].bytes + DataBeforeEnd(fs[1..])
  }

  function EndOf(fs: seq<Fetch>): End {
    if fs == [] then Eof else if fs[0].Broken? then Failing(fs[0].error) else EndOf(fs[1..])
  }

  /** The lines of a text, up to one that is too long; at a failure the unfinished line is lost. */
  function Lines(s: seq<Byte>, end: End): seq<Message>
    decreases |s|
  {
    var n := FirstNewline(s);
    if n < |s| then
      if n + 1 > MAX_LINE_SIZE then [Failed(TooLong)] else [Line(s[..n + 1])] + Lines(s[n + 1..], end)
    else if |s| > MAX_LINE_SIZE then [Failed(TooLong)]
    else
      match end
      case Failing(e) => [Failed(Io(e))]
      case Eof => if s == [] then [] else [Line(s)]
  }

  lemma {:induction false} FirstNewlineOf(a: seq<Byte>, b: seq<Byte>)
    requires NEWLINE !in a
    ensures FirstNewline(a + b) == |a| + FirstNewline(b)
  {
    if a == [] {
      assert a + b == b;
    } else {
      assert (a + b)[1..] == a[1..] + b;
      FirstNewlineOf(a[1..], b);
    }
  }

  lemma LongStartFails(s: seq<Byte>, k: nat, end: End)
    requires MAX_LINE_SIZE < k <= |s| && NEWLINE !in s[..k - 1]
    ensures Lines(s, end) == [Failed(TooLong)]
  {
    assert forall i :: 0 <= i < k - 1 ==> s[i] == s[..k - 1][i];
    assert FirstNewline(s) >= k - 1;
  }

  lemma DataOfConsumed(fs: seq<Fetch>, n: nat)
    requires fs != [] && fs[0].Data? && n <= |fs[0].bytes|
    ensures DataBeforeEnd(fs) == fs[0].bytes[..n] + DataBeforeEnd(Consumed(fs, n))
    ensures EndOf(Consumed(fs, n)) == EndOf(fs)
  {
    var b := fs[0].bytes;
    if n < |b| {
      assert Consumed(fs, n)[1..] == fs[1..];
      Regroup(b[..n], b[n..], DataBeforeEnd(fs[1..]));
      assert b[..n] + b[n..] == b;
    } else {
      assert b[..n] == b;
    }
  }

  lemma TakenSplits(b: seq<Byte>)
    requires b != []
    ensures NEWLINE !in Taken(b)[..|Taken(b)| - 1]
    ensures EndsLine(Taken(b)) || NEWLINE !in Taken(b)
  {
  }

  lemma LinesCut(s: seq<Byte>, first: seq<Byte>, rest: seq<Byte>, end: End)
    requires s == first + rest && |first| <= MAX_LINE_SIZE && FirstNewline(s) + 1 == |first|
    ensures Lines(s, end) == [Line(first)] + Lines(rest, end)
  {
    assert s[..|first|] == first && s[|first|..] == rest;
  }

  lemma FirstLineOf(line: seq<Byte>, taken: seq<Byte>, rest: seq<Byte>, end: End)
    requires NEWLINE !in line && EndsLine(taken) && NEWLINE !in taken[..|taken| - 1]
    requires |line + taken| <= MAX_LINE_SIZE
    ensures Lines(line + taken + rest, end) == [Line(line + taken)] + Lines(rest, end)
  {
    var head, tail := line + taken[..|taken| - 1], [NEWLINE] + rest;
    assert line + taken == head + [NEWLINE];
    assert line + taken + rest == head + tail;
    FirstNewlineOf(head, tail);
    assert FirstNewline(tail) == 0;
    LinesCut(line + taken + rest, line + taken, rest, end);
  }

  /** The data of a task in front of its first fetch, at it, and behind what it takes of it. */
  lemma DataCase(t: Task)
    requires t.fetches != [] && t.fetches[0].Data? && t.fetches[0].bytes != []
    ensures var taken := Taken(t.fetches[0].bytes); var fs := Consumed(t.fetches, |taken|);
      && t.line + DataBeforeEnd(t.fetches) == t.line + taken + DataBeforeEnd(fs)
      && EndOf(fs) == EndOf(t.fetches)
      && NEWLINE !in taken[..|taken| - 1] && (EndsLine(taken) || NEWLINE !in taken)
  {
    var taken := Taken(t.fetches[0].bytes);
    DataOfConsumed(t.fetches, |taken|);
    TakenSplits(t.fetches[0].bytes);
    Regroup(t.line, taken, DataBeforeEnd(Consumed(t.fetches, |taken|)));
  }

  lemma TooLongCase(line: seq<Byte>, taken: seq<Byte>, rest: seq<Byte>, end: End)
    requires NEWLINE !in line && taken != [] && NEWLINE !in taken[..|taken| - 1] && |line + taken| > MAX_LINE_SIZE
    ensures Lines(line + taken + rest, end) == [Failed(TooLong)]
  {
    var k := |line + taken|;
    assert (line + taken + rest)[..k - 1] == line + taken[..|taken| - 1];
    LongStartFails(line + taken + rest, k, end);
  }

  lemma LinesAtEnd(line: seq<Byte>, end: End)
    requires NEWLINE !in line && |line| <= MAX_LINE_SIZE
    ensures Lines(line + [], end) ==
      match end case Failing(e) => [Failed(Io(e))] case Eof => if line == [] then [] else [Line(line)]
  {
    assert line + [] == line;
  }

  /** The messages of a task are the lines of its text: how the source was chunked is irrelevant. */
  lemma {:induction false} MessagesAreLines(t: Task)
    requires WellFetched(t.fetches) && !t.ended && NEWLINE !in t.line && |t.line| <= MAX_LINE_SIZE
    ensures Messages(t) == Lines(t.line + DataBeforeEnd(t.fetches), EndOf(t.fetches))
    decreases Left(t), |t.line|
  {
    var (t', sent) := Step(t);
    MessagesStep(t);
    StepDecreases(t);
    if t.fetches == [] {
      LinesAtEnd(t.line, Eof);
      if t.line != [] { EndMessages([]); }
    } else if t.fetches[0].Broken? {
      LinesAtEnd(t.line, EndOf(t.fetches));
    } else {
      var taken := Taken(t.fetches[0].bytes);
      var rest, end := DataBeforeEnd(Consumed(t.fetches, |taken|)), EndOf(t.fetches);
      DataCase(t);
      if |t.line + taken| > MAX_LINE_SIZE {
        TooLongCase(t.line, taken, rest, end);
      } else if EndsLine(taken) {
        FirstLineOf(t.line, taken, rest, end);
        MessagesAreLines(t');
        assert [] + rest == rest;
      } else {
        MessagesAreLines(t');
      }
    }
  }

  lemma ChunkingIsIrrelevant(fs: seq<Fetch>, gs: seq<Fetch>)
    requires WellFetched(fs) && WellFetched(gs)
    requires DataBeforeEnd(fs) == DataBeforeEnd(gs) && EndOf(fs) == EndOf(gs)
    ensures Messages(Start(fs)) == Messages(Start(gs))
  {
    MessagesAreLines(Start(fs));
    MessagesAreLines(Start(gs));
  }

  // ---------------------------------------------------------------- serving the lines

  datatype Poll = Ready(n: nat) | ReadyErr(why: Failure) | Pending

  /** `rx` is the queue of sent messages; `open` tells whether the task still holds its sender. */
  datatype Reader = Reader(buf: seq<Byte>, pos: nat, rx: seq<Message>, open: bool)

  predicate ReaderOk(r: Reader) { r.pos <= |r.buf| }

  /** The reader after a poll with room for `size` bytes, the outcome, and the bytes written. */
  function Polled(r: Reader, size: nat): (outcome: (Reader, Poll, seq<Byte>))
    requires ReaderOk(r)
    ensures ReaderOk(outcome.0) && |outcome.2| <= size
  {
    if r.pos < |r.buf| then
      var n := Min(|r.buf| - r.pos, size);
      (if r.pos + n >= |r.buf| then Reader([], 0, r.rx, r.open) else Reader(r.buf, r.pos + n, r.rx, r.open),
       Ready(n), r.buf[r.pos..r.pos + n])
    else if r.rx == [] then (r, if r.open then Pending else Ready(0), [])
    else
      var rest := r.rx[1..];
      match r.rx[0]
      case Failed(why) => (Reader(r.buf, r.pos, rest, r.open), ReadyErr(why), [])
      case Line(line) =>
        var n := Min(|line|, size);
        (if n < |line| then Reader(line, n, rest, r.open) else Reader(r.buf, r.pos, rest, r.open), Ready(n), line[..n])
  }

  class LineBufferedRead {
    var buf: seq<Byte>
    var pos: nat
    var rx: seq<Message>
    var open: bool

    function Now(): Reader
      reads this
    { Reader(buf, pos, rx, open) }

    constructor ()
      ensures Now() == Reader([], 0, [], true)
    {
      buf, pos, rx, open := [], 0, [], true;
    }

    /** The task's side of the channel. */
    method Send(m: Message)
      modifies `rx
      ensures rx == old(rx) + [m]
    {
      rx := rx + [m];
    }

    method CopyTo(dst: array<Byte>, src: seq<Byte>)
      requires |src| <= dst.Length
      modifies dst
      ensures dst[..] == src + old(dst[..])[|src|..]
    {
      for i := 0 to |src|
        invariant forall k :: 0 <= k < dst.Length ==> dst[k] == if k < i then src[k] else old(dst[k])
      {
        dst[i] := src[i];
      }
    }

    method PollRead(dst: array<Byte>) returns (r: Poll)
      requires ReaderOk(Now())
      modifies this, dst
      ensures (Now(), r) == (Polled(old(Now()), dst.Length).0, Polled(old(Now()), dst.Length).1)
      ensures var written := Polled(old(Now()), dst.Length).2; dst[..] == written + old(dst[..])[|written|..]
    {
      if pos < |buf| {
        var avail := |buf| - pos;
        var n := Min(avail, dst.Length);
        CopyTo(dst, buf[pos..pos + n]);
        pos := pos + n;
        if pos >= |buf| { buf, pos := [], 0; }
        return Ready(n);
      }
      if rx == [] {
        return if open then Pending else Ready(0);
      }
      var m := rx[0];
      rx := rx[1..];
      match m {
        case Failed(why) => return ReadyErr(why);
        case Line(line) =>
          var n := Min(|line|, dst.Length);
          CopyTo(dst, line[..n]);
          if n < |line| { buf, pos := line, n; }
          return Ready(n);
      }
    }
  }

  // ---------------------------------------------------------------- the whole stream

  function QueuedBytes(rx: seq<Message>): seq<Byte> {
    if rx == [] then [] else (if rx[0].Line? then rx[0].bytes else []) + QueuedBytes(rx[1..])
  }

  lemma {:induction false} QueuedConcat(a: seq<Message>, b: seq<Message>)
    ensures QueuedBytes(a + b) == QueuedBytes(a) + QueuedBytes(b)
  {
    if a == [] {
      assert a + b == b;
    } else {
      assert (a + b)[1..] == a[1..] + b;
      QueuedConcat(a[1..], b);
    }
  }

  /** The task, the reader, and all bytes delivered so far. */
  datatype System = System(task: Task, reader: Reader, delivered: seq<Byte>)

  datatype Action = Fill | PollFor(size: nat)

  function Initial(fs: seq<Fetch>): System { System(Start(fs), Reader([], 0, [], true), []) }

  function Next(s: System, a: Action): (next: System)
    requires ReaderOk(s.reader)
    ensures ReaderOk(next.reader)
  {
    match a
    case Fill =>
      if s.task.ended then s
      else
        var (t, sent) := Step(s.task);
        s.(task := t, reader := Reader(s.reader.buf, s.reader.pos, s.reader.rx + sent, !t.ended))
    case PollFor(size) =>
      var (r, _, written) := Polled(s.reader, size);
      s.(reader := r, delivered := s.delivered + written)
  }

  function Stash(r: Reader): seq<Byte>
    requires ReaderOk(r)
  { r.buf[r.pos..] }

  /** What has been cut into lines: delivered, stashed or queued. */
  function Cut(s: System): seq<Byte>
    requires ReaderOk(s.reader)
  { s.delivered + (Stash(s.reader) + QueuedBytes(s.reader.rx)) }

  predicate AtBoundary(b: seq<Byte>) { b == [] || EndsLine(b) }

  predicate Inv(s: System, source: seq<Byte>) {
    && ReaderOk(s.reader) && WellFetched(s.task.fetches)
    && s.reader.open == !s.task.ended
    && (forall k :: 0 <= k < |s.reader.rx| && s.reader.rx[k].Line? ==> s.reader.rx[k].bytes != [])
    && Cut(s) + s.task.line + Remaining(s.task.fetches) == source
    && (AtBoundary(Cut(s)) || (s.task.fetches == [] && s.task.line == []))
    && (s.task.ended && s.task.failure.None? ==> s.task.fetches == [] && s.task.line == [])
  }

  lemma InitialInv(fs: seq<Fetch>)
    requires WellFetched(fs)
    ensures Inv(Initial(fs), Remaining(fs))
  {
    assert Cut(Initial(fs)) == [];
  }

  lemma PollKeepsCut(r: Reader, size: nat)
    requires ReaderOk(r)
    ensures var (r', _, written) := Polled(r, size);
      ReaderOk(r') && written + (Stash(r') + QueuedBytes(r'.rx)) == Stash(r) + QueuedBytes(r.rx)
  {
    if r.pos < |r.buf| {
      var n := Min(|r.buf| - r.pos, size);
      Regroup(r.buf[r.pos..r.pos + n], r.buf[r.pos + n..], QueuedBytes(r.rx));
      assert r.buf[r.pos..r.pos + n] + r.buf[r.pos + n..] == r.buf[r.pos..];
      if r.pos + n >= |r.buf| { assert r.buf[r.pos + n..] == []; }
    } else if r.rx != [] && r.rx[0].Line? {
      var line := r.rx[0].bytes;
      var n := Min(|line|, size);
      Regroup(line[..n], line[n..], QueuedBytes(r.rx[1..]));
      assert line[..n] + line[n..] == line;
    }
  }

  lemma PollKeepsInv(s: System, size: nat, source: seq<Byte>)
    requires Inv(s, source)
    ensures Inv(Next(s, PollFor(size)), source)
  {
    PollKeepsCut(s.reader, size);
    var (r, _, written) := Polled(s.reader, size);
    Regroup(s.delivered, written, Stash(r) + QueuedBytes(r.rx));
    assert Cut(Next(s, PollFor(size))) == Cut(s);
  }

  lemma FillCut(s: System)
    requires ReaderOk(s.reader) && !s.task.ended
    ensures Cut(Next(s, Fill)) == Cut(s) + QueuedBytes(Step(s.task).1)
  {
    var sent := Step(s.task).1;
    QueuedConcat(s.reader.rx, sent);
    Regroup(s.delivered + Stash(s.reader), QueuedBytes(s.reader.rx), QueuedBytes(sent));
    Regroup(s.delivered, Stash(s.reader), QueuedBytes(s.reader.rx));
    Regroup(s.delivered, Stash(s.reader), QueuedBytes(s.reader.rx) + QueuedBytes(sent));
  }

  lemma SentLines(t: Task)
    requires !t.ended && WellFetched(t.fetches)
    ensures var (t', sent) := Step(t);
      && (forall k :: 0 <= k < |sent| && sent[k].Line? ==> sent[k].bytes != [])
      && (QueuedBytes(sent) == [] || EndsLine(QueuedBytes(sent)) || (t'.fetches == [] && t'.line == []))
  {
  }

  lemma FillKeepsInv(s: System, source: seq<Byte>)
    requires Inv(s, source)
    ensures Inv(Next(s, Fill), source)
  {
    if !s.task.ended {
      var (t, sent) := Step(s.task);
      FillCut(s);
      StepKeepsBytes(s.task);
      SentLines(s.task);
      var q := QueuedBytes(sent);
      Regroup(Cut(s), s.task.line, Remaining(s.task.fetches));
      Regroup(q, t.line, Remaining(t.fetches));
      Regroup(Cut(s), q, t.line + Remaining(t.fetches));
      Regroup(Cut(s) + q, t.line, Remaining(t.fetches));
    }
  }

  /** The system after a schedule of fills and polls. */
  function Exec(s: System, run: seq<Action>): (end: System)
    requires ReaderOk(s.reader)
    ensures ReaderOk(end.reader)
    decreases |run|
  {
    if run == [] then s else Exec(Next(s, run[0]), run[1..])
  }

  lemma StepKeepsInv(s: System, a: Action, source: seq<Byte>)
    requires Inv(s, source)
    ensures Inv(Next(s, a), source)
  {
    match a
    case Fill => FillKeepsInv(s, source);
    case PollFor(size) => PollKeepsInv(s, size, source);
  }

  lemma {:induction false} ExecKeepsInv(s: System, run: seq<Action>, source: seq<Byte>)
    requires Inv(s, source)
    ensures Inv(Exec(s, run), source)
    decreases |run|
  {
    if run != [] {
      StepKeepsInv(s, run[0], source);
      ExecKeepsInv(Next(s, run[0]), run[1..], source);
    }
  }

  /** For every chunking and every schedule of fills and polls, delivered, stashed, queued,
      partly read and unread bytes are together the source, in order. */
  lemma StreamIsPreserved(fs: seq<Fetch>, run: seq<Action>)
    requires WellFetched(fs)
    ensures var s := Exec(Initial(fs), run);
      s.delivered + (Stash(s.reader) + QueuedBytes(s.reader.rx)) + s.task.line + Remaining(s.task.fetches) == Remaining(fs)
  {
    InitialInv(fs);
    ExecKeepsInv(Initial(fs), run, Remaining(fs));
  }

  /** A poll is pending only when the delivered bytes end a line or are the whole source. */
  lemma PendingOnlyAtBoundary(fs: seq<Fetch>, run: seq<Action>, size: nat)
    requires WellFetched(fs)
    ensures var s := Exec(Initial(fs), run);
      Polled(s.reader, size).1 == Pending ==> AtBoundary(s.delivered) || s.delivered == Remaining(fs)
  {
    InitialInv(fs);
    ExecKeepsInv(Initial(fs), run, Remaining(fs));
    var s := Exec(Initial(fs), run);
    if Polled(s.reader, size).1 == Pending { NothingWaiting(s); }
  }

  lemma NothingWaiting(s: System)
    requires ReaderOk(s.reader) && s.reader.pos == |s.reader.buf| && s.reader.rx == []
    ensures Cut(s) == s.delivered
  {
  }

  /** A poll with room that reports the end has delivered the whole source, unless the task failed;
      then exactly the partly read line and the unread rest are missing. */
  lemma EndMeansDelivered(fs: seq<Fetch>, run: seq<Action>, size: nat)
    requires WellFetched(fs) && size > 0
    ensures var s := Exec(Initial(fs), run);
      Polled(s.reader, size).1 == Ready(0) ==>
        if s.task.failure.None? then s.delivered == Remaining(fs)
        else s.delivered + s.task.line + Remaining(s.task.fetches) == Remaining(fs)
  {
    InitialInv(fs);
    ExecKeepsInv(Initial(fs), run, Remaining(fs));
    var s := Exec(Initial(fs), run);
    if Polled(s.reader, size).1 == Ready(0) { NothingWaiting(s); }
  }
}
