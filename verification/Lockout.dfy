/** The login lockout: the stored row against the history of password checks, over whole runs. */
module Lockout {
  import opened Bytes

  const COOLDOWN: nat := 600000
  const FAILS_COOLDOWN: nat := 3
  const FAILS_DAY: nat := 10

  /** The calendar key of a time in milliseconds. */
  type Calendar = nat -> string

  /** Keys are never empty, and a key does not come back once another day has begun. */
  ghost predicate IsCalendar(day: Calendar) {
    (forall t :: day(t) != "") && forall a, b, c :: a <= b <= c && day(a) == day(c) ==> day(b) == day(a)
  }

  datatype Row = Row(failStreak: nat, dayKey: string, lockUntil: nat, dayLocked: bool)

  /** `matches` is the outcome of the password check, should it be made: a known user and a right password. */
  datatype Request = Request(email: string, password: string, captchaError: Option<string>, now: nat, matches: bool)

  datatype Response =
    | Rejected
    | DayLocked
    | Cooldown(minutes: nat, retryAfterSec: nat)
    | Issued
    | WrongPassword(remainingTries: nat, remainingUntilCooldown: nat)

  function CeilDiv(a: nat, b: nat): nat
    requires b > 0
  { (a + b - 1) / b }

  function CooldownFor(left: nat): Response {
    var sec: nat := Max(1, CeilDiv(left, 1000));
    Cooldown(Max(1, CeilDiv(sec, 60)), sec)
  }

  /** The answer to the failed check that makes the streak `n`. */
  function WrongAt(n: nat): Response {
    WrongPassword(Max(0, FAILS_DAY - n), if n % FAILS_COOLDOWN == 0 then 0 else FAILS_COOLDOWN - n % FAILS_COOLDOWN)
  }

  /** The row of a streak of `n` failures, the last one at `now`. */
  function RowFor(n: nat, now: nat, day: Calendar): Row {
    Row(n, day(now), if n < FAILS_DAY && n % FAILS_COOLDOWN == 0 then now + COOLDOWN else 0, n >= FAILS_DAY)
  }

  /** The row as the day of the request sees it. */
  function Current(rows: map<string, Row>, email: string, today: string): Row {
    var row := if email in rows then rows[email] else Row(0, "", 0, false);
    if row.dayKey != "" && row.dayKey != today then Row(0, today, 0, false) else row
  }

  function Handled(rows: map<string, Row>, q: Request, day: Calendar): (map<string, Row>, Response) {
    var row := Current(rows, q.email, day(q.now));
    if q.captchaError.Some? || q.email == "" || q.password == "" then (rows, Rejected)
    else if row.dayLocked then (rows, DayLocked)
    else if q.now < row.lockUntil then (rows, CooldownFor(row.lockUntil - q.now))
    else if q.matches then (rows - {q.email}, Issued)
    else (rows[q.email := RowFor(row.failStreak + 1, q.now, day)], WrongAt(row.failStreak + 1))
  }

  class LoginLockouts {
    const day: Calendar
    var rows: map<string, Row>

    constructor (day: Calendar)
      ensures this.day == day && rows == map[]
    {
      this.day := day;
      rows := map[];
    }

    method HandleLogin(q: Request) returns (r: Response)
      modifies this
      ensures (rows, r) == Handled(old(rows), q, day)
    {
      if q.captchaError.Some? { return Rejected; }
      if q.email == "" || q.password == "" { return Rejected; }
      var now, today := q.now, day(q.now);
      var failStreak: nat, dayKey, lockUntil: nat, dayLocked := 0, "", 0, false;
      if q.email in rows {
        var lock := rows[q.email];
        failStreak, dayKey, lockUntil, dayLocked := lock.failStreak, lock.dayKey, lock.lockUntil, lock.dayLocked;
      }
      if dayKey != "" && dayKey != today {
        failStreak, dayLocked, lockUntil, dayKey := 0, false, 0, today;
      }
      if dayLocked { return DayLocked; }
      if now < lockUntil {
        var retryAfterSec: nat := Max(1, CeilDiv(lockUntil - now, 1000));
        var mins: nat := Max(1, CeilDiv(retryAfterSec, 60));
        return Cooldown(mins, retryAfterSec);
      }
      if q.matches {
        rows := rows - {q.email};
        return Issued;
      }
      failStreak := failStreak + 1;
      var nextLockUntil: nat, nextDayLocked := 0, false;
      if failStreak >= FAILS_DAY {
        nextDayLocked := true;
      } else if failStreak % FAILS_COOLDOWN == 0 {
        nextLockUntil := now + COOLDOWN;
      }
      rows := rows[q.email := Row(failStreak, today, nextLockUntil, nextDayLocked)];
      var remainingTries: nat := Max(0, FAILS_DAY - failStreak);
      var remainingUntilCooldown: nat :=
        if failStreak % FAILS_COOLDOWN == 0 then 0 else FAILS_COOLDOWN - failStreak % FAILS_COOLDOWN;
      return WrongPassword(remainingTries, remainingUntilCooldown);
    }
  }

  // ---------------------------------------------------------------- the history of checks

  /** A password check that was made. */
  datatype Check = Check(email: string, now: nat, good: bool)

  /** The times of the failed checks of an email on one day since its last successful check. */
  function Streak(history: seq<Check>, email: string, key: string, day: Calendar): seq<nat> {
    if history == [] then []
    else
      var before, last := history[..|history| - 1], history[|history| - 1];
      if last.email != email then Streak(before, email, key, day)
      else if last.good then []
      else if day(last.now) == key then Streak(before, email, key, day) + [last.now]
      else Streak(before, email, key, day)
  }

  /** The answer that the history alone determines: ten failures lock the day, and after every
      third one a check is refused for ten minutes. */
  function Answer(history: seq<Check>, q: Request, day: Calendar): Response {
    var ts := Streak(history, q.email, day(q.now), day);
    var n := |ts|;
    if q.captchaError.Some? || q.email == "" || q.password == "" then Rejected
    else if n >= FAILS_DAY then DayLocked
    else if n > 0 && n % FAILS_COOLDOWN == 0 && q.now < ts[n - 1] + COOLDOWN then CooldownFor(ts[n - 1] + COOLDOWN - q.now)
    else if q.matches then Issued
    else WrongAt(n + 1)
  }

  function Recorded(history: seq<Check>, q: Request, r: Response): seq<Check> {
    if r.Issued? || r.WrongPassword? then history + [Check(q.email, q.now, r.Issued?)] else history
  }

  /** The time of the last failed check of an email since its last successful one. */
  function LastFail(history: seq<Check>, email: string): Option<nat> {
    if history == [] then None
    else
      var last := history[|history| - 1];
      if last.email != email then LastFail(history[..|history| - 1], email) else if last.good then None else Some(last.now)
  }

  predicate NoLaterThan(history: seq<Check>, now: nat) { forall i :: 0 <= i < |history| ==> history[i].now <= now }

  predicate Sorted(history: seq<Check>) { forall i, j :: 0 <= i < j < |history| ==> history[i].now <= history[j].now }

  lemma {:induction false} StreakTimes(history: seq<Check>, email: string, key: string, day: Calendar)
    requires Sorted(history)
    ensures var ts := Streak(history, email, key, day);
      ts != [] ==> LastFail(history, email).Some? && ts[|ts| - 1] <= LastFail(history, email).value && day(ts[|ts| - 1]) == key
  {
    if history != [] {
      var before, last := history[..|history| - 1], history[|history| - 1];
      StreakTimes(before, email, key, day);
      var f := LastFail(before, email);
      if f.Some? { LastFailIsRecorded(before, email); }
    }
  }

  lemma {:induction false} LastFailIsRecorded(history: seq<Check>, email: string)
    ensures LastFail(history, email).Some? ==> exists i :: 0 <= i < |history| && history[i].now == LastFail(history, email).value
  {
    if history != [] { LastFailIsRecorded(history[..|history| - 1], email); }
  }

  lemma {:induction false} StreakOfLastDay(history: seq<Check>, email: string, day: Calendar)
    ensures var f := LastFail(history, email);
      f.Some? ==> var ts := Streak(history, email, day(f.value), day); ts != [] && ts[|ts| - 1] == f.value
  {
    if history != [] { StreakOfLastDay(history[..|history| - 1], email, day); }
  }

  /** On any later day than that of the last failure the streak is empty. */
  lemma StreakOnOtherDay(history: seq<Check>, email: string, now: nat, day: Calendar)
    requires IsCalendar(day) && Sorted(history) && NoLaterThan(history, now)
    requires var f := LastFail(history, email); f.None? || day(f.value) != day(now)
    ensures Streak(history, email, day(now), day) == []
  {
    var ts := Streak(history, email, day(now), day);
    StreakTimes(history, email, day(now), day);
    LastFailIsRecorded(history, email);
  }

  // ---------------------------------------------------------------- the row stands for the history

  /** A row is that of the streak on the day of the last failure; without one there is no row. */
  predicate RowMatches(rows: map<string, Row>, history: seq<Check>, email: string, day: Calendar) {
    var f := LastFail(history, email);
    if f.None? then email !in rows
    else email in rows && rows[email] == RowFor(|Streak(history, email, day(f.value), day)|, f.value, day)
  }

  ghost predicate Matches(rows: map<string, Row>, history: seq<Check>, day: Calendar) {
    forall email :: RowMatches(rows, history, email, day)
  }

  /** What the day of a request sees is the streak of that day. */
  lemma CurrentIsStreak(rows: map<string, Row>, history: seq<Check>, email: string, now: nat, day: Calendar)
    requires IsCalendar(day) && Sorted(history) && NoLaterThan(history, now) && RowMatches(rows, history, email, day)
    ensures var row, ts := Current(rows, email, day(now)), Streak(history, email, day(now), day);
      && row.failStreak == |ts|
      && row.dayLocked == (|ts| >= FAILS_DAY)
      && row.lockUntil == if 0 < |ts| < FAILS_DAY && |ts| % FAILS_COOLDOWN == 0 then ts[|ts| - 1] + COOLDOWN else 0
  {
    var f := LastFail(history, email);
    StreakOfLastDay(history, email, day);
    if f.None? || day(f.value) != day(now) { StreakOnOtherDay(history, email, now, day); }
  }

  lemma OtherEmailsKept(history: seq<Check>, c: Check, email: string, key: string, day: Calendar)
    requires c.email != email
    ensures Streak(history + [c], email, key, day) == Streak(history, email, key, day)
    ensures LastFail(history + [c], email) == LastFail(history, email)
  {
    assert (history + [c])[..|history|] == history;
  }

  lemma OwnCheck(history: seq<Check>, c: Check, day: Calendar)
    ensures LastFail(history + [c], c.email) == if c.good then None else Some(c.now)
    ensures !c.good ==>
      Streak(history + [c], c.email, day(c.now), day) == Streak(history, c.email, day(c.now), day) + [c.now]
  {
    assert (history + [c])[..|history|] == history;
  }

  lemma RecordKeepsOrder(history: seq<Check>, q: Request, r: Response)
    requires Sorted(history) && NoLaterThan(history, q.now)
    ensures Sorted(Recorded(history, q, r)) && NoLaterThan(Recorded(history, q, r), q.now)
  {
  }

  /** A request is answered as its history determines, and the row keeps standing for it. */
  lemma HandledAsAnswered(rows: map<string, Row>, history: seq<Check>, q: Request, day: Calendar)
    requires IsCalendar(day) && Sorted(history) && NoLaterThan(history, q.now) && Matches(rows, history, day)
    ensures var (rows', r) := Handled(rows, q, day);
      r == Answer(history, q, day) && Matches(rows', Recorded(history, q, r), day)
  {
    var (rows', r) := Handled(rows, q, day);
    assert RowMatches(rows, history, q.email, day);
    CurrentIsStreak(rows, history, q.email, q.now, day);
    if r.Issued? || r.WrongPassword? {
      var c := Check(q.email, q.now, r.Issued?);
      forall email ensures RowMatches(rows', history + [c], email, day) {
        assert RowMatches(rows, history, email, day);
        if email == q.email {
          OwnCheck(history, c, day);
        } else {
          var f := LastFail(history, email);
          OtherEmailsKept(history, c, email, if f.Some? then day(f.value) else "", day);
        }
      }
    }
  }

  // ---------------------------------------------------------------- whole runs

  /** The rows, the answers and the checks of a run of requests. */
  function Run(rows: map<string, Row>, history: seq<Check>, qs: seq<Request>, day: Calendar): (map<string, Row>, seq<Response>, seq<Check>)
    decreases |qs|
  {
    if qs == [] then (rows, [], history)
    else
      var (rows', r) := Handled(rows, qs[0], day);
      var (end, rs, h) := Run(rows', Recorded(history, qs[0], r), qs[1..], day);
      (end, [r] + rs, h)
  }

  function AnswerAll(history: seq<Check>, qs: seq<Request>, day: Calendar): (seq<Response>, seq<Check>)
    decreases |qs|
  {
    if qs == [] then ([], history)
    else
      var r := Answer(history, qs[0], day);
      var (rs, h) := AnswerAll(Recorded(history, qs[0], r), qs[1..], day);
      ([r] + rs, h)
  }

  predicate InOrder(qs: seq<Request>) { forall i, j :: 0 <= i < j < |qs| ==> qs[i].now <= qs[j].now }

  /** Failed checks of a streak are in order, and every third one keeps the next ten minutes away. */
  predicate Spaced(ts: seq<nat>) {
    && (forall i :: 0 < i < |ts| ==> ts[i - 1] <= ts[i])
    && (forall i :: 0 < i < |ts| && i % FAILS_COOLDOWN == 0 ==> ts[i - 1] + COOLDOWN <= ts[i])
  }

  ghost predicate AllSpaced(history: seq<Check>, day: Calendar) {
    forall email, key :: SpacedFor(history, email, key, day)
  }

  predicate SpacedFor(history: seq<Check>, email: string, key: string, day: Calendar) {
    var ts := Streak(history, email, key, day);
    |ts| <= FAILS_DAY && Spaced(ts)
  }

  lemma {:induction false} StreakBound(history: seq<Check>, email: string, key: string, now: nat, day: Calendar)
    requires NoLaterThan(history, now)
    ensures forall i :: 0 <= i < |Streak(history, email, key, day)| ==> Streak(history, email, key, day)[i] <= now
  {
    if history != [] { StreakBound(history[..|history| - 1], email, key, now, day); }
  }

  lemma AnswerKeepsSpacing(history: seq<Check>, q: Request, day: Calendar)
    requires NoLaterThan(history, q.now) && AllSpaced(history, day)
    ensures AllSpaced(Recorded(history, q, Answer(history, q, day)), day)
  {
    var r := Answer(history, q, day);
    if r.Issued? || r.WrongPassword? {
      var c := Check(q.email, q.now, r.Issued?);
      forall email, key ensures SpacedFor(history + [c], email, key, day) {
        assert SpacedFor(history, email, key, day);
        assert (history + [c])[..|history|] == history;
        StreakBound(history, email, key, q.now, day);
      }
    }
  }

  /** Over any run with a clock that does not go back, the stored rows answer as the history of
      checks does; in every streak each third failure is ten minutes before the next one, and
      there are at most ten. */
  lemma {:induction false} RunFollowsHistory(rows: map<string, Row>, history: seq<Check>, qs: seq<Request>, day: Calendar)
    requires IsCalendar(day) && Matches(rows, history, day) && AllSpaced(history, day) && Sorted(history) && InOrder(qs)
    requires forall i :: 0 <= i < |qs| ==> NoLaterThan(history, qs[i].now)
    ensures var (end, rs, h) := Run(rows, history, qs, day);
      && (rs, h) == AnswerAll(history, qs, day)
      && Matches(end, h, day) && AllSpaced(h, day) && Sorted(h)
    decreases |qs|
  {
    if qs != [] {
      var q := qs[0];
      var (rows', r) := Handled(rows, q, day);
      var history' := Recorded(history, q, r);
      HandledAsAnswered(rows, history, q, day);
      AnswerKeepsSpacing(history, q, day);
      RecordKeepsOrder(history, q, r);
      forall i | 0 <= i < |qs[1..]| ensures NoLaterThan(history', qs[1..][i].now) {
        assert qs[1..][i] == qs[i + 1];
      }
      RunFollowsHistory(rows', history', qs[1..], day);
    }
  }

  /** What is stored for an email and a day. */
  function StoredStreak(rows: map<string, Row>, email: string, key: string): nat {
    if email in rows && rows[email].dayKey == key then rows[email].failStreak else 0
  }

  /** After any run from an empty table, the streak stored for the current day is the number of
      failed checks of that day since the last success, at most ten, and a tenth failure comes at
      least thirty minutes after the first. */
  lemma StoredStreakIsFailures(qs: seq<Request>, email: string, now: nat, day: Calendar)
    requires IsCalendar(day) && InOrder(qs) && forall i :: 0 <= i < |qs| ==> qs[i].now <= now
    ensures var (rows, _, history) := Run(map[], [], qs, day);
      var ts := Streak(history, email, day(now), day);
      && StoredStreak(rows, email, day(now)) == |ts| <= FAILS_DAY
      && (|ts| == FAILS_DAY ==> ts[0] + 3 * COOLDOWN <= ts[9])
  {
    forall e ensures RowMatches(map[], [], e, day) { }
    forall e, key ensures SpacedFor([], e, key, day) { }
    RunFollowsHistory(map[], [], qs, day);
    var (rows, _, history) := Run(map[], [], qs, day);
    RunTimes(map[], [], qs, now, day);
    assert RowMatches(rows, history, email, day) && SpacedFor(history, email, day(now), day);
    CurrentIsStreak(rows, history, email, now, day);
    var ts := Streak(history, email, day(now), day);
    if |ts| == FAILS_DAY { TenTakeHalfAnHour(ts); }
  }

  lemma TenTakeHalfAnHour(ts: seq<nat>)
    requires |ts| == FAILS_DAY && Spaced(ts)
    ensures ts[0] + 3 * COOLDOWN <= ts[9]
  {
    assert ts[0] <= ts[1] <= ts[2] && ts[2] + COOLDOWN <= ts[3];
    assert ts[3] <= ts[4] <= ts[5] && ts[5] + COOLDOWN <= ts[6];
    assert ts[6] <= ts[7] <= ts[8] && ts[8] + COOLDOWN <= ts[9];
  }

  lemma {:induction false} RunTimes(rows: map<string, Row>, history: seq<Check>, qs: seq<Request>, now: nat, day: Calendar)
    requires NoLaterThan(history, now) && forall i :: 0 <= i < |qs| ==> qs[i].now <= now
    ensures NoLaterThan(Run(rows, history, qs, day).2, now)
    decreases |qs|
  {
    if qs != [] {
      var (rows', r) := Handled(rows, qs[0], day);
      RunTimes(rows', Recorded(history, qs[0], r), qs[1..], now, day);
    }
  }

  // ---------------------------------------------------------------- what the answers say

  /** A refused request is told the least number of whole seconds, and of whole minutes, after
      which the ten minutes since the third failure are over. */
  lemma CooldownIsLeast(history: seq<Check>, q: Request, day: Calendar)
    requires Answer(history, q, day).Cooldown?
    ensures var ts := Streak(history, q.email, day(q.now), day); var r := Answer(history, q, day);
      && ts != [] && q.now < ts[|ts| - 1] + 600000
      && q.now + 1000 * (r.retryAfterSec - 1) < ts[|ts| - 1] + 600000 <= q.now + 1000 * r.retryAfterSec
      && 60 * (r.minutes - 1) < r.retryAfterSec <= 60 * r.minutes
  {
  }

  /** A failed check is told how many more fit in the day, and how many more bring a cooldown. */
  lemma WrongPasswordCounts(history: seq<Check>, q: Request, day: Calendar)
    requires Answer(history, q, day).WrongPassword?
    ensures var n := |Streak(history, q.email, day(q.now), day)| + 1; var r := Answer(history, q, day);
      && n + r.remainingTries == 10
      && r.remainingUntilCooldown < 3 && (n + r.remainingUntilCooldown) % 3 == 0
  {
  }
}
