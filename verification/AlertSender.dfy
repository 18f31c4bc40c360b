/**
 * The sender (internal/app/usecase/alertsender/worker.go, lines 275-455): one claim-and-send
 * pass, what a send outcome does to the row, and the retry schedule.
 */
module AlertSender {
  import opened Optional
  import opened AlertTable
  import opened TextBytes

  // ---- backoff (lines 403-422) ---------------------------------------------------

  const INT64_MAX := 0x7fff_ffff_ffff_ffff

  /** Two's-complement wrap-around of a 64-bit duration. */
  function Wrap64(x: int): int {
    (x + 0x8000_0000_0000_0000) % 0x1_0000_0000_0000_0000 - 0x8000_0000_0000_0000
  }

  function Pow2(n: nat): nat { if n == 0 then 1 else 2 * Pow2(n - 1) }

  function Min(a: int, b: int): int { if a <= b then a else b }

  datatype RetryPolicy = RetryPolicy(
    enabled: bool, maxAttempts: int, initialBackoff: int, maxBackoff: int, jitterFraction: real)

  /** The delay before jitter, as documented: the initial delay doubled per retry, capped. */
  function CappedDelay(p: RetryPolicy, attempt: nat): int {
    if attempt <= 1 then p.initialBackoff
    else Min(p.initialBackoff * Pow2(attempt - 1), p.maxBackoff)
  }

  lemma {:induction false} Pow2Grows(m: nat, n: nat)
    requires m <= n
    ensures 1 <= Pow2(m) <= Pow2(n)
    decreases n
  {
    if m < n {
      Pow2Grows(m, n - 1);
    } else if n > 0 {
      Pow2Grows(0, n - 1);
    }
  }

  predicate NoOverflow(p: RetryPolicy) { p.initialBackoff <= INT64_MAX / 2 && p.maxBackoff <= INT64_MAX / 2 }

  lemma DelayStep(p: RetryPolicy, i: nat, attempt: nat)
    requires 0 < p.initialBackoff && 1 <= i < attempt
    ensures p.initialBackoff * Pow2(i) == p.initialBackoff * Pow2(i - 1) * 2
    ensures p.initialBackoff * Pow2(i) > p.maxBackoff ==> CappedDelay(p, attempt) == p.maxBackoff
  {
    Pow2Grows(i, attempt - 1);
    ScaleGrows(p.initialBackoff, Pow2(i), Pow2(attempt - 1));
  }

  lemma WrapSmall(x: int)
    requires 0 <= x <= INT64_MAX
    ensures Wrap64(x) == x
  {
  }

  /** What the loop of lines 406-412 still makes of `delay`, with the source's 64-bit doubling. */
  function DelayFrom(p: RetryPolicy, delay: int, i: int, attempt: int): int
    decreases attempt - i
  {
    if i >= attempt then delay
    else if Wrap64(delay * 2) > p.maxBackoff then p.maxBackoff
    else DelayFrom(p, Wrap64(delay * 2), i + 1, attempt)
  }

  /** Lines 404-412. */
  method ExponentialDelay(p: RetryPolicy, attempt: int) returns (delay: int)
    ensures delay == DelayFrom(p, p.initialBackoff, 1, attempt)
  {
    hide Wrap64;
    delay := p.initialBackoff;
    var i := 1;
    while i < attempt
      invariant DelayFrom(p, delay, i, attempt) == DelayFrom(p, p.initialBackoff, 1, attempt)
    {
      delay := Wrap64(delay * 2);
      if delay > p.maxBackoff {
        delay := p.maxBackoff;
        return;
      }
      i := i + 1;
    }
  }

  lemma {:induction false} DelayFromIsCapped(p: RetryPolicy, i: nat, attempt: nat)
    requires 0 < p.initialBackoff && 0 < p.maxBackoff && NoOverflow(p) && 1 <= i <= attempt
    requires i > 1 ==> p.initialBackoff * Pow2(i - 1) <= p.maxBackoff
    ensures DelayFrom(p, p.initialBackoff * Pow2(i - 1), i, attempt) == CappedDelay(p, attempt)
    decreases attempt - i
  {
    hide Wrap64;
    if i < attempt {
      DelayStep(p, i, attempt);
      Pow2Grows(0, i - 1);
      ScaleGrows(p.initialBackoff, 1, Pow2(i - 1));
      WrapSmall(p.initialBackoff * Pow2(i));
      if p.initialBackoff * Pow2(i) <= p.maxBackoff {
        DelayFromIsCapped(p, i + 1, attempt);
      }
    }
  }

  /** Without overflow the loop computes the documented delay: the initial one doubled per retry, capped. */
  lemma BackoffIsCapped(p: RetryPolicy, attempt: nat)
    requires 0 < p.initialBackoff && 0 < p.maxBackoff && NoOverflow(p)
    ensures DelayFrom(p, p.initialBackoff, 1, attempt) == CappedDelay(p, attempt)
  {
    if attempt >= 1 {
      assert p.initialBackoff * Pow2(0) == p.initialBackoff;
      DelayFromIsCapped(p, 1, attempt);
    }
  }

  lemma CappedIsPositive(p: RetryPolicy, attempt: nat)
    requires 0 < p.initialBackoff && 0 < p.maxBackoff
    ensures 0 < CappedDelay(p, attempt)
  {
    if attempt > 1 {
      Pow2Grows(0, attempt - 1);
      ScaleGrows(p.initialBackoff, 1, Pow2(attempt - 1));
    }
  }

  lemma ScaleGrows(c: nat, a: nat, b: nat)
    requires a <= b
    ensures c * a <= c * b
  {
  }

  /** The documented delay never shrinks from one attempt to the next, and stays within the cap. */
  lemma DelayIsMonotone(p: RetryPolicy, a: nat, b: nat)
    requires 0 < p.initialBackoff <= p.maxBackoff && 1 <= a <= b
    ensures 0 < p.initialBackoff <= CappedDelay(p, a) <= CappedDelay(p, b) <= p.maxBackoff
  {
    Pow2Grows(a - 1, b - 1);
    Pow2Grows(0, a - 1);
    ScaleGrows(p.initialBackoff, Pow2(a - 1), Pow2(b - 1));
    ScaleGrows(p.initialBackoff, 1, Pow2(a - 1));
    ScaleGrows(p.initialBackoff, 1, Pow2(b - 1));
  }

  /** Conversion of a float to an integer truncates toward zero. */
  function Truncate(x: real): int { if x >= 0.0 then x.Floor else -((-x).Floor) }

  /** The signed share of the delay that is added; `jitter` is the draw shifted to [-1, 1). */
  function Shift(p: RetryPolicy, delay: int, jitter: real): real { delay as real * (jitter * p.jitterFraction) }

  /** Lines 413-421. */
  function Jittered(p: RetryPolicy, delay: int, jitter: real): (d: int)
    ensures d >= 0
  {
    var d := if p.jitterFraction > 0.0 then delay + Truncate(Shift(p, delay, jitter)) else delay;
    if d < 0 then 0 else d
  }

  /** Lines 403-422. */
  function Backoff(p: RetryPolicy, attempt: int, jitter: real): (d: int)
    ensures d >= 0
  {
    Jittered(p, DelayFrom(p, p.initialBackoff, 1, attempt), jitter)
  }

  /** The configured fraction of a delay. */
  function Spread(p: RetryPolicy, delay: int): real { p.jitterFraction * delay as real }

  /** Jitter moves a delay by at most the configured fraction, and never below zero. */
  lemma JitterBounds(p: RetryPolicy, delay: int, jitter: real)
    requires 0 <= delay && 0.0 <= p.jitterFraction <= 1.0 && -1.0 <= jitter < 1.0
    ensures 0.0 <= Spread(p, delay) <= delay as real
    ensures var d := Jittered(p, delay, jitter) as real;
      delay as real - Spread(p, delay) <= d <= delay as real + Spread(p, delay)
  {
    hide Truncate, Shift, Spread;
    ShiftWithin(p, delay, jitter);
    TruncateWithin(Shift(p, delay, jitter), Spread(p, delay));
  }

  /** The jittered delay is the delay plus the drawn share of it, to the nanosecond. */
  lemma JitterIsExact(p: RetryPolicy, delay: int, jitter: real)
    requires 0 <= delay && 0.0 <= p.jitterFraction <= 1.0 && -1.0 <= jitter < 1.0
    ensures var exact := delay as real + delay as real * (jitter * p.jitterFraction);
      exact - 1.0 < Jittered(p, delay, jitter) as real < exact + 1.0
  {
    ShiftWithin(p, delay, jitter);
    NoShift(p, delay, jitter);
    var x := Shift(p, delay, jitter);
    hide Shift, Spread;
    assert x - 1.0 < Truncate(x) as real < x + 1.0;
  }

  lemma NoShift(p: RetryPolicy, delay: int, jitter: real)
    ensures p.jitterFraction == 0.0 ==> Shift(p, delay, jitter) == 0.0
  {
    assert p.jitterFraction == 0.0 ==> jitter * p.jitterFraction == 0.0;
  }

  lemma ShiftWithin(p: RetryPolicy, delay: int, jitter: real)
    requires 0 <= delay && 0.0 <= p.jitterFraction <= 1.0 && -1.0 <= jitter <= 1.0
    ensures -Spread(p, delay) <= Shift(p, delay, jitter) <= Spread(p, delay)
    ensures 0.0 <= Spread(p, delay) <= delay as real
  {
    var x, f := delay as real, p.jitterFraction;
    var u := jitter * f;
    WithinUnit(jitter, f);
    NonNegative(x, f - u);
    NonNegative(x, f + u);
    assert x * (f - u) == f * x - x * u && x * (f + u) == f * x + x * u;
    NonNegative(x, f);
    NonNegative(x, 1.0 - f);
    assert x * (1.0 - f) == x - f * x;
  }

  lemma WithinUnit(j: real, f: real)
    requires 0.0 <= f && -1.0 <= j <= 1.0
    ensures -f <= j * f <= f
  {
    NonNegative(1.0 - j, f);
    NonNegative(1.0 + j, f);
    assert (1.0 - j) * f == f - j * f && (1.0 + j) * f == f + j * f;
  }

  lemma NonNegative(a: real, b: real)
    requires 0.0 <= a && 0.0 <= b
    ensures 0.0 <= a * b
  {
  }

  lemma TruncateWithin(x: real, most: real)
    requires -most <= x <= most
    ensures -most <= Truncate(x) as real <= most
  {
  }

  // ---- the retry decision (lines 383-398 and 432-455) -------------------------------

  const PERMANENT_MARKERS: seq<string> := [
    "can't parse entities", "chat not found", "bot was kicked",
    "bot is not a member", "have no rights to send", "message is too long"]

  predicate IsPermanentError(msg: string) {
    HasPrefix(msg, "render:") || exists i :: 0 <= i < |PERMANENT_MARKERS| && Contains(msg, PERMANENT_MARKERS[i])
  }

  /** Which errors are final: a payload that cannot be rendered, and what Telegram will never take. */
  lemma FinalErrors(msg: string)
    ensures IsPermanentError(msg) <==>
      || (|msg| >= 7 && msg[..7] == "render:")
      || Contains(msg, "can't parse entities") || Contains(msg, "chat not found") || Contains(msg, "bot was kicked")
      || Contains(msg, "bot is not a member") || Contains(msg, "have no rights to send")
      || Contains(msg, "message is too long")
  {
    hide Contains;
    var m := PERMANENT_MARKERS;
    assert m[0] == "can't parse entities" && m[1] == "chat not found" && m[2] == "bot was kicked"
      && m[3] == "bot is not a member" && m[4] == "have no rights to send" && m[5] == "message is too long";
  }

  /** The time to retry at, or `None` when the failure is final; `draw` is the jitter drawn from [-1, 1). */
  function ScheduleRetry(p: RetryPolicy, sendAttempts: nat, error: string, now: Time, draw: real): Option<Time> {
    if !p.enabled then None
    else if IsPermanentError(error) then None
    else if sendAttempts + 1 >= p.maxAttempts then None
    else Some(now + Backoff(p, sendAttempts + 1, draw))
  }

  /**
   * A failure is retried exactly when the policy allows it, and then after the documented delay
   * for the attempts made, give or take the configured fraction.
   */
  lemma RetryIsBackedOff(p: RetryPolicy, sendAttempts: nat, error: string, now: Time, draw: real)
    requires 0 < p.initialBackoff && 0 < p.maxBackoff && NoOverflow(p)
    requires 0.0 <= p.jitterFraction <= 1.0 && -1.0 <= draw < 1.0
    ensures var at, delay := ScheduleRetry(p, sendAttempts, error, now, draw), CappedDelay(p, sendAttempts + 1);
      && (at.Some? <==> p.enabled && !IsPermanentError(error) && sendAttempts + 1 < p.maxAttempts)
      && (at.Some? ==> now <= at.value)
      && (at.Some? ==> delay as real - Spread(p, delay) <= (at.value - now) as real <= delay as real + Spread(p, delay))
  {
    hide Jittered, Spread, CappedDelay, DelayFrom, NoOverflow, IsPermanentError;
    BackoffIsCapped(p, sendAttempts + 1);
    CappedIsPositive(p, sendAttempts + 1);
    JitterBounds(p, CappedDelay(p, sendAttempts + 1), draw);
    assert Backoff(p, sendAttempts + 1, draw) == Jittered(p, CappedDelay(p, sendAttempts + 1), draw);
  }

  // ---- one claimed alert (lines 306-376) ----------------------------------------------

  /** What sending one claimed row came to: the payload did not decode, the context ended, the transport refused or accepted. */
  datatype Outcome = Unrenderable(reason: string) | Cancelled | Refused(reason: string) | Accepted(messageId: int)

  datatype Mark = LeaveSending | MarkAsSent(messageId: int) | MarkAsFailed(error: string, next: Option<Time>)

  function Decide(p: RetryPolicy, sendAttempts: nat, outcome: Outcome, now: Time, draw: real): Mark {
    match outcome
    case Unrenderable(reason) =>
      MarkAsFailed("render: " + reason, ScheduleRetry(p, sendAttempts, "render: " + reason, now, draw))
    case Cancelled => LeaveSending
    case Refused(reason) => MarkAsFailed(reason, ScheduleRetry(p, sendAttempts, reason, now, draw))
    case Accepted(id) => MarkAsSent(id)
  }

  function ApplyMark(r: Row, mark: Mark, now: Time): Row {
    match mark
    case LeaveSending => r
    case MarkAsSent(id) => SentRow(r, id, now)
    case MarkAsFailed(error, next) => FailRow(r, error, next, now)
  }

  /** A row that cannot be rendered is never retried, whatever the policy. */
  lemma RenderErrorsAreFinal(p: RetryPolicy, sendAttempts: nat, reason: string, now: Time, draw: real)
    ensures Decide(p, sendAttempts, Unrenderable(reason), now, draw) == MarkAsFailed("render: " + reason, None)
  {
    var msg := "render: " + reason;
    assert msg[..7] == "render:";
  }

  /** What one turn of the worker's loop meets: the context's state, the outcome, the clock and the random draw. */
  datatype Turn = Turn(contextDone: bool, outcome: Outcome, now: Time, draw: real)

  /** The rows after the claimed alerts have been worked through in order. */
  function Drained(rows: Table, alerts: seq<Alert>, turns: seq<Turn>, p: RetryPolicy): Table
    requires |alerts| <= |turns|
    decreases |alerts|
  {
    if alerts == [] || turns[0].contextDone then rows
    else
      var a, t := alerts[0], turns[0];
      var mark := Decide(p, a.row.sendAttempts, t.outcome, t.now, t.draw);
      var rows' := if a.id in rows then rows[a.id := ApplyMark(rows[a.id], mark, t.now)] else rows;
      Drained(rows', alerts[1..], turns[1..], p)
  }

  /** Some turn up to the `i`-th found the context ended. */
  predicate Ended(turns: seq<Turn>, i: int)
    requires i < |turns|
  {
    exists k :: 0 <= k <= i && turns[k].contextDone
  }

  /** What its own turn makes of the `i`-th alert's row, or nothing if the context ended first. */
  predicate Worked(was: Row, now: Row, alerts: seq<Alert>, turns: seq<Turn>, p: RetryPolicy, i: int)
    requires 0 <= i < |alerts| <= |turns|
  {
    var t := turns[i];
    now == if Ended(turns, i) then was
      else ApplyMark(was, Decide(p, alerts[i].row.sendAttempts, t.outcome, t.now, t.draw), t.now)
  }

  /** Every alert is marked by its own turn, until the context ends, and nothing else changes. */
  predicate WorkedThrough(was: Table, now: Table, alerts: seq<Alert>, turns: seq<Turn>, p: RetryPolicy)
    requires |alerts| <= |turns|
  {
    && now.Keys == was.Keys
    && (forall id :: id in was && id !in Ids(alerts) ==> now[id] == was[id])
    && (forall i :: 0 <= i < |alerts| ==>
      alerts[i].id in was && Worked(was[alerts[i].id], now[alerts[i].id], alerts, turns, p, i))
  }

  predicate DistinctIds(alerts: seq<Alert>) { forall i, j :: 0 <= i < j < |alerts| ==> alerts[i].id != alerts[j].id }

  lemma EndedLater(turns: seq<Turn>, i: nat)
    requires 0 < i < |turns| && !turns[0].contextDone
    ensures Ended(turns, i) <==> Ended(turns[1..], i - 1)
  {
    var rest := turns[1..];
    if Ended(turns, i) {
      var k :| 0 <= k <= i && turns[k].contextDone;
      assert rest[k - 1].contextDone;
    }
    if Ended(rest, i - 1) {
      var k :| 0 <= k <= i - 1 && rest[k].contextDone;
      assert turns[k + 1].contextDone;
    }
  }

  lemma WorkedNothing(rows: Table, alerts: seq<Alert>, turns: seq<Turn>, p: RetryPolicy)
    requires |alerts| <= |turns| && (alerts != [] ==> turns[0].contextDone)
    requires forall a :: a in alerts ==> a.id in rows
    ensures WorkedThrough(rows, rows, alerts, turns, p)
  {
    forall i | 0 <= i < |alerts|
      ensures Worked(rows[alerts[i].id], rows[alerts[i].id], alerts, turns, p, i)
    {
      assert turns[0].contextDone;
    }
  }

  /** The first alert's turn, then those of the others. */
  lemma WorkedFirst(rows: Table, then': Table, now: Table, alerts: seq<Alert>, turns: seq<Turn>, p: RetryPolicy)
    requires 0 < |alerts| <= |turns| && DistinctIds(alerts) && alerts[0].id in rows && !turns[0].contextDone
    requires var a, t := alerts[0], turns[0];
      then' == rows[a.id := ApplyMark(rows[a.id], Decide(p, a.row.sendAttempts, t.outcome, t.now, t.draw), t.now)]
    requires WorkedThrough(then', now, alerts[1..], turns[1..], p)
    ensures WorkedThrough(rows, now, alerts, turns, p)
  {
    hide Decide, ApplyMark;
    var a, rest := alerts[0], alerts[1..];
    forall id | id in rows && id !in Ids(alerts)
      ensures now[id] == rows[id]
    {
      assert a in alerts;
      assert id !in Ids(rest);
    }
    forall i | 0 <= i < |alerts|
      ensures alerts[i].id in rows && Worked(rows[alerts[i].id], now[alerts[i].id], alerts, turns, p, i)
    {
      if i == 0 {
        assert a.id !in Ids(rest);
      } else {
        EndedLater(turns, i);
        assert rest[i - 1] == alerts[i] && turns[1..][i - 1] == turns[i];
        assert Worked(then'[rest[i - 1].id], now[rest[i - 1].id], rest, turns[1..], p, i - 1);
      }
    }
  }

  lemma {:induction false} DrainedMeans(rows: Table, alerts: seq<Alert>, turns: seq<Turn>, p: RetryPolicy)
    requires |alerts| <= |turns| && DistinctIds(alerts) && forall a :: a in alerts ==> a.id in rows
    ensures WorkedThrough(rows, Drained(rows, alerts, turns, p), alerts, turns, p)
    decreases |alerts|
  {
    if alerts == [] || turns[0].contextDone {
      WorkedNothing(rows, alerts, turns, p);
    } else {
      hide WorkedThrough, Decide, ApplyMark;
      var a, t := alerts[0], turns[0];
      var then' := rows[a.id := ApplyMark(rows[a.id], Decide(p, a.row.sendAttempts, t.outcome, t.now, t.draw), t.now)];
      DrainedMeans(then', alerts[1..], turns[1..], p);
      WorkedFirst(rows, then', Drained(rows, alerts, turns, p), alerts, turns, p);
    }
  }

  class Worker {
    const store: AlertRepository
    const retry: RetryPolicy

    constructor (store: AlertRepository, retry: RetryPolicy)
      ensures this.store == store && this.retry == retry
    {
      this.store := store;
      this.retry := retry;
    }

    /** Lines 306-376. */
    method Send(a: Alert, turn: Turn)
      requires store.Valid()
      modifies store
      ensures store.Valid()
      ensures store.rows == if a.id in old(store.rows)
        then old(store.rows)[a.id := ApplyMark(old(store.rows)[a.id],
          Decide(retry, a.row.sendAttempts, turn.outcome, turn.now, turn.draw), turn.now)]
        else old(store.rows)
      ensures a.id in old(store.rows) && old(store.rows)[a.id].status == Sending ==>
        var was := old(store.rows)[a.id];
        match turn.outcome
        case Accepted(id) => store.rows == old(store.rows)[a.id := was.(
          status := Sent, messageId := Some(id), lastError := None, nextRetryAt := None, updatedAt := turn.now)]
        case Refused(reason) => store.rows == old(store.rows)[a.id := was.(
          status := Failed, sendAttempts := was.sendAttempts + 1, lastError := Some(reason), updatedAt := turn.now,
          nextRetryAt := ScheduleRetry(retry, a.row.sendAttempts, reason, turn.now, turn.draw))]
        case Unrenderable(reason) => store.rows == old(store.rows)[a.id := was.(
          status := Failed, sendAttempts := was.sendAttempts + 1, lastError := Some("render: " + reason),
          updatedAt := turn.now, nextRetryAt := None)]
        case Cancelled => store.rows == old(store.rows)
    {
      match turn.outcome
      case Unrenderable(reason) =>
        RenderErrorsAreFinal(retry, a.row.sendAttempts, reason, turn.now, turn.draw);
        MarkFailed(a, "render: " + reason, turn);
      case Cancelled =>
      case Refused(reason) =>
        MarkFailed(a, reason, turn);
      case Accepted(id) =>
        store.MarkSent(a.id, id, turn.now);
    }

    method MarkFailed(a: Alert, error: string, turn: Turn)
      requires store.Valid()
      modifies store
      ensures store.Valid()
      ensures store.rows == if a.id in old(store.rows)
        then old(store.rows)[a.id := FailRow(old(store.rows)[a.id], error,
          ScheduleRetry(retry, a.row.sendAttempts, error, turn.now, turn.draw), turn.now)]
        else old(store.rows)
    {
      var next := ScheduleRetry(retry, a.row.sendAttempts, error, turn.now, turn.draw);
      store.MarkFailed(a.id, error, next, turn.now);
    }

    /** Lines 292-304: claim a batch and send it, stopping when the context ends. */
    method DrainOne(limit: nat, now: Time, turns: seq<Turn>) returns (claimed: seq<Alert>)
      requires store.Valid() && limit <= |turns|
      modifies store
      ensures store.Valid() && |claimed| <= limit
      ensures forall a :: a in claimed ==> a.id in old(store.rows) && Claimable(old(store.rows)[a.id], now)
      ensures store.rows == Drained(ClaimAll(old(store.rows), Ids(claimed), now), claimed, turns, retry)
      ensures WorkedThrough(ClaimAll(old(store.rows), Ids(claimed), now), store.rows, claimed, turns, retry)
    {
      claimed := store.ClaimPending(limit, now);
      DrainedMeans(store.rows, claimed, turns, retry);
      hide WorkedThrough;
      ghost var goal := Drained(store.rows, claimed, turns, retry);
      var i := 0;
      assert claimed[0..] == claimed && turns[0..] == turns;
      while i < |claimed|
        invariant 0 <= i <= |claimed| && store.Valid()
        invariant Drained(store.rows, claimed[i..], turns[i..], retry) == goal
      {
        if turns[i].contextDone {
          return;
        }
        Send(claimed[i], turns[i]);
        assert claimed[i..][1..] == claimed[i + 1..] && turns[i..][1..] == turns[i + 1..];
        i := i + 1;
      }
    }
  }
}
