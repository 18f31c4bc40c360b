/**
 * The backoff inside the delivery protocol: a row that failed waits for its retry time, in
 * every run, whoever marked it and however many senders are about
 * (internal/app/usecase/alertsender/worker.go, lines 306-455, and the claim query of
 * internal/infra/postgres/sqlc/alerts.sql.go, lines 27-41).
 */
module DeliveryBackoff {
  import opened Optional
  import opened AlertTable
  import opened AlertSender
  import opened DeliveryProtocol
  import opened DeliveryTheorems

  /**
   * A claim takes the row if it is pending, or failed with a retry time that has come, and in
   * no other case; then it only moves the row to `sending`.
   */
  lemma ClaimedExactly(cfg: Config, s: Slot, now: Time)
    ensures var after := Apply(cfg, s, Claimed, now);
      if s.row.status == Pending || (s.row.status == Failed && exists t :: s.row.nextRetryAt == Some(t) && t <= now)
      then
        after == s.(
          row := s.row.(status := Sending, updatedAt := now),
          holder := Live(Claim(s.row.sendAttempts, now, Working)))
      else after == s
  {
  }

  /** `wait` is the documented delay of attempt `k`, give or take the jitter fraction. */
  predicate InBand(p: RetryPolicy, k: int, wait: int) {
    k >= 0 && (1.0 - p.jitterFraction) * CappedDelay(p, k) as real <= wait as real <= (1.0 + p.jitterFraction) * CappedDelay(p, k) as real
  }

  /** The delay starts at the initial one and doubles from attempt to attempt up to the cap. */
  lemma DelayDoubles(p: RetryPolicy, k: nat)
    requires 0 < p.initialBackoff && 0 < p.maxBackoff
    ensures CappedDelay(p, 1) == p.initialBackoff
    ensures k >= 1 ==>
      CappedDelay(p, k + 1) == if 2 * CappedDelay(p, k) <= p.maxBackoff then 2 * CappedDelay(p, k) else p.maxBackoff
  {
    if k >= 1 {
      assert Pow2(k) == 2 * Pow2(k - 1);
      assert p.initialBackoff * Pow2(k) == 2 * (p.initialBackoff * Pow2(k - 1));
      assert k == 1 ==> p.initialBackoff * Pow2(k - 1) == p.initialBackoff;
    }
  }

  /** `who` is a live sender still at work on its `k`-th attempt. */
  predicate Sends(s: Slot, who: int, k: int) {
    IsLive(s, who) && ClaimOf(s, who).phase == Working && ClaimOf(s, who).snapshot + 1 == k
  }

  /**
   * Event `j` is the transport's refusal of a send whose sender has then made `k` attempts, the
   * policy allows another one, and `next` is its retry time.
   */
  predicate RefusedAt(cfg: Config, start: Slot, events: seq<Timed>, j: int, k: int, next: Time) {
    && 0 <= j < |events| && events[j].event.SendRefused?
    && Sends(Run(cfg, start, events[..j]), events[j].event.who, k)
    && cfg.retry.enabled && k < cfg.retry.maxAttempts && !IsPermanentError(events[j].event.error)
    && InBand(cfg.retry, k, next - events[j].now)
  }

  /** `(k, next) in backed`: the retry time `next` goes back to a refusal after `k` attempts. */
  type Source = iset<(int, Time)>

  predicate ClaimBacked(c: Claim, backed: Source) {
    c.phase.ToMarkFailed? && c.phase.next.Some? ==> (c.snapshot + 1, c.phase.next.value) in backed
  }

  predicate RowBacked(s: Slot, backed: Source, k: int) {
    && s.row.nextRetryAt.Some? && (k, s.row.nextRetryAt.value) in backed
    && 1 <= k <= s.row.sendAttempts && (s.tally.overlaps == 0 ==> k == s.row.sendAttempts)
  }

  /** Every retry time about, recorded or still to be, goes back to a refusal. */
  ghost predicate AllBacked(s: Slot, backed: Source) {
    && (s.holder.Live? ==> ClaimBacked(s.holder.claim, backed))
    && (forall i :: 0 <= i < |s.late| ==> ClaimBacked(s.late[i], backed))
    && (s.row.status.Failed? && s.row.nextRetryAt.Some? ==> exists k :: RowBacked(s, backed, k))
  }

  predicate Ordered(cfg: Config, s: Slot) { Remembered(cfg, s) && OneHolder(s) }

  lemma BackedUpdate(s: Slot, who: int, c: Claim, t: Tally, backed: Source)
    requires AllBacked(s, backed) && IsLive(s, who) && ClaimBacked(c, backed) && t.overlaps == s.tally.overlaps
    ensures AllBacked(Update(s, who, c).(tally := t), backed) && AllBacked(Update(s, who, c), backed)
  {
    hide ClaimBacked;
    KeepRow(s, Update(s, who, c).(tally := t), backed);
    KeepRow(s, Update(s, who, c), backed);
  }

  lemma BackedLeave(s: Slot, who: int, t: Tally, backed: Source)
    requires AllBacked(s, backed) && IsLive(s, who) && t.overlaps == s.tally.overlaps
    ensures AllBacked(Leave(s, who).(tally := t), backed) && AllBacked(Leave(s, who), backed)
  {
    hide ClaimBacked;
    KeepRow(s, Leave(s, who).(tally := t), backed);
    KeepRow(s, Leave(s, who), backed);
  }

  lemma KeepRow(s: Slot, s': Slot, backed: Source)
    requires AllBacked(s, backed) && s'.row == s.row && s'.tally.overlaps == s.tally.overlaps
    ensures s'.row.status.Failed? && s'.row.nextRetryAt.Some? ==> exists k :: RowBacked(s', backed, k)
  {
    if s.row.status.Failed? && s.row.nextRetryAt.Some? {
      var k :| RowBacked(s, backed, k);
      assert RowBacked(s', backed, k);
    }
  }

  lemma BackedMark(cfg: Config, s: Slot, who: int, now: Time, backed: Source)
    requires AllBacked(s, backed) && Ordered(cfg, s) && IsLive(s, who) && !ClaimOf(s, who).phase.Working?
    ensures AllBacked(DoMark(s, who, now), backed)
  {
    hide Justified, MayGiveUp;
    var c, s' := ClaimOf(s, who), DoMark(s, who, now);
    if s.row.status.Sending? {
      if c.phase.ToMarkFailed? && c.phase.next.Some? {
        assert RowBacked(s', backed, c.snapshot + 1);
      }
    } else {
      KeepRow(s, s', backed);
    }
  }

  lemma BackedStep(cfg: Config, s: Slot, e: Event, now: Time, backed: Source)
    requires AllBacked(s, backed) && Ordered(cfg, s)
    requires e.SendRefused? && IsLive(s, e.who) && ClaimOf(s, e.who).phase.Working? ==>
      ClaimBacked(ClaimOf(s, e.who).(phase := ToMarkFailed(e.error, Retry(cfg, ClaimOf(s, e.who), e.error, now, e.draw))), backed)
    ensures AllBacked(Apply(cfg, s, e, now), backed)
  {
    hide Ordered, DoMark, Update, Leave, Retry, ClaimBacked;
    match e
    case Claimed => NotFailing(Claim(s.row.sendAttempts, now, Working), backed);
    case Reset =>
    case SendAccepted(who, id) =>
      if IsLive(s, who) && ClaimOf(s, who).phase.Working? {
        var c := ClaimOf(s, who).(phase := ToMarkSent(id, true));
        NotFailing(c, backed);
        BackedUpdate(s, who, c, s.tally.(deliveries := s.tally.deliveries + 1), backed);
      }
    case SendRefused(who, error, draw, delivered) =>
      if IsLive(s, who) && ClaimOf(s, who).phase.Working? {
        var c := ClaimOf(s, who);
        BackedUpdate(s, who, c.(phase := ToMarkFailed(error, Retry(cfg, c, error, now, draw))), CountDelivery(s.tally, delivered), backed);
      }
    case SendDropped(who) =>
      if IsLive(s, who) && ClaimOf(s, who).phase.Working? {
        var c := ClaimOf(s, who).(phase := ToMarkSent(0, false));
        NotFailing(c, backed);
        BackedUpdate(s, who, c, s.tally, backed);
      }
    case SendCancelled(who, delivered) =>
      if IsLive(s, who) && ClaimOf(s, who).phase.Working? {
        BackedLeave(s, who, CountDelivery(s.tally, delivered), backed);
      }
    case Crashed(who) =>
      if IsLive(s, who) {
        BackedLeave(s, who, s.tally, backed);
      }
    case Marked(who) =>
      if IsLive(s, who) && !ClaimOf(s, who).phase.Working? {
        BackedMark(cfg, s, who, now, backed);
      }
  }

  lemma NotFailing(c: Claim, backed: Source)
    requires !c.phase.ToMarkFailed?
    ensures ClaimBacked(c, backed)
  {
  }

  // ---- over whole runs -----------------------------------------------------------------

  predicate GoodPolicy(p: RetryPolicy) {
    0 < p.initialBackoff && 0 < p.maxBackoff && NoOverflow(p) && 0.0 <= p.jitterFraction <= 1.0
  }

  /** Every random draw is one of the source's. */
  predicate Drawn(events: seq<Timed>) {
    forall i :: 0 <= i < |events| && events[i].event.SendRefused? ==> -1.0 <= events[i].event.draw < 1.0
  }

  ghost predicate Backed(cfg: Config, start: Slot, events: seq<Timed>, k: int, next: Time) {
    exists j :: RefusedAt(cfg, start, events, j, k, next)
  }

  ghost function BackedBy(cfg: Config, start: Slot, events: seq<Timed>): Source {
    iset k, next | Backed(cfg, start, events, k, next) :: (k, next)
  }

  lemma BackedLater(cfg: Config, start: Slot, before: seq<Timed>, t: Timed)
    ensures BackedBy(cfg, start, before) <= BackedBy(cfg, start, before + [t])
  {
    forall k, next | Backed(cfg, start, before, k, next)
      ensures Backed(cfg, start, before + [t], k, next)
    {
      hide Run, InBand, IsPermanentError;
      var j :| RefusedAt(cfg, start, before, j, k, next);
      assert (before + [t])[..j] == before[..j];
      assert RefusedAt(cfg, start, before + [t], j, k, next);
    }
  }

  lemma StaysBacked(s: Slot, few: Source, many: Source)
    requires AllBacked(s, few) && few <= many
    ensures AllBacked(s, many)
  {
    if s.row.status.Failed? && s.row.nextRetryAt.Some? {
      var k :| RowBacked(s, few, k);
      assert RowBacked(s, many, k);
    }
  }

  lemma BandMeans(p: RetryPolicy, k: nat, wait: int)
    ensures InBand(p, k, wait) <==>
      var delay := CappedDelay(p, k); delay as real - Spread(p, delay) <= wait as real <= delay as real + Spread(p, delay)
  {
    hide CappedDelay;
    Shares(p.jitterFraction, CappedDelay(p, k) as real);
  }

  lemma Shares(fraction: real, delay: real)
    ensures (1.0 - fraction) * delay == delay - fraction * delay && (1.0 + fraction) * delay == delay + fraction * delay
  {
  }

  /** The retry time a refusal gives is in the band. */
  lemma RefusalIsBacked(cfg: Config, start: Slot, before: seq<Timed>, t: Timed)
    requires GoodPolicy(cfg.retry) && Drawn([t]) && t.event.SendRefused?
    requires var s := Run(cfg, start, before); IsLive(s, t.event.who) && ClaimOf(s, t.event.who).phase.Working?
    ensures var c := ClaimOf(Run(cfg, start, before), t.event.who);
      var next := Retry(cfg, c, t.event.error, t.now, t.event.draw);
      next.Some? ==> RefusedAt(cfg, start, before + [t], |before|, c.snapshot + 1, next.value)
  {
    hide Run, CappedDelay, ScheduleRetry, NoOverflow, IsPermanentError;
    var c := ClaimOf(Run(cfg, start, before), t.event.who);
    assert [t][0] == t;
    RetryIsBackedOff(cfg.retry, c.snapshot, t.event.error, t.now, t.event.draw);
    var next := Retry(cfg, c, t.event.error, t.now, t.event.draw);
    if next.Some? {
      BandMeans(cfg.retry, c.snapshot + 1, next.value - t.now);
      assert InBand(cfg.retry, c.snapshot + 1, next.value - t.now);
    }
    hide InBand, Spread;
    assert (before + [t])[..|before|] == before;
  }

  lemma OneMoreEvent(cfg: Config, key: string, at: Time, before: seq<Timed>, t: Timed)
    requires GoodPolicy(cfg.retry) && Drawn([t])
    requires AllBacked(Run(cfg, Inserted(key, at), before), BackedBy(cfg, Inserted(key, at), before))
    ensures var start := Inserted(key, at);
      AllBacked(Apply(cfg, Run(cfg, start, before), t.event, t.now), BackedBy(cfg, start, before + [t]))
  {
    hide Run, Apply, GoodPolicy, AllBacked, Remembered, OneHolder, RefusedAt, Retry, Tried, Ordered, Drawn;
    var start, events := Inserted(key, at), before + [t];
    var s := Run(cfg, start, before);
    BackedLater(cfg, start, before, t);
    StaysBacked(s, BackedBy(cfg, start, before), BackedBy(cfg, start, events));
    RunIsOrdered(cfg, key, at, before);
    if t.event.SendRefused? && IsLive(s, t.event.who) && ClaimOf(s, t.event.who).phase.Working? {
      RefusalIsBacked(cfg, start, before, t);
    }
    BackedStep(cfg, s, t.event, t.now, BackedBy(cfg, start, events));
  }

  lemma NoneBacked(cfg: Config, key: string, at: Time)
    ensures AllBacked(Run(cfg, Inserted(key, at), []), BackedBy(cfg, Inserted(key, at), []))
  {
  }

  /** Every retry time about goes back to a refusal, in every run. */
  lemma {:induction false} RunIsBacked(cfg: Config, key: string, at: Time, events: seq<Timed>)
    requires GoodPolicy(cfg.retry) && Drawn(events)
    ensures AllBacked(Run(cfg, Inserted(key, at), events), BackedBy(cfg, Inserted(key, at), events))
    decreases |events|
  {
    hide Apply, GoodPolicy, AllBacked, BackedBy;
    if events == [] {
      NoneBacked(cfg, key, at);
    } else {
      var before, t := events[..|events| - 1], events[|events| - 1];
      assert events == before + [t];
      RunIsBacked(cfg, key, at, before);
      OneMoreEvent(cfg, key, at, before, t);
    }
  }

  lemma RunIsOrdered(cfg: Config, key: string, at: Time, events: seq<Timed>)
    ensures Ordered(cfg, Run(cfg, Inserted(key, at), events))
  {
    hide Run, Remembered, OneHolder;
    AttemptBound(cfg, key, at, events);
    OneHolderRun(cfg, key, at, events);
  }

  /**
   * In every run, whenever a claim takes a failed row, the send was refused before, after `k`
   * attempts and with another one allowed, and the claim comes no sooner after that refusal
   * than the documented delay of attempt `k` less the jitter fraction. `k` is the row's
   * number of attempts, unless a reset overtook a live sender; then it may be smaller.
   */
  lemma EveryRetryWaits(cfg: Config, key: string, at: Time, events: seq<Timed>, i: nat) returns (j: nat, k: nat)
    requires GoodPolicy(cfg.retry) && Drawn(events) && i < |events| && events[i].event == Claimed
    requires Run(cfg, Inserted(key, at), events[..i]).row.status == Failed
    requires Run(cfg, Inserted(key, at), events[..i + 1]).row.status == Sending
    ensures var s := Run(cfg, Inserted(key, at), events[..i]);
      && j < i && events[j].event.SendRefused?
      && Sends(Run(cfg, Inserted(key, at), events[..j]), events[j].event.who, k)
      && 1 <= k <= s.row.sendAttempts && (s.tally.overlaps == 0 ==> k == s.row.sendAttempts)
      && cfg.retry.enabled && k < cfg.retry.maxAttempts && !IsPermanentError(events[j].event.error)
      && (1.0 - cfg.retry.jitterFraction) * CappedDelay(cfg.retry, k) as real <= (events[i].now - events[j].now) as real
  {
    hide Run, Apply, GoodPolicy, CappedDelay, IsPermanentError;
    var start, before := Inserted(key, at), events[..i];
    RunIsBacked(cfg, key, at, before);
    var s := Run(cfg, start, before);
    RunSnoc(cfg, start, before, events[i]);
    assert before + [events[i]] == events[..i + 1];
    ClaimedExactly(cfg, s, events[i].now);
    k :| RowBacked(s, BackedBy(cfg, start, before), k);
    j :| RefusedAt(cfg, start, before, j, k, s.row.nextRetryAt.value);
    assert before[..j] == events[..j];
  }
}
