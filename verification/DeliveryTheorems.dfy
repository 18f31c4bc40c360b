/**
 * What the delivery protocol keeps in every run: how often an alert is delivered, how many
 * attempts it can cost, and that none is lost.
 */
module DeliveryTheorems {
  import opened AlertTable
  import opened AlertSender
  import opened DeliveryProtocol

  // ---- counting what senders can still do ----------------------------------------------

  /**
   * With `m == 0`: 1 for a sender that may still deliver, or give the row back to be
   * delivered. With `m > 0`, the attempt limit: 1 for a sender that may still record a
   * failure to be retried.
   */
  function Weight(c: Claim, m: nat): nat {
    match c.phase
    case ToMarkSent(_, delivered) => if m == 0 && !delivered then 1 else 0
    case ToMarkFailed(_, next) => if m == 0 || next.Some? then 1 else 0
    case Working => if m == 0 || c.snapshot + 1 < m then 1 else 0
  }

  function Weights(late: seq<Claim>, m: nat): nat {
    if late == [] then 0 else Weights(late[..|late| - 1], m) + Weight(late[|late| - 1], m)
  }

  lemma {:induction false} WeightsUpdate(late: seq<Claim>, i: nat, c: Claim, m: nat)
    requires i < |late|
    ensures Weights(late[i := c], m) == Weights(late, m) - Weight(late[i], m) + Weight(c, m)
    ensures Weights(late, m) >= Weight(late[i], m)
    decreases |late|
  {
    var front := late[..|late| - 1];
    if i < |front| {
      WeightsUpdate(front, i, c, m);
      assert late[i := c][..|late| - 1] == front[i := c];
    } else {
      assert late[i := c][..|late| - 1] == front;
    }
  }

  lemma {:induction false} WeightsRemove(late: seq<Claim>, i: nat, m: nat)
    requires i < |late|
    ensures Weights(late[..i] + late[i + 1..], m) == Weights(late, m) - Weight(late[i], m)
    ensures Weights(late, m) >= Weight(late[i], m)
    decreases |late|
  {
    var front, last := late[..|late| - 1], late[|late| - 1];
    if i < |front| {
      WeightsRemove(front, i, m);
      var less := late[..i] + late[i + 1..];
      assert less[..|less| - 1] == front[..i] + front[i + 1..];
    } else {
      assert late[..i] + late[i + 1..] == front;
    }
  }

  lemma {:induction false} WeightsFewer(late: seq<Claim>, m: nat)
    ensures Weights(late, m) <= Weights(late, 0)
    decreases |late|
  {
    if late != [] {
      WeightsFewer(late[..|late| - 1], m);
    }
  }

  lemma OvertakeWeight(s: Slot, m: nat)
    ensures Weights(Overtake(s).late, m) == Weights(s.late, m) + if s.holder.Live? then Weight(s.holder.claim, m) else 0
  {
    if s.holder.Live? {
      assert (s.late + [s.holder.claim])[..|s.late|] == s.late;
    }
  }

  /** The late senders' weight after `who` moves on to `c`, or leaves. */
  lemma SenderWeight(s: Slot, who: int, c: Claim, m: nat)
    requires IsLive(s, who)
    ensures Weights(Update(s, who, c).late, m) ==
      if who == -1 then Weights(s.late, m) else Weights(s.late, m) - Weight(s.late[who], m) + Weight(c, m)
    ensures Weights(Leave(s, who).late, m) ==
      if who == -1 then Weights(s.late, m) else Weights(s.late, m) - Weight(s.late[who], m)
  {
    if who != -1 {
      WeightsUpdate(s.late, who, c, m);
      WeightsRemove(s.late, who, m);
    }
  }

  // ---- how often an alert can be delivered -------------------------------------------------

  predicate Retryable(r: Row) { r.status.Pending? || (r.status.Failed? && r.nextRetryAt.Some?) }

  /** The row's own chance of another delivery. */
  function Token(s: Slot): nat {
    match s.holder
    case Nobody => if Retryable(s.row) then 1 else 0
    case Live(c) => Weight(c, 0)
    case Gone(delivered) => if delivered then 0 else 1
  }

  predicate Consistent(s: Slot) { s.row.status.Sending? <==> !s.holder.Nobody? }

  predicate Bounded(s: Slot) {
    && Consistent(s)
    && s.tally.deliveries + Token(s) + Weights(s.late, 0) <= 1 + s.tally.duplicates + s.tally.lostAcks
  }

  lemma BoundedSend(s: Slot, who: int, c: Claim, t: Tally)
    requires Bounded(s) && IsLive(s, who)
    requires t.duplicates == s.tally.duplicates
    requires t.deliveries + Weight(c, 0) - t.lostAcks <= s.tally.deliveries + Weight(ClaimOf(s, who), 0) - s.tally.lostAcks
    ensures Bounded(Update(s, who, c).(tally := t))
  {
    SenderWeight(s, who, c, 0);
  }

  lemma BoundedLeave(s: Slot, who: int, t: Tally)
    requires Bounded(s) && IsLive(s, who)
    requires t.duplicates == s.tally.duplicates
    requires t.deliveries - t.lostAcks <= s.tally.deliveries - s.tally.lostAcks
    ensures Bounded(Leave(s, who).(tally := t))
  {
    SenderWeight(s, who, ClaimOf(s, who), 0);
  }

  lemma BoundedMark(s: Slot, who: int, now: Time)
    requires Bounded(s) && IsLive(s, who) && !ClaimOf(s, who).phase.Working?
    ensures Bounded(DoMark(s, who, now))
  {
    hide Weights;
    if who != -1 {
      WeightsRemove(s.late, who, 0);
      OvertakeWeight(Leave(s, who), 0);
    }
  }

  /** Every event of every sender keeps the delivery bound. */
  lemma BoundedStep(cfg: Config, s: Slot, e: Event, now: Time)
    requires Bounded(s)
    ensures Bounded(Apply(cfg, s, e, now))
  {
    hide Weights, DoMark;
    match e
    case Claimed =>
    case Reset => OvertakeWeight(s, 0);
    case SendAccepted(who, id) =>
      if IsLive(s, who) {
        var c := ClaimOf(s, who);
        if c.phase.Working? {
          BoundedSend(s, who, c.(phase := ToMarkSent(id, true)), s.tally.(deliveries := s.tally.deliveries + 1));
        }
      }
    case SendRefused(who, error, draw, delivered) =>
      if IsLive(s, who) {
        var c := ClaimOf(s, who);
        if c.phase.Working? {
          BoundedSend(s, who, c.(phase := ToMarkFailed(error, Retry(cfg, c, error, now, draw))), CountDelivery(s.tally, delivered));
        }
      }
    case SendDropped(who) =>
      if IsLive(s, who) {
        var c := ClaimOf(s, who);
        if c.phase.Working? {
          BoundedSend(s, who, c.(phase := ToMarkSent(0, false)), s.tally);
        }
      }
    case SendCancelled(who, delivered) =>
      if IsLive(s, who) {
        BoundedLeave(s, who, CountDelivery(s.tally, delivered));
      }
    case Crashed(who) =>
      if IsLive(s, who) {
        BoundedLeave(s, who, s.tally);
      }
    case Marked(who) =>
      if IsLive(s, who) && !ClaimOf(s, who).phase.Working? {
        BoundedMark(s, who, now);
      }
  }

  /**
   * In every run, with any number of senders, an alert is delivered at most once, plus once
   * for each reset of a row whose sender was live or had delivered, plus once for each
   * delivery reported as a failure.
   */
  lemma {:induction false} DeliveryBound(cfg: Config, key: string, at: Time, events: seq<Timed>)
    ensures var end := Run(cfg, Inserted(key, at), events);
      Bounded(end) && end.tally.deliveries <= 1 + end.tally.duplicates + end.tally.lostAcks
    decreases |events|
  {
    if events != [] {
      var before := events[..|events| - 1];
      DeliveryBound(cfg, key, at, before);
      BoundedStep(cfg, Run(cfg, Inserted(key, at), before), events[|events| - 1].event, events[|events| - 1].now);
    }
  }

  /**
   * The bound is reached: `n` slow senders, each overtaken by a reset before it sends, make
   * `n + 1` deliveries. The promise that no alert is ever sent twice fails exactly here.
   */
  lemma {:induction false} SlowSenders(cfg: Config, key: string, n: nat) returns (events: seq<Timed>, now: Time)
    ensures var end := Run(cfg, Inserted(key, 0), events);
      && end.row.status.Pending? && end.row.updatedAt == now && end.holder.Nobody?
      && end.tally == Tally(n, 0, n, n, n) && end.row.dedupKey == key
    decreases n
  {
    if n == 0 {
      events, now := [], 0;
    } else {
      var before, last := SlowSenders(cfg, key, n - 1);
      var s := Run(cfg, Inserted(key, 0), before);
      var late := last + cfg.staleAfter + 1;
      var a := Timed(Claimed, last);
      var b := Timed(Reset, late);
      var who := |s.late|;
      var c := Timed(SendAccepted(who, 1), late);
      events, now := before + [a] + [b] + [c], late;
      RunSnoc(cfg, Inserted(key, 0), before, a);
      RunSnoc(cfg, Inserted(key, 0), before + [a], b);
      RunSnoc(cfg, Inserted(key, 0), before + [a] + [b], c);
      assert Claimable(s.row, last);
    }
  }

  lemma RunSnoc(cfg: Config, s: Slot, events: seq<Timed>, t: Timed)
    ensures Run(cfg, s, events + [t]) == Apply(cfg, Run(cfg, s, events), t.event, t.now)
  {
    assert (events + [t])[..|events|] == events;
  }

  /** Every `n` duplicates can really cost `n` extra deliveries. */
  lemma DeliveryBoundIsTight(cfg: Config, key: string, n: nat) returns (events: seq<Timed>)
    ensures var end := Run(cfg, Inserted(key, 0), events);
      end.tally.duplicates == n && end.tally.lostAcks == 0 && end.tally.deliveries == n + 1
  {
    var before, now := SlowSenders(cfg, key, n);
    var a := Timed(Claimed, now);
    var b := Timed(SendAccepted(-1, 1), now);
    events := before + [a] + [b];
    RunSnoc(cfg, Inserted(key, 0), before, a);
    RunSnoc(cfg, Inserted(key, 0), before + [a], b);
  }

  // ---- senders that keep their lease ------------------------------------------------------

  /**
   * The sender holding the row acts within `staleAfter` of its claim, and does not die
   * between the transport's acceptance and recording it.
   */
  predicate Prompt(cfg: Config, s: Slot, t: Timed) {
    && (s.holder.Live? ==> t.now <= s.holder.claim.at + cfg.staleAfter)
    && !(s.holder.Live? && s.holder.claim.phase.ToMarkSent? && s.holder.claim.phase.delivered && t.event == Crashed(-1))
  }

  predicate PromptRun(cfg: Config, s: Slot, events: seq<Timed>) {
    forall i :: 0 <= i < |events| ==> Prompt(cfg, Run(cfg, s, events[..i]), events[i])
  }

  predicate Leased(s: Slot) {
    && Consistent(s) && s.late == [] && s.holder != Gone(true)
    && (s.holder.Live? ==> s.holder.claim.at == s.row.updatedAt)
    && s.tally.overlaps == 0 && s.tally.duplicates == 0
  }

  lemma LeasedStep(cfg: Config, s: Slot, t: Timed)
    requires Leased(s) && Prompt(cfg, s, t)
    ensures Leased(Apply(cfg, s, t.event, t.now))
  {
  }

  /**
   * With prompt senders a stale reset only ever meets a row whose sender died undelivered,
   * and an alert is delivered at most once, apart from deliveries reported as failures.
   */
  lemma {:induction false} PromptRunsKeepTheLease(cfg: Config, key: string, at: Time, events: seq<Timed>)
    requires PromptRun(cfg, Inserted(key, at), events)
    ensures var end := Run(cfg, Inserted(key, at), events);
      Leased(end) && end.tally.deliveries <= 1 + end.tally.lostAcks
    decreases |events|
  {
    hide Apply, Prompt, Leased;
    if events == [] {
      LeasedAtFirst(key, at);
    } else {
      var before := events[..|events| - 1];
      forall i | 0 <= i < |before|
        ensures Prompt(cfg, Run(cfg, Inserted(key, at), before[..i]), before[i])
      {
        assert before[..i] == events[..i];
      }
      PromptRunsKeepTheLease(cfg, key, at, before);
      LeasedStep(cfg, Run(cfg, Inserted(key, at), before), events[|events| - 1]);
    }
    DeliveryBound(cfg, key, at, events);
    NoDuplicates(Run(cfg, Inserted(key, at), events));
  }

  lemma LeasedAtFirst(key: string, at: Time)
    ensures Leased(Inserted(key, at))
  {
  }

  lemma NoDuplicates(s: Slot)
    requires Leased(s)
    ensures s.tally.overlaps == 0 && s.tally.duplicates == 0
  {
  }

  // ---- how many attempts an alert can cost ------------------------------------------------

  /** The attempt limit in force: without a retry policy the first attempt is the last. */
  function MaxTries(p: RetryPolicy): nat {
    if p.enabled && p.maxAttempts >= 1 then p.maxAttempts else 1
  }

  /** Why a failure may be final. */
  predicate MayGiveUp(p: RetryPolicy, error: string, attempts: nat) {
    !p.enabled || IsPermanentError(error) || attempts >= p.maxAttempts
  }

  predicate Justified(p: RetryPolicy, c: Claim) {
    c.phase.ToMarkFailed? ==>
      if c.phase.next.Some? then c.snapshot + 1 < MaxTries(p) else MayGiveUp(p, c.phase.error, c.snapshot + 1)
  }

  /** What the live senders remember about the row is never ahead of it. */
  predicate Remembered(cfg: Config, s: Slot) {
    && (s.holder.Live? ==> s.holder.claim.snapshot == s.row.sendAttempts && Justified(cfg.retry, s.holder.claim))
    && (forall i :: 0 <= i < |s.late| ==> s.late[i].snapshot <= s.row.sendAttempts && Justified(cfg.retry, s.late[i]))
    && (s.row.status.Failed? && s.row.nextRetryAt.None? ==>
      s.row.lastError.Some? && MayGiveUp(cfg.retry, s.row.lastError.value, s.row.sendAttempts))
  }

  lemma RememberedMark(cfg: Config, s: Slot, who: int, now: Time)
    requires Remembered(cfg, s) && Consistent(s) && IsLive(s, who) && !ClaimOf(s, who).phase.Working?
    ensures Remembered(cfg, DoMark(s, who, now))
  {
    hide IsPermanentError;
  }

  lemma RememberedUpdate(cfg: Config, s: Slot, who: int, c: Claim, t: Tally)
    requires Remembered(cfg, s) && IsLive(s, who) && c.snapshot == ClaimOf(s, who).snapshot && Justified(cfg.retry, c)
    ensures Remembered(cfg, Update(s, who, c).(tally := t)) && Remembered(cfg, Update(s, who, c))
  {
    hide Justified, MayGiveUp;
  }

  lemma RememberedLeave(cfg: Config, s: Slot, who: int, t: Tally)
    requires Remembered(cfg, s) && IsLive(s, who)
    ensures Remembered(cfg, Leave(s, who).(tally := t)) && Remembered(cfg, Leave(s, who))
  {
    hide Justified, MayGiveUp;
  }

  lemma RememberedReset(cfg: Config, s: Slot, now: Time, cutoff: Time)
    requires Remembered(cfg, s) && Stale(s.row, cutoff)
    ensures Remembered(cfg, DoReset(s, now, cutoff))
  {
    hide Justified, MayGiveUp;
  }

  lemma RememberedStep(cfg: Config, s: Slot, e: Event, now: Time)
    requires Remembered(cfg, s) && Consistent(s)
    ensures Remembered(cfg, Apply(cfg, s, e, now))
  {
    hide Remembered, DoMark, DoReset, Update, Leave, ScheduleRetry, MayGiveUp;
    match e
    case Claimed =>
      if Claimable(s.row, now) {
        RememberedClaim(cfg, s, now);
      }
    case Reset =>
      if Stale(s.row, now - cfg.staleAfter) {
        RememberedReset(cfg, s, now, now - cfg.staleAfter);
      }
    case SendAccepted(who, id) =>
      if IsLive(s, who) && ClaimOf(s, who).phase.Working? {
        RememberedUpdate(cfg, s, who, ClaimOf(s, who).(phase := ToMarkSent(id, true)), s.tally.(deliveries := s.tally.deliveries + 1));
      }
    case SendRefused(who, error, draw, delivered) =>
      if IsLive(s, who) && ClaimOf(s, who).phase.Working? {
        var c := ClaimOf(s, who);
        var c' := c.(phase := ToMarkFailed(error, Retry(cfg, c, error, now, draw)));
        RetryIsJustified(cfg, c', error, now, draw);
        RememberedUpdate(cfg, s, who, c', CountDelivery(s.tally, delivered));
      }
    case SendDropped(who) =>
      if IsLive(s, who) && ClaimOf(s, who).phase.Working? {
        RememberedUpdate(cfg, s, who, ClaimOf(s, who).(phase := ToMarkSent(0, false)), s.tally);
      }
    case SendCancelled(who, delivered) =>
      if IsLive(s, who) && ClaimOf(s, who).phase.Working? {
        RememberedLeave(cfg, s, who, CountDelivery(s.tally, delivered));
      }
    case Crashed(who) =>
      if IsLive(s, who) {
        RememberedLeave(cfg, s, who, s.tally);
      }
    case Marked(who) =>
      if IsLive(s, who) && !ClaimOf(s, who).phase.Working? {
        RememberedMark(cfg, s, who, now);
      }
  }

  lemma RememberedClaim(cfg: Config, s: Slot, now: Time)
    requires Remembered(cfg, s) && Claimable(s.row, now)
    ensures Remembered(cfg, Apply(cfg, s, Claimed, now))
  {
    hide MayGiveUp;
  }

  function RowToken(s: Slot): nat {
    if s.holder.Nobody? then if Retryable(s.row) then 1 else 0 else 1
  }

  predicate Final(r: Row) { r.status.Sent? || (r.status.Failed? && r.nextRetryAt.None?) }

  function HolderWeight(s: Slot, m: nat): nat { if s.holder.Live? then Weight(s.holder.claim, m) else 0 }

  /**
   * From the last permitted attempt on, every further one is paid for by a sender that an
   * overlap left behind, except the one that ends the row.
   */
  predicate PaidFor(s: Slot, m: nat) {
    s.row.sendAttempts + 1 >= m ==>
      s.row.sendAttempts + HolderWeight(s, m) + Weights(s.late, m)
        <= m - 1 + s.tally.overlaps + if Final(s.row) then 1 else 0
  }

  predicate Tried(cfg: Config, s: Slot) {
    var m, a := MaxTries(cfg.retry), s.row.sendAttempts;
    && Consistent(s) && Remembered(cfg, s)
    && RowToken(s) + Weights(s.late, 0) <= 1 + s.tally.overlaps
    && PaidFor(s, m)
    && (m == 1 ==> a == 0 || (a == 1 && Final(s.row)))
  }

  lemma TriedSend(cfg: Config, s: Slot, who: int, c: Claim, t: Tally)
    requires Tried(cfg, s) && IsLive(s, who) && ClaimOf(s, who).phase.Working?
    requires c.snapshot == ClaimOf(s, who).snapshot && !c.phase.Working? && Justified(cfg.retry, c)
    requires t.overlaps == s.tally.overlaps
    ensures Tried(cfg, Update(s, who, c).(tally := t))
  {
    hide Weights, MayGiveUp;
    SenderWeight(s, who, c, 0);
    SenderWeight(s, who, c, MaxTries(cfg.retry));
  }

  lemma TriedLeave(cfg: Config, s: Slot, who: int, t: Tally)
    requires Tried(cfg, s) && IsLive(s, who) && t.overlaps == s.tally.overlaps
    ensures Tried(cfg, Leave(s, who).(tally := t))
  {
    hide Weights, Justified, MayGiveUp;
    SenderWeight(s, who, ClaimOf(s, who), 0);
    SenderWeight(s, who, ClaimOf(s, who), MaxTries(cfg.retry));
  }

  lemma TriedReset(cfg: Config, s: Slot, now: Time, cutoff: Time)
    requires Tried(cfg, s) && Stale(s.row, cutoff) && Remembered(cfg, DoReset(s, now, cutoff))
    ensures Tried(cfg, DoReset(s, now, cutoff))
  {
    hide Weights, MayGiveUp, Remembered;
    assert s.holder.Live? ==> s.holder.claim.snapshot == s.row.sendAttempts && Justified(cfg.retry, s.holder.claim) by {
      HolderRemembers(cfg, s);
    }
    OvertakeWeight(s, 0);
    OvertakeWeight(s, MaxTries(cfg.retry));
  }

  lemma HolderRemembers(cfg: Config, s: Slot)
    requires Remembered(cfg, s)
    ensures s.holder.Live? ==> s.holder.claim.snapshot == s.row.sendAttempts && Justified(cfg.retry, s.holder.claim)
    ensures forall i :: 0 <= i < |s.late| ==> s.late[i].snapshot <= s.row.sendAttempts && Justified(cfg.retry, s.late[i])
  {
  }

  lemma TriedMark(cfg: Config, s: Slot, who: int, now: Time)
    requires Tried(cfg, s) && IsLive(s, who) && !ClaimOf(s, who).phase.Working?
    requires Remembered(cfg, DoMark(s, who, now))
    ensures Tried(cfg, DoMark(s, who, now))
  {
    hide Weights, MayGiveUp, Remembered;
    HolderRemembers(cfg, s);
    var m := MaxTries(cfg.retry);
    var left := if who == -1 then s.(holder := Nobody) else Leave(s, who);
    if who != -1 {
      WeightsRemove(s.late, who, 0);
      WeightsRemove(s.late, who, m);
    }
    OvertakeWeight(left, 0);
    OvertakeWeight(left, m);
    WeightsFewer(DoMark(s, who, now).late, m);
  }

  /** Both bounds, on deliveries and on attempts. */
  predicate Kept(cfg: Config, s: Slot) { Bounded(s) && Tried(cfg, s) }

  /** Every event of every sender keeps both. */
  lemma KeptStep(cfg: Config, s: Slot, e: Event, now: Time)
    requires Kept(cfg, s)
    ensures Kept(cfg, Apply(cfg, s, e, now)) && Apply(cfg, s, e, now).row.dedupKey == s.row.dedupKey
  {
    KeyStays(cfg, s, e, now);
    BoundedStep(cfg, s, e, now);
    hide Weights, DoMark, DoReset, Remembered, MayGiveUp, Bounded;
    RememberedStep(cfg, s, e, now);
    match e
    case Claimed =>
    case Reset =>
      if Stale(s.row, now - cfg.staleAfter) {
        TriedReset(cfg, s, now, now - cfg.staleAfter);
      }
    case SendAccepted(who, id) =>
      if IsLive(s, who) && ClaimOf(s, who).phase.Working? {
        TriedSend(cfg, s, who, ClaimOf(s, who).(phase := ToMarkSent(id, true)), s.tally.(deliveries := s.tally.deliveries + 1));
      }
    case SendRefused(who, error, draw, delivered) =>
      if IsLive(s, who) && ClaimOf(s, who).phase.Working? {
        var c := ClaimOf(s, who);
        var next := Retry(cfg, c, error, now, draw);
        RetryIsJustified(cfg, c.(phase := ToMarkFailed(error, next)), error, now, draw);
        TriedSend(cfg, s, who, c.(phase := ToMarkFailed(error, next)), CountDelivery(s.tally, delivered));
      }
    case SendDropped(who) =>
      if IsLive(s, who) && ClaimOf(s, who).phase.Working? {
        TriedSend(cfg, s, who, ClaimOf(s, who).(phase := ToMarkSent(0, false)), s.tally);
      }
    case SendCancelled(who, delivered) =>
      if IsLive(s, who) && ClaimOf(s, who).phase.Working? {
        TriedLeave(cfg, s, who, CountDelivery(s.tally, delivered));
      }
    case Crashed(who) =>
      if IsLive(s, who) {
        TriedLeave(cfg, s, who, s.tally);
      }
    case Marked(who) =>
      if IsLive(s, who) && !ClaimOf(s, who).phase.Working? {
        TriedMark(cfg, s, who, now);
      }
  }

  lemma KeyStays(cfg: Config, s: Slot, e: Event, now: Time)
    ensures Apply(cfg, s, e, now).row.dedupKey == s.row.dedupKey
  {
  }

  lemma RetryIsJustified(cfg: Config, c: Claim, error: string, now: Time, draw: real)
    requires c.phase == ToMarkFailed(error, Retry(cfg, c, error, now, draw))
    ensures Justified(cfg.retry, c)
  {
    hide IsPermanentError;
  }

  /**
   * The attempt limit is overrun by at most one attempt for each reset that overtakes a live
   * sender, and never under a policy of one attempt; and a row given up was given up for a
   * stated reason.
   */
  lemma {:induction false} AttemptBound(cfg: Config, key: string, at: Time, events: seq<Timed>)
    ensures var end := Run(cfg, Inserted(key, at), events);
      && Tried(cfg, end)
      && end.row.sendAttempts <= MaxTries(cfg.retry) + end.tally.overlaps
      && (MaxTries(cfg.retry) == 1 ==> end.row.sendAttempts <= 1)
      && (end.row.status.Failed? && end.row.nextRetryAt.None? ==>
        end.row.lastError.Some? && MayGiveUp(cfg.retry, end.row.lastError.value, end.row.sendAttempts))
    decreases |events|
  {
    if events != [] {
      hide Apply, Bounded;
      var before := events[..|events| - 1];
      AttemptBound(cfg, key, at, before);
      DeliveryBound(cfg, key, at, before);
      KeptStep(cfg, Run(cfg, Inserted(key, at), before), events[|events| - 1].event, events[|events| - 1].now);
    }
  }

  // ---- the attempt limit is overrun ----------------------------------------------------------

  /** An error that is not permanent. */
  const FLAKY := "x"

  lemma FlakyIsTransient(p: RetryPolicy, attempts: nat, now: Time)
    requires p.enabled
    ensures ScheduleRetry(p, attempts, FLAKY, now, 0.0).Some? <==> attempts + 1 < p.maxAttempts
  {
    assert !IsPermanentError(FLAKY);
  }

  /** `who` is refused by the transport and records it. */
  function Refusal(who: int, now: Time): seq<Timed> {
    [Timed(SendRefused(who, FLAKY, 0.0, false), now)] + [Timed(Marked(who), now)]
  }

  /** A refusal recorded while the row is in `sending` costs an attempt, whoever claimed it last. */
  lemma RefusalCosts(cfg: Config, s: Slot, who: int, now: Time)
    requires cfg.retry.enabled && s.row.status.Sending? && s.holder.Live?
    requires who == -1 || (who == 0 && |s.late| >= 1)
    requires ClaimOf(s, who).phase.Working?
    ensures var end := Run(cfg, s, Refusal(who, now));
      && end.row.status.Failed? && end.holder.Nobody? && end.tally == s.tally
      && (end.row.nextRetryAt.Some? <==> ClaimOf(s, who).snapshot + 1 < cfg.retry.maxAttempts)
      && end.row.sendAttempts == s.row.sendAttempts + 1
      && end.late == (if who == -1 then s.late else s.late[1..] + [s.holder.claim])
  {
    hide ScheduleRetry;
    FlakyIsTransient(cfg.retry, ClaimOf(s, who).snapshot, now);
    var a, b := Timed(SendRefused(who, FLAKY, 0.0, false), now), Timed(Marked(who), now);
    RunSnoc(cfg, s, [], a);
    RunSnoc(cfg, s, [] + [a], b);
    assert [] + [a] + [b] == Refusal(who, now);
  }

  /** The next event of a run. */
  lemma Extend(cfg: Config, start: Slot, before: seq<Timed>, e: Event, now: Time) returns (events: seq<Timed>, s: Slot)
    ensures events == before + [Timed(e, now)]
    ensures s == Run(cfg, start, events) == Apply(cfg, Run(cfg, start, before), e, now)
  {
    events := before + [Timed(e, now)];
    RunSnoc(cfg, start, before, Timed(e, now));
    s := Run(cfg, start, events);
  }

  predicate Ready(s: Slot, now: Time) { s.holder.Nobody? && Claimable(s.row, now) }

  predicate Sendable(c: Claim, p: RetryPolicy) { c.phase.Working? && c.snapshot + 1 < p.maxAttempts }

  /**
   * A claim, and then a refusal recorded by the sender that claimed, or by the oldest late one;
   * in the latter case the sender that claimed becomes a late one.
   */
  lemma ClaimAndRefuse(cfg: Config, start: Slot, before: seq<Timed>, who: int, now: Time)
    returns (events: seq<Timed>, then': Time)
    requires cfg.retry.enabled && Ready(Run(cfg, start, before), now)
    requires var was := Run(cfg, start, before);
      who == -1 || (who == 0 && |was.late| >= 1 && was.late[0].phase.Working?)
    ensures var was, s := Run(cfg, start, before), Run(cfg, start, events);
      var snapshot := if who == -1 then was.row.sendAttempts else was.late[0].snapshot;
      && s.tally == was.tally && s.row.sendAttempts == was.row.sendAttempts + 1
      && (snapshot + 1 < cfg.retry.maxAttempts ==> Ready(s, then'))
      && s.late == (if who == -1 then was.late else was.late[1..] + [Claim(was.row.sendAttempts, now, Working)])
  {
    hide Refusal, Run;
    var claimed, c := Extend(cfg, start, before, Claimed, now);
    RefusalCosts(cfg, c, who, now);
    RunConcat(cfg, start, claimed, Refusal(who, now));
    events := claimed + Refusal(who, now);
    var next := Run(cfg, start, events).row.nextRetryAt;
    then' := if next.Some? then next.value else now;
  }

  /** An alert that has cost `k` ordinary attempts and may be claimed again. */
  lemma {:induction false} FailTimes(cfg: Config, key: string, k: nat) returns (events: seq<Timed>, now: Time)
    requires cfg.retry.enabled && (k == 0 || k < cfg.retry.maxAttempts)
    ensures var s := Run(cfg, Inserted(key, 0), events);
      Ready(s, now) && s.row.sendAttempts == k && s.late == [] && s.tally == Tally(0, 0, 0, 0, 0)
    decreases k
  {
    if k == 0 {
      events, now := [], 0;
    } else {
      var before, at := FailTimes(cfg, key, k - 1);
      events, now := ClaimAndRefuse(cfg, Inserted(key, 0), before, -1, at);
    }
  }

  /** `n` more senders that claim the row and are overtaken by a reset before they send. */
  lemma {:induction false} PileUp(cfg: Config, key: string, k: nat, n: nat) returns (events: seq<Timed>, now: Time)
    requires cfg.retry.enabled && (k == 0 || k < cfg.retry.maxAttempts)
    ensures var s := Run(cfg, Inserted(key, 0), events);
      && Ready(s, now) && s.row.sendAttempts == k && s.tally.overlaps == n && |s.late| == n
      && forall i :: 0 <= i < n ==> s.late[i].phase.Working? && s.late[i].snapshot == k
    decreases n
  {
    hide Run;
    if n == 0 {
      events, now := FailTimes(cfg, key, k);
    } else {
      var before, at := PileUp(cfg, key, k, n - 1);
      var claimed, a := Extend(cfg, Inserted(key, 0), before, Claimed, at);
      now := at + cfg.staleAfter + 1;
      var b;
      events, b := Extend(cfg, Inserted(key, 0), claimed, Reset, now);
    }
  }

  /**
   * `j` late senders one after another record their failure against a newer claim: `j` attempts,
   * and as many newer late senders.
   */
  lemma {:induction false} LateFailures(cfg: Config, start: Slot, before: seq<Timed>, at: Time, j: nat)
    returns (events: seq<Timed>, now: Time)
    requires cfg.retry.enabled && Ready(Run(cfg, start, before), at)
    requires var was := Run(cfg, start, before);
      j <= |was.late| && forall i :: 0 <= i < j ==> Sendable(was.late[i], cfg.retry)
    ensures var was, s := Run(cfg, start, before), Run(cfg, start, events);
      && Ready(s, now) && s.row.sendAttempts == was.row.sendAttempts + j && s.tally == was.tally
      && |s.late| == |was.late| && (forall i :: 0 <= i < |s.late| - j ==> s.late[i] == was.late[i + j])
      && (j > 0 ==> s.late[|s.late| - j].snapshot == was.row.sendAttempts && s.late[|s.late| - j].phase.Working?)
    decreases j
  {
    hide Run, Claimable;
    if j == 0 {
      events, now := before, at;
    } else {
      var was := Run(cfg, start, before);
      var one, next := ClaimAndRefuse(cfg, start, before, 0, at);
      var s := Run(cfg, start, one);
      assert forall i :: 0 <= i < j - 1 ==> s.late[i] == was.late[i + 1];
      assert s.late[|s.late| - 1] == Claim(was.row.sendAttempts, at, Working);
      events, now := LateFailures(cfg, start, one, next, j - 1);
    }
  }

  /**
   * The attempt limit is no hard cap: under any policy that retries at all, `n` resets that
   * overtake a live sender can cost exactly `n` attempts too many.
   */
  lemma AttemptBoundIsTight(cfg: Config, key: string, n: nat) returns (events: seq<Timed>)
    requires cfg.retry.enabled && cfg.retry.maxAttempts >= 2
    ensures var end := Run(cfg, Inserted(key, 0), events);
      end.tally.overlaps == n && end.row.sendAttempts == cfg.retry.maxAttempts + n
  {
    hide Run;
    var start, now := Inserted(key, 0), 0;
    events, now := PileUp(cfg, key, cfg.retry.maxAttempts - 2, n);
    events, now := LateFailures(cfg, start, events, now, n);
    if n == 0 {
      events, now := ClaimAndRefuse(cfg, start, events, -1, now);
    } else {
      events, now := LateFailures(cfg, start, events, now, 1);
    }
    events, now := ClaimAndRefuse(cfg, start, events, -1, now);
  }

  /** Every run of every alert stays within the attempt limit exactly under a policy of one attempt. */
  lemma LimitHoldsIffOneAttempt(cfg: Config)
    ensures (forall key, at, events :: Run(cfg, Inserted(key, at), events).row.sendAttempts <= MaxTries(cfg.retry))
        <==> MaxTries(cfg.retry) == 1
  {
    if MaxTries(cfg.retry) == 1 {
      forall key, at, events
        ensures Run(cfg, Inserted(key, at), events).row.sendAttempts <= MaxTries(cfg.retry)
      {
        AttemptBound(cfg, key, at, events);
      }
    } else {
      var events := AttemptBoundIsTight(cfg, "", 1);
      assert Run(cfg, Inserted("", 0), events).row.sendAttempts > MaxTries(cfg.retry);
    }
  }

  // ---- resets that only ever meet dead senders ---------------------------------------------

  predicate OneHolder(s: Slot) {
    && Consistent(s)
    && (s.tally.overlaps == 0 ==> s.late == [])
    && s.tally.overlaps <= s.tally.duplicates <= s.tally.resets
  }

  lemma OneHolderStep(cfg: Config, s: Slot, e: Event, now: Time)
    requires OneHolder(s)
    ensures OneHolder(Apply(cfg, s, e, now))
  {
  }

  lemma {:induction false} OneHolderRun(cfg: Config, key: string, at: Time, events: seq<Timed>)
    ensures OneHolder(Run(cfg, Inserted(key, at), events))
    decreases |events|
  {
    hide Apply;
    if events != [] {
      var before := events[..|events| - 1];
      OneHolderRun(cfg, key, at, before);
      OneHolderStep(cfg, Run(cfg, Inserted(key, at), before), events[|events| - 1].event, events[|events| - 1].now);
    }
  }

  /**
   * Every duplicate is a reset; and in every run whose resets only met rows with a dead
   * sender, the row has at most one live holder and its attempts stay within the limit.
   */
  lemma DeadSenderResets(cfg: Config, key: string, at: Time, events: seq<Timed>)
    ensures var end := Run(cfg, Inserted(key, at), events);
      && OneHolder(end)
      && end.tally.deliveries <= 1 + end.tally.resets + end.tally.lostAcks
      && (end.tally.overlaps == 0 ==> end.late == [] && end.row.sendAttempts <= MaxTries(cfg.retry))
  {
    hide Run;
    OneHolderRun(cfg, key, at, events);
    DeliveryBound(cfg, key, at, events);
    AttemptBound(cfg, key, at, events);
  }

  // ---- no alert is lost ---------------------------------------------------------------------

  /** A sent or given-up row is never claimed, marked or reset again. */
  lemma {:induction false} FinalStaysFinal(cfg: Config, s: Slot, events: seq<Timed>)
    requires Final(s.row) && Consistent(s)
    ensures var end := Run(cfg, s, events); end.row == s.row && end.holder.Nobody? && end.tally.resets == s.tally.resets
    decreases |events|
  {
    if events != [] {
      FinalStaysFinal(cfg, s, events[..|events| - 1]);
    }
  }

  lemma DeliverPending(cfg: Config, s: Slot, now: Time) returns (events: seq<Timed>)
    requires s.holder.Nobody? && Claimable(s.row, now)
    ensures (forall i :: 0 <= i < |events| ==> events[i].now == now) && Run(cfg, s, events).row.status.Sent?
  {
    var a, b, c := Timed(Claimed, now), Timed(SendAccepted(-1, 1), now), Timed(Marked(-1), now);
    events := [] + [a] + [b] + [c];
    RunSnoc(cfg, s, [], a);
    RunSnoc(cfg, s, [] + [a], b);
    RunSnoc(cfg, s, [] + [a] + [b], c);
  }

  lemma {:induction false} RunConcat(cfg: Config, s: Slot, a: seq<Timed>, b: seq<Timed>)
    ensures Run(cfg, s, a + b) == Run(cfg, Run(cfg, s, a), b)
    decreases |b|
  {
    if b == [] {
      assert a + b == a;
    } else {
      assert (a + b)[..|a + b| - 1] == a + b[..|b| - 1];
      RunConcat(cfg, s, a, b[..|b| - 1]);
    }
  }

  /**
   * Whatever happened before -- cancelled sends, crashes, lost marks -- an alert that is
   * neither sent nor given up can still be delivered from here.
   */
  lemma NeverStranded(cfg: Config, s: Slot, now: Time) returns (events: seq<Timed>)
    requires Consistent(s) && !Final(s.row)
    ensures (forall i :: 0 <= i < |events| ==> events[i].now >= now) && Run(cfg, s, events).row.status.Sent?
  {
    if s.row.status.Sending? {
      var at := if now > s.row.updatedAt + cfg.staleAfter then now else s.row.updatedAt + cfg.staleAfter + 1;
      var first := Timed(Reset, at);
      var rest := DeliverPending(cfg, Apply(cfg, s, Reset, at), at);
      events := [first] + rest;
      RunSnoc(cfg, s, [], first);
      assert [] + [first] == [first];
      RunConcat(cfg, s, [first], rest);
    } else {
      var at := if s.row.status.Failed? && s.row.nextRetryAt.value > now then s.row.nextRetryAt.value else now;
      events := DeliverPending(cfg, s, at);
    }
  }
}
