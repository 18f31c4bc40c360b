/**
 * Delivery of one alert under any number of concurrent senders: claims, sends, lost
 * acknowledgements, cancellations, crashes, late marks and stale-lease resets, in every
 * interleaving (internal/app/usecase/alertsender/worker.go, lines 275-376; the row
 * transitions are those of AlertTable).
 *
 * A `Slot` is a row together with the senders that claimed it. The row's columns change
 * only through AlertTable's statements; the tally counts what an observer would see.
 */
module DeliveryProtocol {
  import opened Optional
  import opened AlertTable
  import opened AlertSender

  /**
   * How far a live sender has come with the row: sending it, or about to record the result;
   * `delivered` unless routing or guard dropped the message.
   */
  datatype Phase = Working | ToMarkSent(messageId: int, delivered: bool) | ToMarkFailed(error: string, next: Option<Time>)

  /** A live sender: the attempts it read when claiming, and when it claimed. */
  datatype Claim = Claim(snapshot: nat, at: Time, phase: Phase)

  /** The claim that put the row in `sending`: still live, or ended without recording a result. */
  datatype Holder = Nobody | Live(claim: Claim) | Gone(delivered: bool)

  /**
   * `deliveries`: sends the transport carried out. `lostAcks`: those of them reported to the
   * sender as failures. `resets`: stale resets of this row. `overlaps`: resets while the
   * claiming sender was still live. `duplicates`: resets while it was live or after it had
   * delivered.
   */
  datatype Tally = Tally(deliveries: nat, lostAcks: nat, resets: nat, overlaps: nat, duplicates: nat)

  /** `late` are the live senders whose claim has been overtaken by a reset or another's mark. */
  datatype Slot = Slot(row: Row, holder: Holder, late: seq<Claim>, tally: Tally)

  datatype Event =
    | Claimed                                                  // a ClaimPending picks the row
    | Reset                                                    // a drain's ResetStaleSending meets the row
    | SendAccepted(who: int, messageId: int)
    | SendRefused(who: int, error: string, draw: real, delivered: bool)
    | SendDropped(who: int)                                    // routing or guard drops it, answering success with id 0
    | SendCancelled(who: int, delivered: bool)                 // context ended: nothing is recorded
    | Crashed(who: int)                                        // the process dies, or the mark itself fails
    | Marked(who: int)                                         // MarkSent or MarkFailed is executed

  /** `staleAfter` is StaleSendingAfter. */
  datatype Config = Config(retry: RetryPolicy, staleAfter: nat)

  // `who` is an index into `late`, or -1 for the sender holding the row.

  predicate IsLive(s: Slot, who: int) {
    if who == -1 then s.holder.Live? else 0 <= who < |s.late|
  }

  function ClaimOf(s: Slot, who: int): Claim
    requires IsLive(s, who)
  {
    if who == -1 then s.holder.claim else s.late[who]
  }

  function Update(s: Slot, who: int, c: Claim): Slot
    requires IsLive(s, who)
  {
    if who == -1 then s.(holder := Live(c)) else s.(late := s.late[who := c])
  }

  /** The sender leaves; if it held the row, the row stays in `sending`. */
  function Leave(s: Slot, who: int): Slot
    requires IsLive(s, who)
  {
    if who == -1 then s.(holder := Gone(s.holder.claim.phase.ToMarkSent? && s.holder.claim.phase.delivered))
    else s.(late := s.late[..who] + s.late[who + 1..])
  }

  /** A holder that is still live when the row leaves `sending` becomes a late sender. */
  function Overtake(s: Slot): Slot {
    s.(holder := Nobody, late := if s.holder.Live? then s.late + [s.holder.claim] else s.late)
  }

  function Retry(cfg: Config, c: Claim, error: string, now: Time, draw: real): Option<Time> {
    ScheduleRetry(cfg.retry, c.snapshot, error, now, draw)
  }

  function CountDelivery(t: Tally, delivered: bool): Tally {
    if delivered then t.(deliveries := t.deliveries + 1, lostAcks := t.lostAcks + 1) else t
  }

  function DoReset(s: Slot, now: Time, cutoff: Time): Slot {
    var t := s.tally;
    Overtake(s).(
      row := ResetRow(s.row, cutoff, now),
      tally := t.(
        resets := t.resets + 1,
        overlaps := t.overlaps + (if s.holder.Live? then 1 else 0),
        duplicates := t.duplicates + (if s.holder.Live? || s.holder == Gone(true) then 1 else 0)))
  }

  function DoMark(s: Slot, who: int, now: Time): Slot
    requires IsLive(s, who) && !ClaimOf(s, who).phase.Working?
  {
    var row := match ClaimOf(s, who).phase
      case ToMarkSent(id, _) => SentRow(s.row, id, now)
      case ToMarkFailed(error, next) => FailRow(s.row, error, next, now)
      case Working => s.row;
    var left := if who == -1 then s.(holder := Nobody) else Leave(s, who);
    if s.row.status.Sending? then Overtake(left).(row := row) else left
  }

  /** One event; an event whose guard fails changes nothing. */
  function Apply(cfg: Config, s: Slot, e: Event, now: Time): Slot {
    match e
    case Claimed =>
      if Claimable(s.row, now) then
        s.(row := ClaimRow(s.row, now), holder := Live(Claim(s.row.sendAttempts, now, Working)))
      else s
    case Reset =>
      if Stale(s.row, now - cfg.staleAfter) then DoReset(s, now, now - cfg.staleAfter) else s
    case SendAccepted(who, id) =>
      if IsLive(s, who) && ClaimOf(s, who).phase.Working? then
        Update(s, who, ClaimOf(s, who).(phase := ToMarkSent(id, true)))
          .(tally := s.tally.(deliveries := s.tally.deliveries + 1))
      else s
    case SendRefused(who, error, draw, delivered) =>
      if IsLive(s, who) && ClaimOf(s, who).phase.Working? then
        var c := ClaimOf(s, who);
        Update(s, who, c.(phase := ToMarkFailed(error, Retry(cfg, c, error, now, draw))))
          .(tally := CountDelivery(s.tally, delivered))
      else s
    case SendDropped(who) =>
      if IsLive(s, who) && ClaimOf(s, who).phase.Working? then
        Update(s, who, ClaimOf(s, who).(phase := ToMarkSent(0, false)))
      else s
    case SendCancelled(who, delivered) =>
      if IsLive(s, who) && ClaimOf(s, who).phase.Working? then
        Leave(s, who).(tally := CountDelivery(s.tally, delivered))
      else s
    case Crashed(who) => if IsLive(s, who) then Leave(s, who) else s
    case Marked(who) => if IsLive(s, who) && !ClaimOf(s, who).phase.Working? then DoMark(s, who, now) else s
  }

  function Inserted(key: string, now: Time): Slot {
    Slot(Fresh(key, now), Nobody, [], Tally(0, 0, 0, 0, 0))
  }

  /** A timed event. */
  datatype Timed = Timed(event: Event, now: Time)

  /** Any run, in which even the clock may do as it likes. */
  function Run(cfg: Config, s: Slot, events: seq<Timed>): Slot {
    if events == [] then s
    else Apply(cfg, Run(cfg, s, events[..|events| - 1]), events[|events| - 1].event, events[|events| - 1].now)
  }
}
