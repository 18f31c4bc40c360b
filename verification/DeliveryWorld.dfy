/**
 * The whole alert table under concurrent senders: inserts, batch claims, drains and single
 * sender steps, in any interleaving. The table's columns move exactly as AlertRepository's
 * statements move them, and every row keeps the bounds of DeliveryTheorems.
 */
module DeliveryWorld {
  import opened AlertTable
  import opened AlertSender
  import opened DeliveryProtocol
  import opened DeliveryTheorems

  datatype World = World(now: Time, slots: map<int, Slot>)

  datatype Move =
    | Insert(id: int, key: string)         // TryCreatePending with the id the table would give
    | ClaimBatch(ids: set<int>)            // ClaimPending
    | DrainReset                           // ResetStaleSending
    | Tick(to: Time)
    | SenderStep(id: int, event: Event)    // anything a sender does with one claimed row

  predicate KeyTaken(w: World, key: string) { exists id :: id in w.slots && w.slots[id].row.dedupKey == key }

  function MoveWorld(cfg: Config, w: World, m: Move): World {
    match m
    case Insert(id, key) =>
      if id in w.slots || KeyTaken(w, key) then w else w.(slots := w.slots[id := Inserted(key, w.now)])
    case ClaimBatch(ids) =>
      w.(slots := map id | id in w.slots :: if id in ids then Apply(cfg, w.slots[id], Claimed, w.now) else w.slots[id])
    case DrainReset =>
      w.(slots := map id | id in w.slots :: Apply(cfg, w.slots[id], Reset, w.now))
    case Tick(to) => if to >= w.now then w.(now := to) else w
    case SenderStep(id, event) =>
      if id !in w.slots || event.Claimed? || event.Reset? then w
      else w.(slots := w.slots[id := Apply(cfg, w.slots[id], event, w.now)])
  }

  function RunWorld(cfg: Config, w: World, moves: seq<Move>): World {
    if moves == [] then w else MoveWorld(cfg, RunWorld(cfg, w, moves[..|moves| - 1]), moves[|moves| - 1])
  }

  function Rows(w: World): Table { map id | id in w.slots :: w.slots[id].row }

  // ---- the columns move as the statements say ----------------------------------------

  lemma ClaimMovesRows(cfg: Config, w: World, ids: set<int>)
    ensures Rows(MoveWorld(cfg, w, ClaimBatch(ids)))
      == ClaimAll(Rows(w), (set id | id in ids && id in w.slots && Claimable(w.slots[id].row, w.now)), w.now)
  {
    var picked := set id | id in ids && id in w.slots && Claimable(w.slots[id].row, w.now);
    var rows, claimed := Rows(MoveWorld(cfg, w, ClaimBatch(ids))), ClaimAll(Rows(w), picked, w.now);
    assert rows.Keys == claimed.Keys;
    assert forall id :: id in rows ==> rows[id] == claimed[id];
  }

  lemma ResetMovesRows(cfg: Config, w: World)
    ensures Rows(MoveWorld(cfg, w, DrainReset)) == ResetAll(Rows(w), w.now - cfg.staleAfter, w.now)
  {
    var rows, reset := Rows(MoveWorld(cfg, w, DrainReset)), ResetAll(Rows(w), w.now - cfg.staleAfter, w.now);
    assert rows.Keys == reset.Keys;
    assert forall id :: id in rows ==> rows[id] == reset[id];
  }

  /** A sender changes only the row it works on, and only by MarkAlertSent or MarkAlertSendFailed. */
  lemma SenderMovesRows(cfg: Config, w: World, id: int, event: Event)
    requires id in w.slots && !event.Claimed? && !event.Reset?
    ensures var r, rows := w.slots[id].row, Rows(MoveWorld(cfg, w, SenderStep(id, event)));
      rows == Rows(w) ||
      (event.Marked? && IsLive(w.slots[id], event.who) &&
       match ClaimOf(w.slots[id], event.who).phase
       case ToMarkSent(m, _) => rows == Rows(w)[id := SentRow(r, m, w.now)]
       case ToMarkFailed(error, next) => rows == Rows(w)[id := FailRow(r, error, next, w.now)]
       case Working => false)
  {
    hide SentRow, FailRow;
    var s := w.slots[id];
    var s' := Apply(cfg, s, event, w.now);
    NotSendingNotMarked(s.row);
    if s'.row == s.row {
      assert Rows(MoveWorld(cfg, w, SenderStep(id, event))) == Rows(w);
    }
  }

  lemma NotSendingNotMarked(r: Row)
    ensures !r.status.Sending? ==> forall m, now :: SentRow(r, m, now) == r
    ensures !r.status.Sending? ==> forall error, next, now :: FailRow(r, error, next, now) == r
  {
  }

  /** The protocol's steps for a sender that holds the row and is not interrupted. */
  function StepsOf(outcome: Outcome, now: Time, draw: real): seq<Timed> {
    match outcome
    case Unrenderable(reason) => [Timed(SendRefused(-1, "render: " + reason, draw, false), now), Timed(Marked(-1), now)]
    case Cancelled => [Timed(SendCancelled(-1, false), now)]
    case Refused(reason) => [Timed(SendRefused(-1, reason, draw, false), now), Timed(Marked(-1), now)]
    case Accepted(id) => [Timed(SendAccepted(-1, id), now), Timed(Marked(-1), now)]
  }

  /** They move the row exactly as one `Worker.Send` of the claimed alert does. */
  lemma StepsAreSend(cfg: Config, s: Slot, outcome: Outcome, now: Time, draw: real)
    requires s.row.status.Sending? && s.holder.Live? && s.holder.claim.phase.Working?
    ensures Run(cfg, s, StepsOf(outcome, now, draw)).row
      == ApplyMark(s.row, Decide(cfg.retry, s.holder.claim.snapshot, outcome, now, draw), now)
  {
    hide ScheduleRetry;
    var steps := StepsOf(outcome, now, draw);
    var first := [] + [steps[0]];
    RunSnoc(cfg, s, [], steps[0]);
    if outcome.Cancelled? {
      assert steps == first;
    } else {
      assert steps == first + [steps[1]];
      RunSnoc(cfg, s, first, steps[1]);
    }
  }

  // ---- every row keeps its bounds -------------------------------------------------------

  predicate Safe(cfg: Config, w: World) {
    && (forall id :: id in w.slots ==> Kept(cfg, w.slots[id]))
    && (forall i, j :: i in w.slots && j in w.slots && w.slots[i].row.dedupKey == w.slots[j].row.dedupKey ==> i == j)
  }

  lemma KeptAtFirst(cfg: Config, key: string, now: Time)
    ensures Kept(cfg, Inserted(key, now)) && Inserted(key, now).row.dedupKey == key
  {
  }

  lemma SafeMove(cfg: Config, w: World, m: Move)
    requires Safe(cfg, w)
    ensures Safe(cfg, MoveWorld(cfg, w, m))
  {
    hide Kept, Apply, Inserted;
    match m
    case Insert(id, key) =>
      KeptAtFirst(cfg, key, w.now);
    case ClaimBatch(ids) =>
      forall id | id in w.slots
        ensures Kept(cfg, Apply(cfg, w.slots[id], Claimed, w.now))
        ensures Apply(cfg, w.slots[id], Claimed, w.now).row.dedupKey == w.slots[id].row.dedupKey
      {
        KeptStep(cfg, w.slots[id], Claimed, w.now);
      }
    case DrainReset =>
      forall id | id in w.slots
        ensures Kept(cfg, Apply(cfg, w.slots[id], Reset, w.now))
        ensures Apply(cfg, w.slots[id], Reset, w.now).row.dedupKey == w.slots[id].row.dedupKey
      {
        KeptStep(cfg, w.slots[id], Reset, w.now);
      }
    case Tick(to) =>
    case SenderStep(id, event) =>
      if id in w.slots {
        KeptStep(cfg, w.slots[id], event, w.now);
      }
  }

  /**
   * In every run of the whole system, for every dedup key: one row at most, delivered at most
   * once plus its duplicating resets and lost acknowledgements, at a cost of at most
   * `MaxTries` attempts plus one for each reset that overtook a live sender.
   */
  lemma {:induction false} EveryRunIsSafe(cfg: Config, start: Time, moves: seq<Move>)
    ensures var end := RunWorld(cfg, World(start, map[]), moves);
      && Safe(cfg, end)
      && forall id :: id in end.slots ==>
        var s := end.slots[id];
        && s.tally.deliveries <= 1 + s.tally.duplicates + s.tally.lostAcks
        && s.row.sendAttempts <= MaxTries(cfg.retry) + s.tally.overlaps
    decreases |moves|
  {
    hide MoveWorld;
    if moves != [] {
      var before := moves[..|moves| - 1];
      EveryRunIsSafe(cfg, start, before);
      SafeMove(cfg, RunWorld(cfg, World(start, map[]), before), moves[|moves| - 1]);
    }
  }

  /**
   * The first drain after `updated_at` plus the stale limit makes every row left in `sending`
   * claimable again -- cancelled and crashed sends included.
   */
  lemma DrainRecovers(cfg: Config, w: World, id: int)
    requires id in w.slots && w.slots[id].row.status.Sending?
    requires w.now > w.slots[id].row.updatedAt + cfg.staleAfter
    ensures var s := MoveWorld(cfg, w, DrainReset).slots[id];
      Claimable(s.row, w.now) && MoveWorld(cfg, MoveWorld(cfg, w, DrainReset), ClaimBatch({id})).slots[id].holder.Live?
  {
  }
}
