/**
 * The alert table as a queue (internal/infra/repository/alert_repository.go, lines 125-209).
 * Each statement is one atomic transition of rows; its conditions are those of the queries
 * in internal/infra/postgres/sqlc/alerts.sql.go.
 */
module AlertTable {
  import opened Optional

  type Time = int

  datatype Status = Pending | Sending | Sent | Failed

  datatype Row = Row(
    dedupKey: string, status: Status, sendAttempts: nat, lastError: Option<string>,
    nextRetryAt: Option<Time>, messageId: Option<int>, createdAt: Time, updatedAt: Time)

  datatype Alert = Alert(id: int, row: Row)

  // ---- the statements, row by row ---------------------------------------------

  function Fresh(key: string, now: Time): Row {
    Row(key, Pending, 0, None, None, None, now, now)
  }

  predicate Claimable(r: Row, now: Time) {
    r.status.Pending? || (r.status.Failed? && r.nextRetryAt.Some? && r.nextRetryAt.value <= now)
  }

  function ClaimRow(r: Row, now: Time): Row { r.(status := Sending, updatedAt := now) }

  function SentRow(r: Row, messageId: int, now: Time): Row {
    if r.status.Sending? then
      r.(status := Sent, messageId := Some(messageId), lastError := None, nextRetryAt := None, updatedAt := now)
    else r
  }

  function FailRow(r: Row, error: string, nextRetryAt: Option<Time>, now: Time): Row {
    if r.status.Sending? then
      r.(status := Failed, sendAttempts := r.sendAttempts + 1, lastError := Some(error),
         nextRetryAt := nextRetryAt, updatedAt := now)
    else r
  }

  predicate Stale(r: Row, cutoff: Time) { r.status.Sending? && r.updatedAt < cutoff }

  function ResetRow(r: Row, cutoff: Time, now: Time): Row {
    if Stale(r, cutoff) then r.(status := Pending, updatedAt := now) else r
  }

  type Table = map<int, Row>

  predicate UniqueKeys(rows: Table) {
    forall i, j :: i in rows && j in rows && rows[i].dedupKey == rows[j].dedupKey ==> i == j
  }

  function ClaimAll(rows: Table, ids: set<int>, now: Time): Table {
    map id | id in rows :: if id in ids then ClaimRow(rows[id], now) else rows[id]
  }

  function ResetAll(rows: Table, cutoff: Time, now: Time): Table {
    map id | id in rows :: ResetRow(rows[id], cutoff, now)
  }

  function Ids(alerts: seq<Alert>): set<int> { set a | a in alerts :: a.id }

  class AlertRepository {
    var rows: Table
    var nextId: int

    ghost predicate Valid()
      reads this
    {
      UniqueKeys(rows) && forall id :: id in rows ==> id < nextId
    }

    constructor ()
      ensures Valid() && rows == map[]
    {
      rows := map[];
      nextId := 1;
    }

    /** Lines 131-151: one row per dedup key, ever. */
    method TryCreatePending(key: string, now: Time) returns (alert: Option<Alert>)
      requires Valid()
      modifies this
      ensures Valid()
      ensures alert.None? <==> exists id :: id in old(rows) && old(rows)[id].dedupKey == key
      ensures alert.None? ==> rows == old(rows)
      ensures alert.Some? ==> alert.value.id !in old(rows)
      ensures alert.Some? ==> alert.value.row == Row(key, Pending, 0, None, None, None, now, now)
      ensures alert.Some? ==> rows == old(rows)[alert.value.id := alert.value.row]
    {
      if exists id :: id in rows && rows[id].dedupKey == key {
        return None;
      }
      alert := Some(Alert(nextId, Fresh(key, now)));
      rows := rows[nextId := alert.value.row];
      nextId := nextId + 1;
    }

    /** Lines 159-169: up to `limit` claimable rows, oldest first, all moved to `sending`. */
    method ClaimPending(limit: nat, now: Time) returns (out: seq<Alert>)
      requires Valid()
      modifies this
      ensures Valid() && |out| <= limit
      ensures forall i, j :: 0 <= i < j < |out| ==> out[i].id != out[j].id
      ensures forall a :: a in out ==>
        && a.id in old(rows)
        && (old(rows)[a.id].status == Pending
          || (old(rows)[a.id].status == Failed && exists t :: old(rows)[a.id].nextRetryAt == Some(t) && t <= now))
      ensures forall a :: a in out ==> a.row == old(rows)[a.id].(status := Sending, updatedAt := now)
      ensures rows.Keys == old(rows).Keys
      ensures forall a :: a in out ==> rows[a.id] == a.row
      ensures forall id :: id in rows && id !in Ids(out) ==> rows[id] == old(rows)[id]
      ensures rows == ClaimAll(old(rows), Ids(out), now)
      ensures forall id | id in rows && id !in Ids(out) ::
        (rows[id].status == Pending
          || (rows[id].status == Failed && exists t :: rows[id].nextRetryAt == Some(t) && t <= now)) ==>
        |out| == limit && forall a :: a in out ==> a.row.createdAt <= rows[id].createdAt
    {
      out := [];
      var waiting := set id | id in rows && Claimable(rows[id], now);
      ghost var all := waiting;
      ghost var before := rows;
      while |out| < limit && exists id :: id in waiting
        invariant rows == before && nextId == old(nextId)
        invariant all == (set id | id in before && Claimable(before[id], now))
        invariant |out| <= limit && waiting == all - Ids(out)
        invariant forall i, j :: 0 <= i < j < |out| ==> out[i].id != out[j].id
        invariant forall a :: a in out ==> a.id in all && a.row == ClaimRow(before[a.id], now)
        invariant forall a, id :: a in out && id in waiting ==> a.row.createdAt <= before[id].createdAt
        decreases waiting
      {
        var id := Oldest(waiting);
        ghost var was := out;
        out := out + [Alert(id, ClaimRow(rows[id], now))];
        assert Ids(out) == Ids(was) + {id};
        assert forall a :: a in was ==> a.id in Ids(was);
        waiting := waiting - {id};
      }
      rows := ClaimAll(rows, Ids(out), now);
      assert rows.Keys == before.Keys;
      forall id | id in rows && Claimable(rows[id], now)
        ensures id in waiting
      {
        assert id !in Ids(out);
      }
    }

    method Oldest(ids: set<int>) returns (oldest: int)
      requires (exists id :: id in ids) && forall id :: id in ids ==> id in rows
      ensures oldest in ids && forall id :: id in ids ==> rows[oldest].createdAt <= rows[id].createdAt
    {
      oldest :| oldest in ids;
      var left := ids - {oldest};
      while exists id :: id in left
        invariant left <= ids && oldest in ids
        invariant forall id :: id in ids - left ==> rows[oldest].createdAt <= rows[id].createdAt
        decreases left
      {
        var id :| id in left;
        if rows[id].createdAt < rows[oldest].createdAt {
          oldest := id;
        }
        left := left - {id};
      }
    }

    /** Lines 172-178. */
    method MarkSent(id: int, messageId: int, now: Time)
      requires Valid()
      modifies this
      ensures Valid() && nextId == old(nextId)
      ensures rows == if id in old(rows) then old(rows)[id := SentRow(old(rows)[id], messageId, now)] else old(rows)
      ensures id in old(rows) && old(rows)[id].status == Sending ==>
        rows == old(rows)[id := old(rows)[id].(
          status := Sent, messageId := Some(messageId), lastError := None, nextRetryAt := None, updatedAt := now)]
      ensures id !in old(rows) || old(rows)[id].status != Sending ==> rows == old(rows)
    {
      if id in rows {
        rows := rows[id := SentRow(rows[id], messageId, now)];
      }
    }

    /** Lines 185-191. */
    method MarkFailed(id: int, error: string, nextRetryAt: Option<Time>, now: Time)
      requires Valid()
      modifies this
      ensures Valid() && nextId == old(nextId)
      ensures rows == if id in old(rows)
        then old(rows)[id := FailRow(old(rows)[id], error, nextRetryAt, now)] else old(rows)
      ensures id in old(rows) && old(rows)[id].status == Sending ==>
        rows == old(rows)[id := old(rows)[id].(
          status := Failed, sendAttempts := old(rows)[id].sendAttempts + 1, lastError := Some(error),
          nextRetryAt := nextRetryAt, updatedAt := now)]
      ensures id !in old(rows) || old(rows)[id].status != Sending ==> rows == old(rows)
    {
      if id in rows {
        rows := rows[id := FailRow(rows[id], error, nextRetryAt, now)];
      }
    }

    /** Lines 207-209. */
    method ResetStaleSending(cutoff: Time, now: Time)
      requires Valid()
      modifies this
      ensures Valid() && nextId == old(nextId)
      ensures rows == ResetAll(old(rows), cutoff, now)
      ensures rows.Keys == old(rows).Keys
      ensures forall id :: id in rows ==>
        rows[id] == if old(rows)[id].status == Sending && old(rows)[id].updatedAt < cutoff
          then old(rows)[id].(status := Pending, updatedAt := now) else old(rows)[id]
    {
      rows := ResetAll(rows, cutoff, now);
    }
  }
}
