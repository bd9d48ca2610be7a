/** The database object of kickd: every method is one statement or transaction on the table. */
module Storage {
  import opened Queue
  import Table = Queue

  /** rows is was with the first n of the open runs of an event canceled. */
  ghost predicate CanceledUpTo(was: map<nat, Row>, rows: map<nat, Row>, runs: seq<Run>, n: nat, now: int)
    requires n <= |runs|
  {
    && rows.Keys == was.Keys
    && (forall j | 0 <= j < n :: runs[j].id in rows && rows[runs[j].id] == CancelRow(runs[j].row, now))
    && (forall id | id in was && (forall j | 0 <= j < n :: runs[j].id != id) :: rows[id] == was[id])
  }

  lemma CanceledOneMore(was: map<nat, Row>, rows: map<nat, Row>, runs: seq<Run>, n: nat, now: int)
    requires n < |runs| && Ascending(runs) && runs[n].id in was && CanceledUpTo(was, rows, runs, n, now)
    ensures CanceledUpTo(was, rows[runs[n].id := CancelRow(runs[n].row, now)], runs, n + 1, now)
  {
  }

  lemma CanceledAll(was: map<nat, Row>, rows: map<nat, Row>, nextId: nat, event: string, runs: seq<Run>, now: int)
    requires forall r | r in runs :: r.id in was && was[r.id] == r.row && OpenRun(event)(r.row)
    requires forall id | id in was && OpenRun(event)(was[id]) :: Run(id, was[id]) in runs
    requires CanceledUpTo(was, rows, runs, |runs|, now)
    ensures Db(rows, nextId) == Table.RequestCancelEvent(Db(was, nextId), event, now)
  {
    forall id | id in was
      ensures rows[id] == if was[id].event == event then CancelRow(was[id], now) else was[id]
    {
      if OpenRun(event)(was[id]) {
        var j :| 0 <= j < |runs| && runs[j] == Run(id, was[id]);
      }
    }
  }

  function OpenRun(event: string): Row -> bool {
    (r: Row) => r.event == event && (r.status.Queued? || r.status.Running?)
  }

  /** An open database. Each method is one statement or transaction. */
  class Store {
    var rows: map<nat, Row>
    var nextId: nat

    function Contents(): Db
      reads this
    {
      Db(rows, nextId)
    }

    constructor ()
      ensures Contents() == EMPTY
    {
      rows, nextId := map[], 1;
    }

    method InsertRun(f: Firing, maxQueued: nat, now: int) returns (id: nat, dropped: bool)
      modifies this
      ensures Contents() == Insert(old(Contents()), f, maxQueued, now)
      ensures id == old(nextId) && dropped == Full(old(Contents()), f.event, maxQueued)
    {
      var row := FreshRow(f);
      dropped := false;
      if maxQueued > 0 {
        var n := CountQueued(Contents(), f.event);
        if n >= maxQueued {
          row := row.(status := Dropped, reason := "queue_full", finishedAt := Some(Ms(now)));
          dropped := true;
        }
      }
      id := nextId;
      rows, nextId := rows[id := row], nextId + 1;
    }

    method Enqueue(f: Firing, maxQueued: nat, now: int) returns (id: nat, dropped: bool)
      modifies this
      ensures Contents() == Insert(old(Contents()), f, maxQueued, now)
      ensures id == old(nextId) && dropped == Full(old(Contents()), f.event, maxQueued)
    {
      id, dropped := InsertRun(f, maxQueued, now);
    }

    method Follow(id: nat, fs: seq<Firing>, maxQueued: seq<nat>, now: int)
      requires |fs| == |maxQueued|
      modifies this
      ensures Contents() == Table.Follow(old(Contents()), id, fs, maxQueued, now)
    {
      for i := 0 to |fs|
        invariant InsertAll(Contents(), fs[i..], maxQueued[i..], now) == InsertAll(old(Contents()), fs, maxQueued, now)
      {
        assert fs[i..][1..] == fs[i + 1..] && maxQueued[i..][1..] == maxQueued[i + 1..];
        var _, _ := InsertRun(fs[i], maxQueued[i], now);
      }
      if id in rows {
        rows := rows[id := rows[id].(followed := true)];
      }
    }

    method StartRun(id: nat) returns (changed: bool)
      modifies this
      ensures changed == IsQueued(old(Contents()), id)
      ensures Contents() == Table.StartRun(old(Contents()), id)
    {
      changed := id in rows && rows[id].status.Queued?;
      if changed {
        rows := rows[id := rows[id].(status := Running)];
      }
    }

    method FinishRun(id: nat, status: Status, reason: string, now: int)
      modifies this
      ensures Contents() == Table.FinishRun(old(Contents()), id, status, reason, now)
    {
      if id in rows {
        rows := rows[id := rows[id].(status := status, reason := reason, finishedAt := Some(Ms(now)), cancelRequested := false)];
      }
    }

    method Settle(id: nat, status: Status, reason: string, now: int) returns (changed: bool)
      modifies this
      ensures changed == IsQueued(old(Contents()), id)
      ensures Contents() == Table.Settle(old(Contents()), id, status, reason, now)
    {
      changed := id in rows && rows[id].status.Queued?;
      if changed {
        rows := rows[id := rows[id].(status := status, reason := reason, finishedAt := Some(Ms(now)))];
      }
    }

    method AddSkipped(id: nat)
      modifies this
      ensures Contents() == Table.AddSkipped(old(Contents()), id)
    {
      if id in rows {
        rows := rows[id := rows[id].(skipped := rows[id].skipped + 1)];
      }
    }

    /** The run as it is after the request, or None for an id without a row. */
    method RequestCancel(id: nat, now: int) returns (r: Option<Row>)
      modifies this
      ensures Contents() == Table.RequestCancel(old(Contents()), id, now)
      ensures r == if id in rows then Some(rows[id]) else None
    {
      if id !in rows {
        return None;
      }
      var row := rows[id];
      match row.status {
        case Queued => row := row.(status := Canceled, reason := "canceled_by_user", finishedAt := Some(Ms(now)));
        case Running => row := row.(cancelRequested := true);
        case _ =>
      }
      rows := rows[id := row];
      r := Some(row);
    }

    method RequestCancelEvent(event: string, now: int)
      requires Numbered(Contents())
      modifies this
      ensures Contents() == Table.RequestCancelEvent(old(Contents()), event, now)
    {
      ghost var was := rows;
      var runs := Select(rows, 0, nextId, OpenRun(event), nextId);
      SelectMeaning(rows, 0, nextId, OpenRun(event), nextId);
      for i := 0 to |runs|
        invariant nextId == old(nextId) && CanceledUpTo(was, rows, runs, i, now)
      {
        CanceledOneMore(was, rows, runs, i, now);
        rows := rows[runs[i].id := CancelRow(runs[i].row, now)];
      }
      SelectAll(was, 0, nextId, OpenRun(event), nextId);
      CanceledAll(was, rows, nextId, event, runs, now);
    }

    method Retry(run: Run, reason: string, now: int) returns (id: nat)
      requires run.id < nextId
      modifies this
      ensures Contents() == Table.Retry(old(Contents()), run, reason, now)
      ensures id == old(nextId)
    {
      id := nextId;
      rows := rows[id := Row(run.row.event, run.row.kind, run.row.cause, run.row.readable, run.row.attempt + 1, run.id, None,
                             Queued, "", 0, false, false, None)];
      nextId := nextId + 1;
      if run.id in rows {
        rows := rows[run.id := rows[run.id].(status := Retried, reason := reason,
                                             finishedAt := FirstFinish(rows[run.id], now), cancelRequested := false)];
      }
    }

    method Abandon(id: nat, reason: string, now: int)
      modifies this
      ensures Contents() == Table.Abandon(old(Contents()), id, reason, now)
    {
      if id in rows {
        rows := rows[id := rows[id].(status := Abandoned, reason := reason,
                                     finishedAt := FirstFinish(rows[id], now), cancelRequested := false)];
      }
    }

    method Prune(before: int)
      modifies this
      ensures Contents() == Table.Prune(old(Contents()), before)
    {
      rows := map id | id in rows && !Prunable(rows[id], before) :: rows[id];
    }
  }
}
