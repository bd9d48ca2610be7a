/** What each statement leaves in the table, column by column. */
module Statements {
  import opened Tally
  import opened Queue
  import opened Dispatch

  /** The queued runs of event. */
  ghost function QueuedIds(db: Db, event: string): set<nat> {
    set id | id in db.rows && db.rows[id].event == event && db.rows[id].status.Queued?
  }

  lemma QueuedIsCount(db: Db, event: string)
    requires Numbered(db)
    ensures CountQueued(db, event) == |QueuedIds(db, event)|
  {
    SumIsCount(db.rows, db.nextId, IsQueuedOf(event));
    assert Counted(db.rows, db.nextId, IsQueuedOf(event)) == QueuedIds(db, event);
  }

  /** Every row but id is as before. */
  ghost predicate OnlyTouches(db: Db, d: Db, id: nat) {
    && d.nextId == db.nextId && d.rows.Keys == db.rows.Keys
    && forall x | x in db.rows && x != id :: d.rows[x] == db.rows[x]
  }

  /** One row is added, under the next id. */
  ghost predicate AddsOne(db: Db, d: Db) {
    && d.nextId == db.nextId + 1 && d.rows.Keys == db.rows.Keys + {db.nextId}
    && forall x | x in db.rows :: d.rows[x] == db.rows[x]
  }

  /** A first attempt that waits, or is dropped because its queue is full. */
  predicate FirstAttempt(r: Row, event: string, kind: Kind, cause: nat, readable: bool, notBefore: Option<int>, dropped: bool, now: int) {
    && r.event == event && r.kind == kind && r.cause == cause && r.readable == readable && r.notBefore == notBefore
    && r.attempt == 1 && r.retryOf == 0 && r.skipped == 0 && !r.cancelRequested && !r.followed
    && (if dropped then r.status.Dropped? && r.reason == "queue_full" && r.finishedAt == Some(now / 1_000_000)
        else r.status.Queued? && r.reason == "" && r.finishedAt.None?)
  }

  /** A firing is dropped if and only if it has a limit and that many runs of its event are queued. */
  lemma InsertedRow(db: Db, f: Firing, maxQueued: nat, now: int)
    requires Numbered(db)
    ensures var d := Insert(db, f, maxQueued, now);
            && AddsOne(db, d)
            && FirstAttempt(d.rows[db.nextId], f.event, f.kind, f.cause, f.readable, f.notBefore,
                            0 < maxQueued <= |QueuedIds(db, f.event)|, now)
  {
    QueuedIsCount(db, f.event);
  }

  /** A firing of a known event gets a row, which is dropped if and only if the event is under the queue policy
      and 1000 of its runs are queued. */
  lemma SubmittedRow(w: World, name: string, readable: bool, now: int)
    requires Numbered(w.db)
    ensures var w' := Submitted(w, name, readable, now);
            && w'.mem == w.mem
            && if name !in w.mem.specs then w'.db == w.db
               else
                 && AddsOne(w.db, w'.db)
                 && FirstAttempt(w'.db.rows[w.db.nextId], name, Outside, 0, readable, None,
                                 w.mem.specs[name].policy.PolicyQueue? && |QueuedIds(w.db, name)| >= 1000, now)
  {
    if name in w.mem.specs {
      InsertedRow(w.db, Firing(name, Outside, 0, readable, None), MaxQueued(w.mem.specs[name]), now);
    }
  }

  /** A queued run is canceled, a running one is marked, and any other stays as it is. */
  predicate CanceledAs(r: Row, r': Row, now: int) {
    if r.status.Queued?
    then r' == r.(status := Canceled, reason := "canceled_by_user", finishedAt := Some(now / 1_000_000))
    else if r.status.Running? then r' == r.(cancelRequested := true) else r' == r
  }

  lemma CanceledRow(db: Db, id: nat, now: int)
    ensures var d := RequestCancel(db, id, now);
            OnlyTouches(db, d, id) && (id in db.rows ==> CanceledAs(db.rows[id], d.rows[id], now))
  {
  }

  /** Canceling an event cancels its runs in the same way, and spares those of other events. */
  lemma CanceledEvent(db: Db, event: string, now: int)
    ensures var d := RequestCancelEvent(db, event, now);
            && d.nextId == db.nextId && d.rows.Keys == db.rows.Keys
            && forall id | id in db.rows ::
                 if db.rows[id].event == event then CanceledAs(db.rows[id], d.rows[id], now) else d.rows[id] == db.rows[id]
  {
  }

  /** A run that is repeated is retried, with the time of its end or of now; the next attempt has its event,
      kind, cause and payload, counts one more, and waits for nothing. */
  lemma RetriedRow(db: Db, run: Run, reason: string, now: int)
    requires Numbered(db) && run.id in db.rows
    ensures var d, n, r := Retry(db, run, reason, now), db.nextId, db.rows[run.id];
            && d.nextId == n + 1 && d.rows.Keys == db.rows.Keys + {n}
            && (forall x | x in db.rows && x != run.id :: d.rows[x] == db.rows[x])
            && d.rows[run.id] == r.(status := Retried, reason := reason, cancelRequested := false,
                                    finishedAt := if r.finishedAt.Some? then r.finishedAt else Some(now / 1_000_000))
            && d.rows[n] == run.row.(attempt := run.row.attempt + 1, retryOf := run.id, notBefore := None, status := Queued,
                                     reason := "", skipped := 0, cancelRequested := false, followed := false, finishedAt := None)
  {
  }

  lemma AbandonedRow(db: Db, id: nat, reason: string, now: int)
    ensures var d := Abandon(db, id, reason, now);
            && OnlyTouches(db, d, id)
            && (id in db.rows ==>
                  d.rows[id] == db.rows[id].(status := Abandoned, reason := reason, cancelRequested := false,
                                             finishedAt := if db.rows[id].finishedAt.Some? then db.rows[id].finishedAt
                                                           else Some(now / 1_000_000)))
  {
  }

  /** Only a queued row is settled. */
  lemma SettledRow(db: Db, id: nat, status: Status, reason: string, now: int)
    ensures var d := Settle(db, id, status, reason, now);
            && OnlyTouches(db, d, id)
            && (id in db.rows ==>
                  d.rows[id] == if db.rows[id].status.Queued?
                                then db.rows[id].(status := status, reason := reason, finishedAt := Some(now / 1_000_000))
                                else db.rows[id])
  {
  }

  /** Exactly the rows that ended before the cut are deleted: those with a final status and an earlier time. */
  lemma PrunedRows(db: Db, before: int)
    ensures var d := Prune(db, before);
            && d.nextId == db.nextId
            && (forall id :: id in d.rows <==> id in db.rows && !EndedBefore(db.rows[id], before))
            && (forall id | id in d.rows :: d.rows[id] == db.rows[id])
  {
  }

  predicate EndedBefore(r: Row, before: int) {
    && r.finishedAt.Some? && r.finishedAt.value < before
    && !r.status.Queued? && !r.status.Running? && !r.status.Interrupted?
  }
}
