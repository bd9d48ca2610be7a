/** The runs table of kickd (internal/queue/store.go): each SQL statement or transaction is one
    function from the table before to the table after. */
module Queue {
  import opened Tally

  datatype Option<+T> = None | Some(value: T)

  datatype Status =
    | Queued | Running | Succeeded | Failed | Canceled | Skipped | Dropped | Interrupted | Retried | Abandoned

  /** Whether a status will not change any more. */
  predicate Final(status: Status) {
    !status.Queued? && !status.Running? && !status.Interrupted?
  }

  /** What fired a run. The scheduler tells restarts and after triggers from the rest. */
  datatype Kind = Outside | After | Restart

  /** One row of the runs table. cause is the run id of the AfterInfo in the payload (0: none),
      retryOf the interrupted run that this one repeats (0: none), and readable whether the
      payload parses. Times are milliseconds. */
  datatype Row = Row(
    event: string, kind: Kind, cause: nat, readable: bool, attempt: nat, retryOf: nat, notBefore: Option<int>,
    status: Status, reason: string, skipped: nat, cancelRequested: bool, followed: bool, finishedAt: Option<int>)

  /** What a caller of insertRun supplies. */
  datatype Firing = Firing(event: string, kind: Kind, cause: nat, readable: bool, notBefore: Option<int>)

  datatype Run = Run(id: nat, row: Row)

  /** AUTOINCREMENT never gives an id twice, so nextId only grows. */
  datatype Db = Db(rows: map<nat, Row>, nextId: nat)

  const EMPTY: Db := Db(map[], 1)

  /** Clock readings are nanoseconds; the table keeps milliseconds. */
  function Ms(at: int): int { at / 1_000_000 }

  function IsQueuedOf(event: string): Row -> int {
    (r: Row) => if r.event == event && r.status.Queued? then 1 else 0
  }

  function CountQueued(db: Db, event: string): int {
    Sum(db.rows, db.nextId, IsQueuedOf(event))
  }

  predicate Full(db: Db, event: string, maxQueued: nat) {
    maxQueued > 0 && CountQueued(db, event) >= maxQueued
  }

  function FreshRow(f: Firing): Row {
    Row(f.event, f.kind, f.cause, f.readable, 1, 0, f.notBefore, Queued, "", 0, false, false, None)
  }

  function Insert(db: Db, f: Firing, maxQueued: nat, now: int): Db {
    var r := FreshRow(f);
    var row := if Full(db, f.event, maxQueued)
               then r.(status := Dropped, reason := "queue_full", finishedAt := Some(Ms(now))) else r;
    Db(db.rows[db.nextId := row], db.nextId + 1)
  }

  function InsertAll(db: Db, fs: seq<Firing>, maxQueued: seq<nat>, now: int): Db
    requires |fs| == |maxQueued|
    decreases |fs|
  {
    if fs == [] then db else InsertAll(Insert(db, fs[0], maxQueued[0], now), fs[1..], maxQueued[1..], now)
  }

  /** UPDATE runs SET ... WHERE id = ?: nothing happens without such a row. */
  function Put(db: Db, id: nat, row: Row): Db {
    if id in db.rows then db.(rows := db.rows[id := row]) else db
  }

  function Follow(db: Db, id: nat, fs: seq<Firing>, maxQueued: seq<nat>, now: int): Db
    requires |fs| == |maxQueued|
  {
    var d := InsertAll(db, fs, maxQueued, now);
    if id in d.rows then Put(d, id, d.rows[id].(followed := true)) else d
  }

  predicate IsQueued(db: Db, id: nat) { id in db.rows && db.rows[id].status.Queued? }

  function StartRun(db: Db, id: nat): Db {
    if IsQueued(db, id) then Put(db, id, db.rows[id].(status := Running)) else db
  }

  function FinishRun(db: Db, id: nat, status: Status, reason: string, now: int): Db {
    if id !in db.rows then db
    else Put(db, id, db.rows[id].(status := status, reason := reason, finishedAt := Some(Ms(now)), cancelRequested := false))
  }

  function Settle(db: Db, id: nat, status: Status, reason: string, now: int): Db {
    if IsQueued(db, id)
    then Put(db, id, db.rows[id].(status := status, reason := reason, finishedAt := Some(Ms(now)))) else db
  }

  function AddSkipped(db: Db, id: nat): Db {
    if id in db.rows then Put(db, id, db.rows[id].(skipped := db.rows[id].skipped + 1)) else db
  }

  /** A queued run is canceled at once; a running one is asked to stop. */
  function CancelRow(r: Row, now: int): Row {
    match r.status
    case Queued => r.(status := Canceled, reason := "canceled_by_user", finishedAt := Some(Ms(now)))
    case Running => r.(cancelRequested := true)
    case _ => r
  }

  function RequestCancel(db: Db, id: nat, now: int): Db {
    if id in db.rows then Put(db, id, CancelRow(db.rows[id], now)) else db
  }

  function RequestCancelEvent(db: Db, event: string, now: int): Db {
    db.(rows := map id | id in db.rows ::
                  if db.rows[id].event == event then CancelRow(db.rows[id], now) else db.rows[id])
  }

  /** COALESCE(finished_at, now) */
  function FirstFinish(r: Row, now: int): Option<int> {
    if r.finishedAt.Some? then r.finishedAt else Some(Ms(now))
  }

  /** Retry inserts the next attempt from run, the row as its caller read it, and marks the row. */
  function Retry(db: Db, run: Run, reason: string, now: int): Db {
    var child := Row(run.row.event, run.row.kind, run.row.cause, run.row.readable, run.row.attempt + 1, run.id, None,
                     Queued, "", 0, false, false, None);
    var d := Db(db.rows[db.nextId := child], db.nextId + 1);
    if run.id !in db.rows then d
    else Put(d, run.id, db.rows[run.id].(status := Retried, reason := reason,
                                         finishedAt := FirstFinish(db.rows[run.id], now), cancelRequested := false))
  }

  function Abandon(db: Db, id: nat, reason: string, now: int): Db {
    if id !in db.rows then db
    else Put(db, id, db.rows[id].(status := Abandoned, reason := reason,
                                  finishedAt := FirstFinish(db.rows[id], now), cancelRequested := false))
  }

  /** before is in milliseconds. */
  predicate Prunable(r: Row, before: int) {
    r.finishedAt.Some? && r.finishedAt.value < before && Final(r.status)
  }

  function Prune(db: Db, before: int): Db {
    db.(rows := map id | id in db.rows && !Prunable(db.rows[id], before) :: db.rows[id])
  }

  // Queries

  /** ORDER BY id LIMIT limit over the rows with an id from lo up to hi that p accepts. */
  function Select(rows: map<nat, Row>, lo: nat, hi: nat, p: Row -> bool, limit: nat): seq<Run>
    decreases hi - lo
  {
    if lo >= hi || limit == 0 then []
    else if lo in rows && p(rows[lo]) then [Run(lo, rows[lo])] + Select(rows, lo + 1, hi, p, limit - 1)
    else Select(rows, lo + 1, hi, p, limit)
  }

  function EndedUnfollowed(): Row -> bool { (r: Row) => !r.followed && Final(r.status) }

  function UnfollowedRuns(db: Db, limit: nat): seq<Run> {
    Select(db.rows, 0, db.nextId, EndedUnfollowed(), limit)
  }

  predicate Due(r: Row, now: int) {
    r.status.Queued? && (r.notBefore.None? || r.notBefore.value <= Ms(now))
  }

  function DueOutside(now: int, except: set<string>): Row -> bool {
    (r: Row) => Due(r, now) && r.event !in except
  }

  function QueuedRuns(db: Db, limit: nat, except: set<string>, now: int): seq<Run> {
    Select(db.rows, 0, db.nextId, DueOutside(now, except), limit)
  }

  function AskedToStop(): Row -> bool { (r: Row) => r.status.Running? && r.cancelRequested }

  function CancelRequests(db: Db): seq<Run> {
    Select(db.rows, 0, db.nextId, AskedToStop(), db.nextId)
  }

  function CutOff(): Row -> bool { (r: Row) => r.status.Running? || r.status.Interrupted? }

  function InterruptedRuns(db: Db): seq<Run> {
    Select(db.rows, 0, db.nextId, CutOff(), db.nextId)
  }

  function RetryingRow(id: nat): Row -> bool { (r: Row) => r.retryOf == id }

  function RetryOf(db: Db, id: nat): seq<Run> {
    Select(db.rows, 0, db.nextId, RetryingRow(id), 1)
  }

  /** Every id of the table was given out before. */
  ghost predicate Numbered(db: Db) {
    db.nextId >= 1 && forall id | id in db.rows :: 1 <= id < db.nextId
  }

  ghost predicate Ascending(runs: seq<Run>) {
    forall i, j | 0 <= i < j < |runs| :: runs[i].id < runs[j].id
  }

  /** runs are rows with an id from lo up to hi that p accepts. */
  ghost predicate Matching(runs: seq<Run>, rows: map<nat, Row>, lo: nat, hi: nat, p: Row -> bool) {
    forall i | 0 <= i < |runs| ::
      lo <= runs[i].id < hi && runs[i].id in rows && rows[runs[i].id] == runs[i].row && p(runs[i].row)
  }

  lemma {:induction false} SelectMatches(rows: map<nat, Row>, lo: nat, hi: nat, p: Row -> bool, limit: nat)
    ensures var out := Select(rows, lo, hi, p, limit);
            |out| <= limit && Ascending(out) && Matching(out, rows, lo, hi, p)
    decreases hi - lo
  {
    if lo < hi && limit > 0 {
      if lo in rows && p(rows[lo]) {
        var rest := Select(rows, lo + 1, hi, p, limit - 1);
        SelectMatches(rows, lo + 1, hi, p, limit - 1);
        var out := [Run(lo, rows[lo])] + rest;
        assert forall i | 1 <= i < |out| :: out[i] == rest[i - 1];
      } else {
        SelectMatches(rows, lo + 1, hi, p, limit);
      }
    }
  }

  /** r is among runs, or cut off behind the last row of a full page. */
  ghost predicate Listed(runs: seq<Run>, limit: nat, r: Run) {
    r in runs || (|runs| == limit && forall i | 0 <= i < |runs| :: runs[i].id < r.id)
  }

  lemma ListedMore(first: Run, rest: seq<Run>, limit: nat, r: Run)
    requires Listed(rest, limit, r) && first.id < r.id
    ensures Listed([first] + rest, limit + 1, r)
  {
    var out := [first] + rest;
    if r in rest {
      var i :| 0 <= i < |rest| && rest[i] == r;
      assert out[i + 1] == r;
    } else {
      forall i | 0 <= i < |out| ensures out[i].id < r.id {
      }
    }
  }

  lemma {:induction false} SelectLists(rows: map<nat, Row>, lo: nat, hi: nat, p: Row -> bool, limit: nat, id: nat)
    requires lo <= id < hi && id in rows && p(rows[id])
    ensures Listed(Select(rows, lo, hi, p, limit), limit, Run(id, rows[id]))
    decreases hi - lo
  {
    if limit > 0 {
      if lo in rows && p(rows[lo]) {
        if id != lo {
          SelectLists(rows, lo + 1, hi, p, limit - 1, id);
          ListedMore(Run(lo, rows[lo]), Select(rows, lo + 1, hi, p, limit - 1), limit - 1, Run(id, rows[id]));
        }
      } else {
        SelectLists(rows, lo + 1, hi, p, limit, id);
      }
    }
  }

  /** What a query returns: rows of the table that match, in the order of their ids, and no row
      left out except behind the last one of a full page. */
  lemma SelectMeaning(rows: map<nat, Row>, lo: nat, hi: nat, p: Row -> bool, limit: nat)
    ensures var out := Select(rows, lo, hi, p, limit);
            && |out| <= limit
            && Ascending(out)
            && (forall i | 0 <= i < |out| ::
                  lo <= out[i].id < hi && out[i].id in rows && rows[out[i].id] == out[i].row && p(out[i].row))
            && (forall id | lo <= id < hi && id in rows && p(rows[id]) ::
                  Run(id, rows[id]) in out || (|out| == limit && forall i | 0 <= i < |out| :: out[i].id < id))
  {
    SelectMatches(rows, lo, hi, p, limit);
    forall id | lo <= id < hi && id in rows && p(rows[id])
      ensures Listed(Select(rows, lo, hi, p, limit), limit, Run(id, rows[id]))
    {
      SelectLists(rows, lo, hi, p, limit, id);
    }
  }

  // Facts about the statements

  /** What never changes in a row once it is inserted. */
  predicate SameFiring(r: Row, r': Row) {
    && r.event == r'.event && r.kind == r'.kind && r.cause == r'.cause && r.readable == r'.readable
    && r.attempt == r'.attempt && r.retryOf == r'.retryOf && r.notBefore == r'.notBefore
  }

  /** The row that Insert writes: dropped exactly when its event already has maxQueued queued rows. */
  predicate InsertedAs(r: Row, f: Firing) {
    SameFiring(r, FreshRow(f)) && !r.followed && !r.cancelRequested && r.skipped == 0
    && ((r.status.Queued? && r.finishedAt.None?) || (r.status.Dropped? && r.finishedAt.Some?))
  }

  lemma {:induction false} InsertAllKeeps(db: Db, fs: seq<Firing>, maxQueued: seq<nat>, now: int)
    requires |fs| == |maxQueued| && Numbered(db)
    ensures var d := InsertAll(db, fs, maxQueued, now);
            && Numbered(d) && d.nextId == db.nextId + |fs|
            && (forall id | id < db.nextId :: id in d.rows <==> id in db.rows)
            && (forall id | id in db.rows :: d.rows[id] == db.rows[id])
    decreases |fs|
  {
    if fs != [] {
      InsertAllKeeps(Insert(db, fs[0], maxQueued[0], now), fs[1..], maxQueued[1..], now);
    }
  }

  lemma {:induction false} InsertAllAdds(db: Db, fs: seq<Firing>, maxQueued: seq<nat>, now: int, i: nat)
    requires |fs| == |maxQueued| && Numbered(db) && i < |fs|
    ensures var d, id := InsertAll(db, fs, maxQueued, now), db.nextId + i;
            && id in d.rows && InsertedAs(d.rows[id], fs[i])
            && (d.rows[id].finishedAt.Some? ==> d.rows[id].finishedAt.value == Ms(now))
    decreases |fs|
  {
    var d1 := Insert(db, fs[0], maxQueued[0], now);
    if i == 0 {
      InsertAllKeeps(d1, fs[1..], maxQueued[1..], now);
      assert db.nextId in d1.rows;
    } else {
      InsertAllAdds(d1, fs[1..], maxQueued[1..], now, i - 1);
    }
  }

  lemma InsertAllMeaning(db: Db, fs: seq<Firing>, maxQueued: seq<nat>, now: int)
    requires |fs| == |maxQueued| && Numbered(db)
    ensures var d := InsertAll(db, fs, maxQueued, now);
            && Numbered(d)
            && d.nextId == db.nextId + |fs|
            && (forall id | id < db.nextId :: id in d.rows <==> id in db.rows)
            && (forall id | id in db.rows :: d.rows[id] == db.rows[id])
            && (forall id | db.nextId <= id < d.nextId ::
                  && id in d.rows && InsertedAs(d.rows[id], fs[id - db.nextId])
                  && (d.rows[id].finishedAt.Some? ==> d.rows[id].finishedAt.value == Ms(now)))
  {
    InsertAllKeeps(db, fs, maxQueued, now);
    var d := InsertAll(db, fs, maxQueued, now);
    forall id | db.nextId <= id < d.nextId
      ensures id in d.rows && InsertedAs(d.rows[id], fs[id - db.nextId])
      ensures d.rows[id].finishedAt.Some? ==> d.rows[id].finishedAt.value == Ms(now)
    {
      InsertAllAdds(db, fs, maxQueued, now, id - db.nextId);
    }
  }

  /** A query with room for every id leaves nothing out. */
  lemma SelectAll(rows: map<nat, Row>, lo: nat, hi: nat, p: Row -> bool, limit: nat)
    requires hi - lo <= limit
    ensures var out := Select(rows, lo, hi, p, limit);
            forall id | lo <= id < hi && id in rows && p(rows[id]) :: Run(id, rows[id]) in out
    decreases hi - lo
  {
    if lo < hi && limit > 0 {
      if lo in rows && p(rows[lo]) {
        var rest := Select(rows, lo + 1, hi, p, limit - 1);
        SelectAll(rows, lo + 1, hi, p, limit - 1);
        assert ([Run(lo, rows[lo])] + rest)[0] == Run(lo, rows[lo]);
        assert forall x | x in rest :: x in [Run(lo, rows[lo])] + rest;
      } else {
        SelectAll(rows, lo + 1, hi, p, limit);
      }
    }
  }
}
