/** What whole scans achieve: a full batch makes progress unless it is nothing but the newest rows of
    running replace-policy events, and when scans stop waking each other, no due row is left that
    could start. */
module Scans {
  import opened Tally
  import opened Queue
  import opened Dispatch

  function IsWaiting(): Row -> int {
    (r: Row) => if r.status.Queued? then 1 else 0
  }

  function IsDue(now: int): Row -> int {
    (r: Row) => if Due(r, now) then 1 else 0
  }

  /** The queued rows. */
  function CountWaiting(db: Db): int {
    Sum(db.rows, db.nextId, IsWaiting())
  }

  /** The queued rows that may start now. */
  function CountDue(db: Db, now: int): int {
    Sum(db.rows, db.nextId, IsDue(now))
  }

  /** The scan leaves the row queued, because its event is running. */
  predicate Held(mem: Mem, run: Run, newest: map<string, nat>) {
    && !Outdated(newest, run) && run.row.event in mem.specs && Count(mem, run.row.event) > 0
    && !(run.row.kind.Restart? && mem.specs[run.row.event].restart.RestartNever?)
    && (mem.specs[run.row.event].policy.PolicyQueue? || mem.specs[run.row.event].policy.PolicyReplace?)
  }

  predicate Blocked(mem: Mem, event: string) {
    Count(mem, event) > 0 && (HasPolicy(mem, event, PolicyQueue) || HasPolicy(mem, event, PolicyReplace))
  }

  /** The rows of the batch are still queued, as they were read. */
  ghost predicate Ready(db: Db, runs: seq<Run>) {
    && Ascending(runs)
    && (forall i | 0 <= i < |runs| ::
          IsQueued(db, runs[i].id) && SameFiring(db.rows[runs[i].id], runs[i].row) && runs[i].id < db.nextId)
  }

  /** Examining the row starts a run that ends at once, because its payload is unreadable. */
  predicate EndsAtOnce(mem: Mem, run: Run, newest: map<string, nat>) {
    && !Outdated(newest, run) && run.row.event in mem.specs && !run.row.readable
    && var spec := mem.specs[run.row.event];
       !(run.row.kind.Restart? && spec.restart.RestartNever?) && (Count(mem, run.row.event) == 0 || spec.policy.PolicyParallel?)
  }

  /** And its restart takes its place in the queue. */
  predicate Requeues(w: World, run: Run, newest: map<string, nat>) {
    && EndsAtOnce(w.mem, run, newest) && Restarts(w.mem, run.row.event, Failed)
    && (w.mem.specs[run.row.event].policy.PolicyQueue? ==> CountQueued(w.db, run.row.event) <= MAX_QUEUED_PER_EVENT)
  }

  /** The row leaves the queue for good: it is not held, and no restart takes its place. */
  predicate Leaves(w: World, run: Run, newest: map<string, nat>) {
    !Held(w.mem, run, newest) && !Requeues(w, run, newest)
  }

  /** And is due within the millisecond. */
  predicate RequeuesDue(w: World, run: Run, newest: map<string, nat>, now: int) {
    && Requeues(w, run, newest)
    && Ms(now + NextDelay(w.mem.specs[run.row.event], w.mem.restartDelays, run.row.event, 0)) <= Ms(now)
  }

  // One row

  /** What one row of a scan does to the rest of the table. */
  ghost predicate RowScanned(w: World, w': World, id: nat, held: bool) {
    && Numbered(w'.db) && w.db.nextId <= w'.db.nextId <= w.db.nextId + 1
    && w'.mem.specs == w.mem.specs && w'.mem.stopping == w.mem.stopping
    && (forall x | x in w.db.rows :: x in w'.db.rows && SameFiring(w.db.rows[x], w'.db.rows[x])
                                     && (x == id || w'.db.rows[x].status == w.db.rows[x].status))
    && (forall x | x in w'.db.rows && x !in w.db.rows :: x >= w.db.nextId)
    && (IsQueued(w'.db, id) <==> held)
    && (held ==> w'.mem.running == w.mem.running)
    && (forall e | Blocked(w.mem, e) :: Count(w'.mem, e) > 0)
  }

  lemma SettleScanned(w: World, id: nat, status: Status, reason: string, now: int)
    requires Numbered(w.db) && IsQueued(w.db, id) && Final(status)
    ensures RowScanned(w, SettledAs(w, id, status, reason, now), id, false)
  {
  }

  lemma SkipScanned(w: World, id: nat, e: string, now: int)
    requires Numbered(w.db) && IsQueued(w.db, id)
    ensures RowScanned(w, SkipCounted(SettledAs(w, id, Skipped, "already_running", now), e), id, false)
  {
    SettleScanned(w, id, Skipped, "already_running", now);
  }

  lemma ReplaceScanned(w: World, id: nat, e: string)
    requires Numbered(w.db) && IsQueued(w.db, id)
    ensures RowScanned(w, w.(mem := ReplaceAsked(w.mem, e)), id, true)
  {
  }

  lemma StartScanned(w: World, id: nat, e: string, policy: Policy)
    requires Numbered(w.db) && IsQueued(w.db, id)
    ensures RowScanned(w, Started(w, id, e, policy), id, false)
  {
  }

  lemma ThenFinishRow(w: World, w1: World, id: nat, res: Result, now: int)
    requires RowScanned(w, w1, id, false) && id in w.db.rows && !Outcome(res).Queued?
    ensures RowScanned(w, RowFinished(w1, id, res, now), id, false)
  {
  }

  lemma ThenFinishMaps(w: World, w1: World, id: nat, e: string)
    requires RowScanned(w, w1, id, false) && !Blocked(w.mem, e)
    ensures RowScanned(w, w1.(mem := MapsFinished(w1.mem, id, e)), id, false)
  {
    forall x | Blocked(w.mem, x) ensures Count(MapsFinished(w1.mem, id, e), x) > 0 {
      assert x != e;
    }
  }

  lemma ThenRestart(w: World, w1: World, id: nat, e: string, now: int)
    requires RowScanned(w, w1, id, false) && id in w.db.rows && w1.db.nextId == w.db.nextId
    ensures RowScanned(w, Restarted(w1, e, Failed, 0, now), id, false)
  {
  }

  /** An unreadable run starts and ends within the scan. */
  lemma FinishScanned(w: World, id: nat, e: string, policy: Policy, now: int)
    requires Numbered(w.db) && IsQueued(w.db, id) && !Blocked(w.mem, e)
    ensures RowScanned(w, Finished(Started(w, id, e, policy), id, e, PAYLOAD_INVALID, now), id, false)
  {
    var w1 := Started(w, id, e, policy);
    StartScanned(w, id, e, policy);
    ThenFinishRow(w, w1, id, PAYLOAD_INVALID, now);
    var w2 := RowFinished(w1, id, PAYLOAD_INVALID, now);
    ThenFinishMaps(w, w2, id, e);
    ThenRestart(w, w2.(mem := MapsFinished(w2.mem, id, e)), id, e, now);
  }

  lemma RowDone(s: Scanned, run: Run, newest: map<string, nat>, now: int)
    requires Numbered(s.w.db) && !s.w.mem.stopping
    requires IsQueued(s.w.db, run.id) && SameFiring(s.w.db.rows[run.id], run.row)
    ensures var t := ScanRow(s, run, newest, now);
            && RowScanned(s.w, t.w, run.id, Held(s.w.mem, run, newest))
            && t.progressed == (s.progressed || !Held(s.w.mem, run, newest))
            && t.woke == (s.woke || EndsAtOnce(s.w.mem, run, newest))
  {
    var w, e, id, mem := s.w, run.row.event, run.id, s.w.mem;
    if Outdated(newest, run) {
      SettleScanned(w, id, Skipped, "replaced", now);
    } else if e !in mem.specs {
      SettleScanned(w, id, Dropped, "event_removed", now);
    } else if run.row.kind.Restart? && mem.specs[e].restart.RestartNever? {
      SettleScanned(w, id, Dropped, "restart_disabled", now);
    } else if Count(mem, e) > 0 && !mem.specs[e].policy.PolicyParallel? {
      BusyRowDone(s, run, newest, now);
    } else if run.row.readable {
      StartScanned(w, id, e, mem.specs[e].policy);
    } else {
      FinishScanned(w, id, e, mem.specs[e].policy, now);
    }
  }

  lemma BusyRowDone(s: Scanned, run: Run, newest: map<string, nat>, now: int)
    requires Numbered(s.w.db) && IsQueued(s.w.db, run.id) && !Outdated(newest, run) && run.row.event in s.w.mem.specs
    requires var spec := s.w.mem.specs[run.row.event];
             && !(run.row.kind.Restart? && spec.restart.RestartNever?)
             && Count(s.w.mem, run.row.event) > 0 && !spec.policy.PolicyParallel?
    ensures var t := ScanRow(s, run, newest, now);
            && RowScanned(s.w, t.w, run.id, Held(s.w.mem, run, newest))
            && t.progressed == (s.progressed || !Held(s.w.mem, run, newest)) && t.woke == s.woke
  {
    if s.w.mem.specs[run.row.event].policy.PolicySkip? {
      SkipScanned(s.w, run.id, run.row.event, now);
    } else if s.w.mem.specs[run.row.event].policy.PolicyReplace? {
      ReplaceScanned(s.w, run.id, run.row.event);
    }
  }

  // What one row adds

  lemma QueuedAfterStart(db: Db, id: nat, reason: string, now: int)
    requires Numbered(db) && IsQueued(db, id)
    ensures var d := FinishRun(StartRun(db, id), id, Failed, reason, now);
            d.nextId == db.nextId && CountQueued(d, db.rows[id].event) == CountQueued(db, db.rows[id].event) - 1
  {
    var e := db.rows[id].event;
    var d1 := StartRun(db, id);
    SumPut(db.rows, db.nextId, IsQueuedOf(e), id, d1.rows[id]);
    SumPut(d1.rows, db.nextId, IsQueuedOf(e), id, FinishRun(d1, id, Failed, reason, now).rows[id]);
  }

  /** The restart of a run whose payload is unreadable. */
  lemma FinishAdds(w: World, id: nat, policy: Policy, now: int)
    requires Numbered(w.db) && IsQueued(w.db, id) && w.db.rows[id].event in w.mem.specs
    ensures var e := w.db.rows[id].event;
            var spec := w.mem.specs[e];
            var d := Finished(Started(w, id, e, policy), id, e, PAYLOAD_INVALID, now).db;
            && (d.nextId == w.db.nextId + 1 <==> Restarts(w.mem, e, Failed))
            && (d.nextId == w.db.nextId || d.nextId == w.db.nextId + 1)
            && (IsQueued(d, w.db.nextId) <==>
                  Restarts(w.mem, e, Failed) && (spec.policy.PolicyQueue? ==> CountQueued(w.db, e) <= MAX_QUEUED_PER_EVENT))
            && (IsQueued(d, w.db.nextId) ==> d.rows[w.db.nextId].event == e)
            && (IsQueued(d, w.db.nextId) ==>
                  d.rows[w.db.nextId].notBefore == Some(Ms(now + NextDelay(spec, w.mem.restartDelays, e, 0))))
  {
    var e := w.db.rows[id].event;
    var w1 := RowFinished(Started(w, id, e, policy), id, PAYLOAD_INVALID, now);
    var w2 := w1.(mem := MapsFinished(w1.mem, id, e));
    QueuedAfterStart(w.db, id, PAYLOAD_INVALID.reason, now);
    assert w2.db == FinishRun(StartRun(w.db, id), id, Failed, PAYLOAD_INVALID.reason, now);
    assert Restarts(w2.mem, e, Failed) <==> Restarts(w.mem, e, Failed);
    assert w2.mem.restartDelays == w.mem.restartDelays && w2.mem.specs == w.mem.specs;
  }

  /** Only a row that ends at once adds a row, and what it adds waits in the queue exactly if it requeues. */
  lemma RowAdds(s: Scanned, run: Run, newest: map<string, nat>, now: int)
    requires Numbered(s.w.db) && !s.w.mem.stopping
    requires IsQueued(s.w.db, run.id) && SameFiring(s.w.db.rows[run.id], run.row)
    ensures var n, d := s.w.db.nextId, ScanRow(s, run, newest, now).w.db;
            && (d.nextId > n ==> EndsAtOnce(s.w.mem, run, newest))
            && (IsQueued(d, n) <==> Requeues(s.w, run, newest))
            && (IsQueued(d, n) ==> (Due(d.rows[n], now) <==> RequeuesDue(s.w, run, newest, now)))
            && (IsQueued(d, n) ==> d.rows[n].event == run.row.event)
  {
    if EndsAtOnce(s.w.mem, run, newest) {
      FinishAdds(s.w, run.id, s.w.mem.specs[run.row.event].policy, now);
    } else {
      NothingAddedBy(s, run, newest, now);
    }
  }

  lemma NothingAddedBy(s: Scanned, run: Run, newest: map<string, nat>, now: int)
    requires Numbered(s.w.db) && !EndsAtOnce(s.w.mem, run, newest)
    ensures ScanRow(s, run, newest, now).w.db.nextId == s.w.db.nextId
    ensures ScanRow(s, run, newest, now).w.db.rows.Keys == s.w.db.rows.Keys
  {
  }

  /** f counts queued rows, by their status and their firing. */
  ghost predicate CountsQueued(f: Row -> int) {
    && (forall r: Row :: !r.status.Queued? ==> f(r) == 0)
    && (forall r: Row, r': Row {:trigger Alike(r, r')} :: Alike(r, r') ==> f(r) == f(r'))
  }

  predicate Alike(r: Row, r': Row) {
    r.status == r'.status && SameFiring(r, r')
  }

  /** A row that leaves the queue takes its count with it; what it adds is the new row's. */
  lemma RowCounts(w: World, w': World, id: nat, held: bool, f: Row -> int)
    requires Numbered(w.db) && RowScanned(w, w', id, held) && IsQueued(w.db, id) && CountsQueued(f)
    ensures Sum(w'.db.rows, w'.db.nextId, f)
         == Sum(w.db.rows, w.db.nextId, f) - (if held then 0 else f(w.db.rows[id])) + Term(w'.db.rows, w.db.nextId, f)
  {
    var n := w.db.nextId;
    forall x: nat | x < n && x != id ensures Term(w'.db.rows, x, f) == Term(w.db.rows, x, f) {
      if x in w.db.rows {
        assert Alike(w.db.rows[x], w'.db.rows[x]);
      }
    }
    SumChange(w.db.rows, w'.db.rows, n, f, id);
    assert held ==> Alike(w.db.rows[id], w'.db.rows[id]);
  }

  // A batch

  /** Every row of the batch was held when the scan came to it. */
  ghost predicate AllHeld(mem: Mem, runs: seq<Run>, newest: map<string, nat>) {
    forall r | r in runs :: Held(mem, r, newest)
  }

  lemma StillReady(w: World, w': World, runs: seq<Run>, now: int, held: bool)
    requires runs != [] && Ready(w.db, runs) && RowScanned(w, w', runs[0].id, held)
    requires forall r | r in runs :: Due(w.db.rows[r.id], now)
    ensures Ready(w'.db, runs[1..]) && forall r | r in runs[1..] :: Due(w'.db.rows[r.id], now)
  {
    forall i | 0 <= i < |runs[1..]|
      ensures IsQueued(w'.db, runs[1..][i].id) && SameFiring(w'.db.rows[runs[1..][i].id], runs[1..][i].row)
      ensures runs[1..][i].id < w'.db.nextId && Due(w'.db.rows[runs[1..][i].id], now)
    {
      assert runs[1..][i] == runs[i + 1] && runs[i + 1].id > runs[0].id;
      assert runs[i + 1] in runs;
    }
  }

  /** Held depends on the counts and the specs, which a held row leaves alone. */
  lemma HeldStays(mem: Mem, mem': Mem, r: Run, newest: map<string, nat>)
    requires mem'.running == mem.running && mem'.specs == mem.specs
    ensures Held(mem', r, newest) <==> Held(mem, r, newest)
  {
  }

  lemma AllHeldNext(mem: Mem, mem': Mem, runs: seq<Run>, newest: map<string, nat>)
    requires runs != [] && (Held(mem, runs[0], newest) ==> mem'.running == mem.running && mem'.specs == mem.specs)
    ensures AllHeld(mem, runs, newest) <==> Held(mem, runs[0], newest) && AllHeld(mem', runs[1..], newest)
  {
    assert runs == [runs[0]] + runs[1..];
    if Held(mem, runs[0], newest) {
      forall r ensures Held(mem', r, newest) <==> Held(mem, r, newest) {
        HeldStays(mem, mem', r, newest);
      }
    }
  }

  /** The scan after its first row. */
  lemma NextRow(s: Scanned, runs: seq<Run>, newest: map<string, nat>, now: int) returns (t: Scanned)
    requires Numbered(s.w.db) && !s.w.mem.stopping && runs != []
    requires Ready(s.w.db, runs) && forall r | r in runs :: Due(s.w.db.rows[r.id], now)
    ensures t == ScanRow(s, runs[0], newest, now) && ScanRows(s, runs, newest, now) == ScanRows(t, runs[1..], newest, now)
    ensures RowScanned(s.w, t.w, runs[0].id, Held(s.w.mem, runs[0], newest))
    ensures t.progressed == (s.progressed || !Held(s.w.mem, runs[0], newest))
    ensures t.woke == (s.woke || EndsAtOnce(s.w.mem, runs[0], newest))
    ensures Numbered(t.w.db) && !t.w.mem.stopping
    ensures Ready(t.w.db, runs[1..]) && forall r | r in runs[1..] :: Due(t.w.db.rows[r.id], now)
  {
    assert runs[0] in runs;
    RowDone(s, runs[0], newest, now);
    t := ScanRow(s, runs[0], newest, now);
    StillReady(s.w, t.w, runs, now, Held(s.w.mem, runs[0], newest));
  }

  /** How many rows of the batch leave the queue for good. */
  function Drained(s: Scanned, runs: seq<Run>, newest: map<string, nat>, now: int): nat
    decreases |runs|
  {
    if runs == [] then 0
    else
      (if Leaves(s.w, runs[0], newest) then 1 else 0)
      + Drained(ScanRow(s, runs[0], newest, now), runs[1..], newest, now)
  }

  /** How many are no longer due, and no restart of theirs is. */
  function DrainedDue(s: Scanned, runs: seq<Run>, newest: map<string, nat>, now: int): nat
    decreases |runs|
  {
    if runs == [] then 0
    else
      (if Held(s.w.mem, runs[0], newest) || RequeuesDue(s.w, runs[0], newest, now) then 0 else 1)
      + DrainedDue(ScanRow(s, runs[0], newest, now), runs[1..], newest, now)
  }

  lemma RowDrains(s: Scanned, runs: seq<Run>, newest: map<string, nat>, now: int)
    requires Numbered(s.w.db) && !s.w.mem.stopping && runs != []
    requires Ready(s.w.db, runs) && forall r | r in runs :: Due(s.w.db.rows[r.id], now)
    ensures var t := ScanRow(s, runs[0], newest, now);
            var held := Held(s.w.mem, runs[0], newest);
            && CountWaiting(t.w.db) == CountWaiting(s.w.db) - (if held || Requeues(s.w, runs[0], newest) then 0 else 1)
            && CountDue(t.w.db, now) == CountDue(s.w.db, now) - (if held || RequeuesDue(s.w, runs[0], newest, now) then 0 else 1)
  {
    assert runs[0] in runs;
    var t := NextRow(s, runs, newest, now);
    RowAdds(s, runs[0], newest, now);
    RowCounts(s.w, t.w, runs[0].id, Held(s.w.mem, runs[0], newest), IsWaiting());
    RowCounts(s.w, t.w, runs[0].id, Held(s.w.mem, runs[0], newest), IsDue(now));
  }

  /** A scan raises neither the number of queued rows nor that of due ones: it lowers them by the rows
      that leave and are not replaced by a restart. It reports progress unless every row of the batch is
      held. */
  lemma {:induction false} ScanProgress(s: Scanned, runs: seq<Run>, newest: map<string, nat>, now: int)
    requires Numbered(s.w.db) && !s.w.mem.stopping
    requires Ready(s.w.db, runs) && forall r | r in runs :: Due(s.w.db.rows[r.id], now)
    ensures var t := ScanRows(s, runs, newest, now);
            && CountWaiting(t.w.db) == CountWaiting(s.w.db) - Drained(s, runs, newest, now)
            && CountDue(t.w.db, now) == CountDue(s.w.db, now) - DrainedDue(s, runs, newest, now)
            && t.progressed == (s.progressed || !AllHeld(s.w.mem, runs, newest))
    decreases |runs|
  {
    if runs != [] {
      RowDrains(s, runs, newest, now);
      var t := NextRow(s, runs, newest, now);
      ScanProgress(t, runs[1..], newest, now);
      AllHeldNext(s.w.mem, t.w.mem, runs, newest);
    }
  }

  // Which rows leave can be told before the scan

  /** What Held and Requeues depend on. */
  ghost predicate SameGuards(w: World, w': World) {
    && w'.mem.specs == w.mem.specs && w'.mem.stopping == w.mem.stopping
    && (forall e :: Count(w'.mem, e) == Count(w.mem, e))
    && (forall e :: CountQueued(w'.db, e) == CountQueued(w.db, e))
  }

  lemma GuardsDecide(w: World, w': World, r: Run, newest: map<string, nat>)
    requires SameGuards(w, w')
    ensures Leaves(w', r, newest) <==> Leaves(w, r, newest)
  {
  }

  /** A row that ends at once leaves the counts of the runs in progress as they were. */
  lemma CountsAfterFinish(w: World, id: nat, e: string, policy: Policy, now: int)
    ensures var w' := Finished(Started(w, id, e, policy), id, e, PAYLOAD_INVALID, now);
            && w'.mem.specs == w.mem.specs && w'.mem.stopping == w.mem.stopping
            && forall x :: Count(w'.mem, x) == Count(w.mem, x)
  {
  }

  lemma CountsAfterStay(s: Scanned, run: Run, newest: map<string, nat>, now: int)
    requires IsQueued(s.w.db, run.id) && !Leaves(s.w, run, newest)
    ensures var w' := ScanRow(s, run, newest, now).w;
            && w'.mem.specs == s.w.mem.specs && w'.mem.stopping == s.w.mem.stopping
            && forall x :: Count(w'.mem, x) == Count(s.w.mem, x)
  {
    if !Held(s.w.mem, run, newest) {
      CountsAfterFinish(s.w, run.id, run.row.event, s.w.mem.specs[run.row.event].policy, now);
    }
  }

  /** A row that is held, or whose restart takes its place, decides nothing for the rows after it. */
  lemma StayKeepsGuards(s: Scanned, run: Run, newest: map<string, nat>, now: int)
    requires Numbered(s.w.db) && !s.w.mem.stopping && IsQueued(s.w.db, run.id)
    requires SameFiring(s.w.db.rows[run.id], run.row) && !Leaves(s.w, run, newest)
    ensures SameGuards(s.w, ScanRow(s, run, newest, now).w)
  {
    var t := ScanRow(s, run, newest, now);
    RowDone(s, run, newest, now);
    RowAdds(s, run, newest, now);
    CountsAfterStay(s, run, newest, now);
    forall e ensures CountQueued(t.w.db, e) == CountQueued(s.w.db, e) {
      RowCounts(s.w, t.w, run.id, Held(s.w.mem, run, newest), IsQueuedOf(e));
    }
  }

  ghost predicate SomeLeaves(w: World, runs: seq<Run>, newest: map<string, nat>) {
    exists r :: r in runs && Leaves(w, r, newest)
  }

  lemma SomeLeavesNext(w: World, w': World, runs: seq<Run>, newest: map<string, nat>)
    requires runs != [] && SameGuards(w, w') && !Leaves(w, runs[0], newest)
    ensures SomeLeaves(w, runs, newest) <==> SomeLeaves(w', runs[1..], newest)
  {
    assert runs == [runs[0]] + runs[1..];
    forall r ensures Leaves(w', r, newest) <==> Leaves(w, r, newest) {
      GuardsDecide(w, w', r, newest);
    }
  }

  lemma DrainedNext(s: Scanned, runs: seq<Run>, newest: map<string, nat>, now: int)
    requires runs != []
    ensures var rest := Drained(ScanRow(s, runs[0], newest, now), runs[1..], newest, now);
            Drained(s, runs, newest, now) == (if Leaves(s.w, runs[0], newest) then 1 else 0) + rest
  {
  }

  /** Some row of a batch leaves for good if and only if one does by the state before the scan. */
  lemma {:induction false} DrainedExactly(s: Scanned, runs: seq<Run>, newest: map<string, nat>, now: int)
    requires Numbered(s.w.db) && !s.w.mem.stopping
    requires Ready(s.w.db, runs) && forall r | r in runs :: Due(s.w.db.rows[r.id], now)
    ensures Drained(s, runs, newest, now) > 0 <==> SomeLeaves(s.w, runs, newest)
    decreases |runs|
  {
    if runs != [] {
      DrainedNext(s, runs, newest, now);
      if Leaves(s.w, runs[0], newest) {
        assert runs[0] in runs;
      } else {
        var t := NextRow(s, runs, newest, now);
        StayKeepsGuards(s, runs[0], newest, now);
        SomeLeavesNext(s.w, t.w, runs, newest);
        DrainedExactly(t, runs[1..], newest, now);
      }
    }
  }

  /** Without unreadable payloads every row that is not held leaves for good. */
  lemma ReadableDrain(s: Scanned, runs: seq<Run>, newest: map<string, nat>, now: int)
    requires Numbered(s.w.db) && !s.w.mem.stopping
    requires Ready(s.w.db, runs) && forall r | r in runs :: Due(s.w.db.rows[r.id], now)
    requires forall r | r in runs :: r.row.readable
    ensures Drained(s, runs, newest, now) == 0 <==> AllHeld(s.w.mem, runs, newest)
  {
    DrainedExactly(s, runs, newest, now);
  }

  /** What a scan leaves: it adds rows only if a run ends in it, and rows that were there keep what fired
      them and are not queued again. */
  ghost predicate Left(w: World, w': World, woke: bool) {
    && w'.mem.specs == w.mem.specs && w'.db.nextId >= w.db.nextId
    && (forall e | Blocked(w.mem, e) :: Blocked(w'.mem, e))
    && (!woke ==> w'.db.rows.Keys == w.db.rows.Keys)
    && (forall x | x in w'.db.rows && x !in w.db.rows :: x >= w.db.nextId)
    && (forall x | x in w.db.rows :: x in w'.db.rows && SameFiring(w.db.rows[x], w'.db.rows[x])
                                     && (w'.db.rows[x].status.Queued? ==> w.db.rows[x].status.Queued?))
  }

  lemma LeftThenLeft(a: World, b: World, c: World, x: bool, y: bool)
    requires Numbered(a.db) && Left(a, b, x) && Left(b, c, y)
    ensures Left(a, c, x || y)
  {
  }

  lemma RowLeft(s: Scanned, runs: seq<Run>, newest: map<string, nat>, now: int)
    requires Numbered(s.w.db) && !s.w.mem.stopping && runs != []
    requires Ready(s.w.db, runs) && forall r | r in runs :: Due(s.w.db.rows[r.id], now)
    ensures Left(s.w, ScanRow(s, runs[0], newest, now).w, EndsAtOnce(s.w.mem, runs[0], newest))
  {
    assert runs[0] in runs;
    var t := NextRow(s, runs, newest, now);
    if !EndsAtOnce(s.w.mem, runs[0], newest) {
      NothingAddedBy(s, runs[0], newest, now);
    }
  }

  lemma {:induction false} ScanLeft(s: Scanned, runs: seq<Run>, newest: map<string, nat>, now: int)
    requires Numbered(s.w.db) && !s.w.mem.stopping
    requires Ready(s.w.db, runs) && forall r | r in runs :: Due(s.w.db.rows[r.id], now)
    ensures var t := ScanRows(s, runs, newest, now);
            (s.woke ==> t.woke) && Left(s.w, t.w, t.woke)
    decreases |runs|
  {
    if runs != [] {
      var t := NextRow(s, runs, newest, now);
      RowLeft(s, runs, newest, now);
      ScanLeft(t, runs[1..], newest, now);
      var u := ScanRows(t, runs[1..], newest, now);
      LeftThenLeft(s.w, t.w, u.w, EndsAtOnce(s.w.mem, runs[0], newest), u.woke);
    }
  }

  /** Whatever is left queued of the batch belongs to an event that is still running. */
  lemma {:induction false} ScanLeaves(s: Scanned, runs: seq<Run>, newest: map<string, nat>, now: int, r: Run)
    requires Numbered(s.w.db) && !s.w.mem.stopping
    requires Ready(s.w.db, runs) && forall r | r in runs :: Due(s.w.db.rows[r.id], now)
    requires r in runs && IsQueued(ScanRows(s, runs, newest, now).w.db, r.id)
    ensures Blocked(ScanRows(s, runs, newest, now).w.mem, r.row.event)
    decreases |runs|
  {
    assert runs[0] in runs;
    var t := NextRow(s, runs, newest, now);
    if r == runs[0] {
      HeldIsBlocked(s, runs, newest, now);
    } else {
      assert runs == [runs[0]] + runs[1..];
      ScanLeaves(t, runs[1..], newest, now, r);
    }
  }

  /** A first row that is left queued was held. */
  lemma HeldIsBlocked(s: Scanned, runs: seq<Run>, newest: map<string, nat>, now: int)
    requires Numbered(s.w.db) && !s.w.mem.stopping && runs != []
    requires Ready(s.w.db, runs) && forall r | r in runs :: Due(s.w.db.rows[r.id], now)
    requires IsQueued(ScanRows(s, runs, newest, now).w.db, runs[0].id)
    ensures Blocked(ScanRows(s, runs, newest, now).w.mem, runs[0].row.event)
  {
    var t := NextRow(s, runs, newest, now);
    ScanLeft(t, runs[1..], newest, now);
    ScanLeft(s, runs, newest, now);
    assert Held(s.w.mem, runs[0], newest);
  }

  // Full batches

  function RunningReplaced(mem: Mem): set<string> {
    set e | e in mem.running && mem.running[e] > 0 && HasPolicy(mem, e, PolicyReplace)
  }

  /** In a batch, only the newest row of a replace-policy event is not outdated. */
  lemma {:induction false} NewestIsOne(mem: Mem, runs: seq<Run>, i: nat)
    requires Ascending(runs) && i < |runs| && HasPolicy(mem, runs[i].row.event, PolicyReplace)
    ensures var newest := Newest(mem, runs);
            runs[i].row.event in newest && newest[runs[i].row.event] >= runs[i].id
  {
    var init := runs[..|runs| - 1];
    if i < |init| {
      NewestIsOne(mem, init, i);
      NewestInBatch(mem, init, runs[i].row.event);
    }
  }

  lemma {:induction false} NewestInBatch(mem: Mem, runs: seq<Run>, e: string)
    requires e in Newest(mem, runs)
    ensures exists j :: 0 <= j < |runs| && runs[j].id == Newest(mem, runs)[e]
  {
    if runs != [] {
      var init, last := runs[..|runs| - 1], runs[|runs| - 1];
      if last.row.event == e && HasPolicy(mem, e, PolicyReplace) {
        assert runs[|runs| - 1].id == Newest(mem, runs)[e];
      } else {
        NewestInBatch(mem, init, e);
        var j: nat :| j < |init| && init[j].id == Newest(mem, init)[e];
        assert runs[j].id == Newest(mem, runs)[e];
      }
    }
  }

  lemma {:induction false} DistinctFit(runs: seq<Run>, events: set<string>)
    requires forall i | 0 <= i < |runs| :: runs[i].row.event in events
    requires forall i, j | 0 <= i < j < |runs| :: runs[i].row.event != runs[j].row.event
    ensures |runs| <= |events|
  {
    if runs != [] {
      var e := runs[|runs| - 1].row.event;
      DistinctFit(runs[..|runs| - 1], events - {e});
      assert |events - {e}| == |events| - 1;
    }
  }

  /** A batch in which every row is held has one row for each of its events, and each of them is a
      replace-policy event that is running. */
  lemma HeldBatchIsReplaced(w: World, batch: nat, now: int)
    requires Numbered(w.db)
    requires AllHeld(w.mem, Batch(w, batch, now), Newest(w.mem, Batch(w, batch, now)))
    ensures var runs := Batch(w, batch, now);
            && (forall i | 0 <= i < |runs| :: runs[i].row.event in RunningReplaced(w.mem))
            && (forall i, j | 0 <= i < j < |runs| :: runs[i].row.event != runs[j].row.event)
            && |runs| <= |RunningReplaced(w.mem)|
  {
    var runs := Batch(w, batch, now);
    var newest := Newest(w.mem, runs);
    SelectMeaning(w.db.rows, 0, w.db.nextId, DueOutside(now, Waiting(w.mem)), batch);
    forall i | 0 <= i < |runs| ensures runs[i].row.event in RunningReplaced(w.mem) {
      assert runs[i] in runs && Held(w.mem, runs[i], newest);
      assert runs[i].row.event !in Waiting(w.mem);
    }
    forall i, j | 0 <= i < j < |runs| ensures runs[i].row.event != runs[j].row.event {
      assert runs[i] in runs && runs[j] in runs && Held(w.mem, runs[i], newest);
      if runs[i].row.event == runs[j].row.event {
        NewestIsOne(w.mem, runs, j);
      }
    }
    DistinctFit(runs, RunningReplaced(w.mem));
  }

  lemma BatchReady(w: World, batch: nat, now: int)
    requires Numbered(w.db)
    ensures var runs := Batch(w, batch, now);
            Ready(w.db, runs) && forall r | r in runs :: Due(w.db.rows[r.id], now)
  {
    SelectMeaning(w.db.rows, 0, w.db.nextId, DueOutside(now, Waiting(w.mem)), batch);
  }

  /** A full batch reports the progress that wakes the next scan, whenever fewer replace-policy events run
      than the batch has places. It never raises the number of queued rows, and lowers it if and only if,
      before the scan, some row of the batch is neither held nor one that a restart would replace; if the
      payloads of the batch are readable, one is. */
  lemma FullBatchProgresses(w: World, batch: nat, now: int)
    requires Numbered(w.db) && !w.mem.stopping
    requires |Batch(w, batch, now)| == batch && |RunningReplaced(w.mem)| < batch
    ensures Scan(w, batch, now).progressed && Wakes(w, batch, now)
    ensures var runs, before, after := Batch(w, batch, now), CountWaiting(w.db), CountWaiting(Scan(w, batch, now).w.db);
            && after <= before
            && (after < before <==> exists r :: r in runs && Leaves(w, r, Newest(w.mem, runs)))
            && ((forall r | r in runs :: r.row.readable) ==> after < before)
  {
    var runs := Batch(w, batch, now);
    var newest, s := Newest(w.mem, runs), Scanned(w, false, false);
    BatchReady(w, batch, now);
    ScanProgress(s, runs, newest, now);
    DrainedExactly(s, runs, newest, now);
    if AllHeld(w.mem, runs, newest) {
      HeldBatchIsReplaced(w, batch, now);
    }
    if forall r | r in runs :: r.row.readable {
      ReadableDrain(s, runs, newest, now);
    }
  }

  /** When a scan does not wake the next one, every due row that is left belongs to an event that is
      running under the queue or the replace policy: no backlog hides a row that could start. */
  lemma NothingHidden(w: World, batch: nat, now: int, id: nat)
    requires Numbered(w.db) && !w.mem.stopping && |RunningReplaced(w.mem)| < batch
    requires !Wakes(w, batch, now)
    requires var d := Scan(w, batch, now).w.db; id in d.rows && Due(d.rows[id], now)
    ensures var t := Scan(w, batch, now).w; Blocked(t.mem, t.db.rows[id].event)
  {
    var runs := Batch(w, batch, now);
    BatchReady(w, batch, now);
    ScanLeft(Scanned(w, false, false), runs, Newest(w.mem, runs), now);
    if |runs| == batch {
      FullBatchProgresses(w, batch, now);
    }
    var e := w.db.rows[id].event;
    if e in Waiting(w.mem) {
      assert Blocked(w.mem, e);
    } else {
      SelectMeaning(w.db.rows, 0, w.db.nextId, DueOutside(now, Waiting(w.mem)), batch);
      ScanLeaves(Scanned(w, false, false), runs, Newest(w.mem, runs), now, Run(id, w.db.rows[id]));
    }
  }

  // A full batch that drains nothing

  const UNREADABLE: Row := Row("job", Outside, 0, false, 1, 0, None, Queued, "", 0, false, false, None)

  function Broken(delay: nat): World {
    World(Db(map[1 := UNREADABLE], 2),
          IDLE.(specs := map["job" := Spec("job", PolicyQueue, RestartOnFailure, delay, delay, false, 1, [])]))
  }

  /** A batch of one row, with an unreadable payload, of an event that restarts on failure: the scan leaves
      one queued row, and if the restart delay is below a millisecond, a due one. It wakes the next scan. */
  lemma UnreadableStaysQueued(delay: nat)
    ensures var w := Broken(delay);
            var t := Scan(w, 1, 0).w;
            && |Batch(w, 1, 0)| == 1 && RunningReplaced(w.mem) == {} && Wakes(w, 1, 0)
            && CountWaiting(w.db) == 1 == CountWaiting(t.db)
            && CountDue(w.db, 0) == 1 && CountDue(t.db, 0) == (if delay < 1_000_000 then 1 else 0)
  {
    var w := Broken(delay);
    var run := Run(1, UNREADABLE);
    BrokenBatch(delay);
    var s := Scanned(w, false, false);
    assert Ready(w.db, [run]) && Due(w.db.rows[1], 0);
    SumOne(w.db.rows, IsQueuedOf("job"));
    SumOne(w.db.rows, IsWaiting());
    SumOne(w.db.rows, IsDue(0));
    ScanProgress(s, [run], map[], 0);
    assert [run][1..] == [] && Requeues(w, run, map[]);
    assert RequeuesDue(w, run, map[], 0) <==> delay < 1_000_000;
    NextRowOf(s, run);
  }

  lemma BrokenBatch(delay: nat)
    ensures var w := Broken(delay);
            && Batch(w, 1, 0) == [Run(1, UNREADABLE)] && Newest(w.mem, Batch(w, 1, 0)) == map[] && RunningReplaced(w.mem) == {}
  {
    var w, run := Broken(delay), Run(1, UNREADABLE);
    assert Select(w.db.rows, 1, 2, DueOutside(0, {}), 1) == [run] + Select(w.db.rows, 2, 2, DueOutside(0, {}), 0);
    assert Waiting(w.mem) == {};
    assert [run][..0] == [] && Newest(w.mem, [run]) == map[];
  }

  lemma NextRowOf(s: Scanned, run: Run)
    requires Numbered(s.w.db) && !s.w.mem.stopping && Ready(s.w.db, [run])
    requires run.id in s.w.db.rows && Due(s.w.db.rows[run.id], 0)
    ensures ScanRows(s, [run], map[], 0).woke == (s.woke || EndsAtOnce(s.w.mem, run, map[]))
  {
    var t := NextRow(s, [run], map[], 0);
    assert [run][1..] == [];
  }

  // Restart delays

  /** The n-th restart in a row after short runs: restart_delay doubled n times, up to the maximum. */
  function Backoff(spec: Spec, n: nat): nat {
    if n == 0 then spec.restartDelay else Min(2 * Backoff(spec, n - 1), spec.restartMaxDelay)
  }

  function Pow2(n: nat): nat { if n == 0 then 1 else 2 * Pow2(n - 1) }

  /** restart reaches the n-th delay after n + 1 short runs, and begins again after a long one. */
  lemma {:induction false} RestartBackoff(w: World, event: string, status: Status, ran: nat, now: int, n: nat)
    requires Restarts(w.mem, event, status)
    requires var spec := w.mem.specs[event]; spec.restartDelay <= spec.restartMaxDelay
    requires event in w.mem.restartDelays ==> w.mem.restartDelays[event] == Backoff(w.mem.specs[event], n)
    ensures var spec, delay := w.mem.specs[event], Restarted(w, event, status, ran, now).mem.restartDelays[event];
            && delay == Backoff(spec, if event in w.mem.restartDelays && ran < spec.restartMaxDelay then n + 1 else 0)
            && spec.restartDelay <= delay <= spec.restartMaxDelay
            && Restarted(w, event, status, ran, now).db.rows[w.db.nextId].notBefore == Some(Ms(now + delay))
  {
    BackoffIsDoubling(w.mem.specs[event], n + 1);
  }

  lemma {:induction false} BackoffIsDoubling(spec: Spec, n: nat)
    requires spec.restartDelay <= spec.restartMaxDelay
    ensures Backoff(spec, n) == Min(Pow2(n) * spec.restartDelay, spec.restartMaxDelay)
    ensures spec.restartDelay <= Backoff(spec, n) <= spec.restartMaxDelay
  {
    if n > 0 {
      BackoffIsDoubling(spec, n - 1);
      assert Pow2(n) * spec.restartDelay == 2 * (Pow2(n - 1) * spec.restartDelay);
    }
  }
}
