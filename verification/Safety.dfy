/** What every run of the protocol keeps: how statuses move, that exclusive events run one at a
    time, and that the start of the agent settles whatever the one before left behind. */
module Safety {
  import opened Queue
  import opened Dispatch
  import opened Dispatching
  import opened Protocol

  // Statuses

  predicate Moves(a: Status, b: Status) {
    match a
    case Queued => b.Queued? || b.Running? || b.Canceled? || b.Skipped? || b.Dropped?
    case Running => Ran(b) || b.Retried? || b.Abandoned?
    case Interrupted => b.Interrupted? || b.Retried? || b.Abandoned?
    case _ => b == a
  }

  /** Every row that stays moves along the state diagram, and only final rows go away. */
  ghost predicate StatusesMove(db: Db, db': Db) {
    && (forall id | id in db.rows && id in db'.rows :: Moves(db.rows[id].status, db'.rows[id].status))
    && (forall id | id in db.rows && id !in db'.rows :: Final(db.rows[id].status))
  }

  /** processCancels is about to write canceled over a run that this process does not hold. */
  predicate Overwrites(s: State, l: Label) {
    && l.CancelOne? && l.id !in s.w.mem.cancels
    && l.id in s.w.db.rows && !s.w.db.rows[l.id].status.Canceled?
  }

  /** A cancel request found for a run that the dispatcher does not hold is always stale: the run
      ended after the ids were read. Read and handled as one step, every request finds its run. */
  lemma UnownedCancelIsStale(s: State, id: nat)
    requires Inv(s) && s.phase.Up? && id in s.w.db.rows && id !in s.w.mem.cancels
    ensures !s.w.db.rows[id].status.Running?
    ensures id in s.pending ==> Ran(s.w.db.rows[id].status)
  {
    assert OwnedRow(s, id);
  }

  lemma AsideMoves(s: State, l: Label)
    requires Inv(s) && Enabled(s, l) && SetsAside(l)
    ensures StatusesMove(s.w.db, Apply(s, l).w.db)
  {
    StepAside(s, l);
    var db, db' := s.w.db, Apply(s, l).w.db;
    forall id | id in db.rows && id in db'.rows ensures Moves(db.rows[id].status, db'.rows[id].status) {
      if db'.rows[id].status != db.rows[id].status {
        QueuedMoves(s, l, id);
      }
    }
  }

  /** A queued row is only ever canceled, skipped or dropped by the steps that leave runs alone. */
  lemma QueuedMoves(s: State, l: Label, id: nat)
    requires Inv(s) && Enabled(s, l) && SetsAside(l)
    requires id in s.w.db.rows && id in Apply(s, l).w.db.rows && s.w.db.rows[id].status.Queued?
    ensures Moves(Queued, Apply(s, l).w.db.rows[id].status)
  {
    if l.Hand? {
      HandedMeaning(s.w, Run(l.id, s.w.db.rows[l.id]), s.now);
    } else if l.CliCancelEvent? || l.CountSkip? || l.Prune? || l.RestartEvent? {
      ManyRowsMove(s, l, id);
    } else {
      OneRowMoves(s, l, id);
    }
  }

  lemma OneRowMoves(s: State, l: Label, id: nat)
    requires Numbered(s.w.db) && Enabled(s, l) && SetsAside(l)
    requires !l.Hand? && !l.CliCancelEvent? && !l.CountSkip? && !l.Prune? && !l.RestartEvent?
    requires id in s.w.db.rows && id in Apply(s, l).w.db.rows && s.w.db.rows[id].status.Queued?
    ensures Moves(Queued, Apply(s, l).w.db.rows[id].status)
  {
  }

  lemma ManyRowsMove(s: State, l: Label, id: nat)
    requires Numbered(s.w.db) && Enabled(s, l) && (l.CliCancelEvent? || l.CountSkip? || l.Prune? || l.RestartEvent?)
    requires id in s.w.db.rows && id in Apply(s, l).w.db.rows && s.w.db.rows[id].status.Queued?
    ensures Moves(Queued, Apply(s, l).w.db.rows[id].status)
  {
  }

  /** The run that Recover settles next is in the table, and cut off. */
  lemma ToRecover(s: State)
    requires Inv(s) && Enabled(s, RecoverOne)
    ensures var run := s.phase.todo[0];
            Waits(s.w.db, run) && CutOff()(s.w.db.rows[run.id]) && CutOff()(run.row) && run.id < s.w.db.nextId
  {
    var run := s.phase.todo[0];
    assert run in s.phase.todo && Waits(s.w.db, run);
    assert OwnedRow(s, run.id) && run.id in TodoIds(s.phase.todo);
  }

  lemma RecoverMoves(s: State)
    requires Inv(s) && Enabled(s, RecoverOne)
    ensures StatusesMove(s.w.db, Apply(s, RecoverOne).w.db)
  {
    ToRecover(s);
    RecoverRowMeaning(s.w.db, s.w.mem.specs, s.phase.todo[0], s.now);
  }

  lemma StartMoves(s: State, id: nat)
    requires Enabled(s, Start(id))
    ensures StatusesMove(s.w.db, Apply(s, Start(id)).w.db)
  {
  }

  lemma FinishRunMoves(db: Db, id: nat, status: Status, reason: string, now: int)
    ensures StatusesMove(db, FinishRun(db, id, status, reason, now))
       <==> (id in db.rows ==> Moves(db.rows[id].status, status))
  {
    var d := FinishRun(db, id, status, reason, now);
    if id in db.rows {
      assert d.rows[id].status == status;
    }
  }

  lemma FinishMoves(s: State, id: nat, res: Result)
    requires Inv(s) && Enabled(s, FinishRow(id, res))
    ensures StatusesMove(s.w.db, Apply(s, FinishRow(id, res)).w.db)
  {
    assert OwnedRow(s, id);
    FinishRunMoves(s.w.db, id, Outcome(res), res.reason, s.now);
  }

  lemma CancelMoves(s: State, id: nat)
    requires Inv(s) && Enabled(s, CancelOne(id))
    ensures StatusesMove(s.w.db, Apply(s, CancelOne(id)).w.db) <==> !Overwrites(s, CancelOne(id))
  {
    if id in s.w.mem.cancels {
      assert Apply(s, CancelOne(id)).w.db == s.w.db;
    } else {
      FinishRunMoves(s.w.db, id, Canceled, "canceled_by_user", s.now);
      if id in s.w.db.rows {
        UnownedCancelIsStale(s, id);
      }
    }
  }

  /** In every reachable state a step moves statuses along the diagram, unless it is a stale
      cancellation, and then it does not. */
  lemma StatusesMoveExactly(s: State, l: Label)
    requires Inv(s) && Enabled(s, l)
    ensures StatusesMove(s.w.db, Apply(s, l).w.db) <==> !Overwrites(s, l)
  {
    if SetsAside(l) {
      AsideMoves(s, l);
    } else if l.RecoverOne? {
      RecoverMoves(s);
    } else if l.CancelOne? {
      CancelMoves(s, l.id);
    } else if l.FinishRow? {
      FinishMoves(s, l.id, l.res);
    } else {
      StartMoves(s, l.id);
    }
  }

  /** No cancel request of the run is handled after its run has ended. */
  ghost predicate Current(s: State, ls: seq<Label>)
    requires Runs(s, ls)
    decreases |ls|
  {
    ls == [] || (!Overwrites(s, ls[0]) && Current(Apply(s, ls[0]), ls[1..]))
  }

  /** A final status stays over every such run, for as long as the row does, and a pruned id never
      comes back. */
  lemma {:induction false} FinalForever(s: State, ls: seq<Label>, id: nat, status: Status)
    requires Inv(s) && Runs(s, ls) && Current(s, ls) && Final(status)
    requires id < s.w.db.nextId && (id in s.w.db.rows ==> s.w.db.rows[id].status == status)
    ensures var db := Exec(s, ls).w.db;
            id in db.rows ==> id in s.w.db.rows && db.rows[id].status == status
    decreases |ls|
  {
    if ls != [] {
      var s' := Apply(s, ls[0]);
      StepInv(s, ls[0]);
      StepRecords(s, ls[0]);
      StatusesMoveExactly(s, ls[0]);
      FinalForever(s', ls[1..], id, status);
    }
  }

  // One run at a time

  /** The specs that a label puts in force, if any, never run event in parallel. */
  predicate NeverParallel(l: Label, event: string) {
    (l.Boot? || l.Configure?) && event in SpecMap(l.specs) ==> !SpecMap(l.specs)[event].policy.PolicyParallel?
  }

  predicate OneAtATime(mem: Mem, event: string) {
    Count(mem, event) <= 1 && (event in mem.specs ==> !mem.specs[event].policy.PolicyParallel?)
  }

  /** A start under skip, queue or replace, in any reachable state and after any reload, finds no
      run of its event in progress: neither in the indexes nor in the table. */
  lemma StartsAlone(s: State, id: nat, other: nat)
    requires Inv(s) && Enabled(s, Start(id))
    requires var e := s.w.db.rows[id].event; !s.w.mem.specs[e].policy.PolicyParallel?
    requires other in s.w.db.rows && s.w.db.rows[other].event == s.w.db.rows[id].event
    ensures !s.w.db.rows[other].status.Running?
    ensures Of(s.w.mem, s.w.db.rows[id].event) == {}
  {
    var e := s.w.db.rows[id].event;
    assert |Of(s.w.mem, e)| == 0;
    assert OwnedRow(s, other);
    assert other !in Of(s.w.mem, e);
  }

  lemma StepOneAtATime(s: State, l: Label, event: string)
    requires Inv(s) && Enabled(s, l) && NeverParallel(l, event) && OneAtATime(s.w.mem, event)
    ensures OneAtATime(Apply(s, l).w.mem, event)
  {
    var mem := s.w.mem;
    if l.Start? || l.FinishMaps? || l.Boot? || l.Crash? || l.Configure? {
    } else {
      StepSameRuns(s, l);
      StepSameSpecs(s, l);
    }
  }

  lemma StepSameSpecs(s: State, l: Label)
    requires Enabled(s, l) && !l.Boot? && !l.Configure? && !l.Crash?
    ensures Apply(s, l).w.mem.specs == s.w.mem.specs && Apply(s, l).w.mem.follows == s.w.mem.follows
  {
    if l.CancelOne? {
      CancelKeepsSpecs(s, l.id);
    } else if l.Start? {
      StartKeepsSpecs(s, l.id);
    } else if l.CountSkip? || l.AskReplace? || l.FinishMaps? || l.RestartEvent? || l.Stop? {
      EditKeepsSpecs(s, l);
    } else {
      assert Apply(s, l).w.mem == s.w.mem;
    }
  }

  lemma CancelKeepsSpecs(s: State, id: nat)
    requires Enabled(s, CancelOne(id))
    ensures Apply(s, CancelOne(id)).w.mem.specs == s.w.mem.specs && Apply(s, CancelOne(id)).w.mem.follows == s.w.mem.follows
  {
  }

  lemma StartKeepsSpecs(s: State, id: nat)
    requires Enabled(s, Start(id))
    ensures Apply(s, Start(id)).w.mem.specs == s.w.mem.specs && Apply(s, Start(id)).w.mem.follows == s.w.mem.follows
  {
  }

  lemma EditKeepsSpecs(s: State, l: Label)
    requires Enabled(s, l) && (l.CountSkip? || l.AskReplace? || l.FinishMaps? || l.RestartEvent? || l.Stop?)
    ensures Apply(s, l).w.mem.specs == s.w.mem.specs && Apply(s, l).w.mem.follows == s.w.mem.follows
  {
  }

  /** Over every run whose configs never make event parallel, two rows of event in the status
      running are the same row while the agent runs. */
  lemma {:induction false} AtMostOneRunning(s: State, ls: seq<Label>, event: string, a: nat, b: nat)
    requires Inv(s) && Runs(s, ls) && OneAtATime(s.w.mem, event)
    requires forall l | l in ls :: NeverParallel(l, event)
    requires var s' := Exec(s, ls);
             && s'.phase.Up? && {a, b} <= s'.w.db.rows.Keys
             && s'.w.db.rows[a].event == s'.w.db.rows[b].event == event
             && s'.w.db.rows[a].status.Running? && s'.w.db.rows[b].status.Running?
    ensures a == b
    decreases |ls|
  {
    if ls == [] {
      assert OwnedRow(s, a) && OwnedRow(s, b);
      assert {a, b} <= Of(s.w.mem, event);
      if a != b { PairFits(a, b, Of(s.w.mem, event)); }
    } else {
      StepInv(s, ls[0]);
      StepOneAtATime(s, ls[0], event);
      AtMostOneRunning(Apply(s, ls[0]), ls[1..], event, a, b);
    }
  }

  lemma PairFits(a: nat, b: nat, ids: set<nat>)
    requires a != b && a in ids && b in ids
    ensures |ids| >= 2
  {
    assert |ids - {a}| == |ids| - 1 && b in ids - {a};
  }

  // The start of the agent

  /** When the loop starts, no row is left running or interrupted. */
  lemma LoopStartsClean(s: State, id: nat)
    requires Inv(s) && Enabled(s, EnterLoop) && id in s.w.db.rows
    ensures !CutOff()(s.w.db.rows[id])
  {
    assert OwnedRow(s, id);
    assert TodoIds(s.phase.todo) == {};
  }

  /** The rows of runs that are still to be settled are untouched by settling another run. */
  lemma RecoverRowMeaning(db: Db, specs: map<string, Spec>, run: Run, now: int)
    requires Numbered(db) && run.id in db.rows && CutOff()(run.row)
    ensures var d := RecoverRow(db, specs, run, now);
            && Numbered(d) && db.nextId <= d.nextId
            && run.id in d.rows && Final(d.rows[run.id].status)
            && d.rows[run.id].status == (if Judge(specs, run.row).RunAgain? then Retried else Abandoned)
            && (forall id | id in db.rows && id != run.id :: id in d.rows && d.rows[id] == db.rows[id])
            && (forall id | id in d.rows && id !in db.rows :: id >= db.nextId && d.rows[id].status.Queued? && d.rows[id].retryOf == run.id)
  {
  }

  ghost predicate IsCutOff(db: Db, r: Run) {
    r.id in db.rows && db.rows[r.id] == r.row && CutOff()(r.row)
  }

  /** A start lists exactly the rows that are running or interrupted. */
  lemma InterruptedMeaning(db: Db)
    requires Numbered(db)
    ensures Ascending(InterruptedRuns(db)) && forall r :: r in InterruptedRuns(db) <==> IsCutOff(db, r)
  {
    SelectMeaning(db.rows, 0, db.nextId, CutOff(), db.nextId);
    SelectAll(db.rows, 0, db.nextId, CutOff(), db.nextId);
    forall r ensures r in InterruptedRuns(db) <==> IsCutOff(db, r) {
      if IsCutOff(db, r) {
        assert Run(r.id, db.rows[r.id]) in InterruptedRuns(db);
      }
    }
  }

  /** d is the table after the first k of the runs that a start lists are settled: the rows cut off are
      exactly the rest of the list. */
  ghost predicate Settled(db: Db, d: Db, runs: seq<Run>, k: nat)
    requires k <= |runs|
  {
    && Numbered(d) && d.nextId >= db.nextId
    && (forall id | id in d.rows && CutOff()(d.rows[id]) :: id in db.rows && d.rows[id] == db.rows[id])
    && (forall id | id in db.rows && CutOff()(db.rows[id]) ::
          id in d.rows && (CutOff()(d.rows[id]) <==> forall i | 0 <= i < k :: runs[i].id != id))
  }

  lemma SettledOneMore(db: Db, d: Db, specs: map<string, Spec>, runs: seq<Run>, k: nat, now: int)
    requires k < |runs| && Settled(db, d, runs, k) && CutOff()(runs[k].row)
    requires runs[k].id in db.rows && CutOff()(db.rows[runs[k].id]) && forall i | 0 <= i < k :: runs[i].id != runs[k].id
    ensures Settled(db, RecoverRow(d, specs, runs[k], now), runs, k + 1)
  {
    RecoverRowMeaning(d, specs, runs[k], now);
  }

  lemma {:induction false} RecoverPrefix(db: Db, specs: map<string, Spec>, k: nat, clock: nat -> int)
    requires Numbered(db) && k <= |InterruptedRuns(db)|
    ensures Settled(db, RecoverRows(db, specs, InterruptedRuns(db)[..k], clock), InterruptedRuns(db), k)
  {
    var runs := InterruptedRuns(db);
    if k == 0 {
      assert runs[..0] == [];
    } else {
      InterruptedMeaning(db);
      RecoverPrefix(db, specs, k - 1, clock);
      var d := RecoverRows(db, specs, runs[..k - 1], clock);
      var run := runs[k - 1];
      OneMoreRow(db, specs, runs, k - 1, clock);
      assert run in runs && IsCutOff(db, run);
      SettledOneMore(db, d, specs, runs, k - 1, clock(run.id));
    }
  }

  lemma OneMoreRow(db: Db, specs: map<string, Spec>, runs: seq<Run>, k: nat, clock: nat -> int)
    requires k < |runs|
    ensures RecoverRows(db, specs, runs[..k + 1], clock)
         == RecoverRow(RecoverRows(db, specs, runs[..k], clock), specs, runs[k], clock(runs[k].id))
  {
    RecoverRowsSplit(db, specs, runs[..k + 1], k, clock);
    assert runs[..k + 1][..k] == runs[..k] && runs[..k + 1][k..] == [runs[k]];
    var d := RecoverRows(db, specs, runs[..k], clock);
    assert RecoverRows(d, specs, [runs[k]], clock) == RecoverRow(d, specs, runs[k], clock(runs[k].id));
  }

  lemma {:induction false} RecoverRowsSplit(db: Db, specs: map<string, Spec>, runs: seq<Run>, k: nat, clock: nat -> int)
    requires k <= |runs|
    ensures RecoverRows(db, specs, runs, clock) == RecoverRows(RecoverRows(db, specs, runs[..k], clock), specs, runs[k..], clock)
    decreases k
  {
    if k == 0 {
      assert runs[..0] == [] && runs[0..] == runs;
    } else {
      assert runs[..k][0] == runs[0] && runs[..k][1..] == runs[1..][..k - 1] && runs[1..][k - 1..] == runs[k..];
      RecoverRowsSplit(RecoverRow(db, specs, runs[0], clock(runs[0].id)), specs, runs[1..], k - 1, clock);
    }
  }

  /** Two pages that list the same matching rows in the order of their ids are the same. */
  lemma {:induction false} SameRunsSameList(a: seq<Run>, b: seq<Run>)
    requires Ascending(a) && Ascending(b) && (forall r :: r in a <==> r in b)
    ensures a == b
  {
    if a == [] {
      if b != [] { HasFirst(b); }
    } else {
      assert a[0] in b && b != [] && b[0] in a;
      var i :| 0 <= i < |b| && b[i] == a[0];
      var j :| 0 <= j < |a| && a[j] == b[0];
      assert i == 0 && j == 0;
      forall r ensures r in a[1..] <==> r in b[1..] {
        RestOf(a, r);
        RestOf(b, r);
      }
      SameRunsSameList(a[1..], b[1..]);
    }
  }

  lemma HasFirst(a: seq<Run>)
    requires a != []
    ensures exists r :: r in a
  {
    assert a[0] in a;
  }

  lemma RestOf(a: seq<Run>, r: Run)
    requires Ascending(a) && a != []
    ensures r in a[1..] <==> r in a && r != a[0]
  {
    if r in a[1..] {
      var i :| 0 <= i < |a[1..]| && a[1..][i] == r;
      assert a[i + 1] == r;
    }
    if r in a && r != a[0] {
      var i :| 0 <= i < |a| && a[i] == r;
      assert a[1..][i - 1] == r;
    }
  }

  /** A start cut off after any number of settled runs, and then made again from the table it left,
      ends with the table of a start that nothing cut off: the same verdicts, the same reruns under
      the same ids, and no second rerun of any run. */
  lemma RecoverAgain(db: Db, specs: map<string, Spec>, k: nat, clock: nat -> int)
    requires Numbered(db) && k <= |InterruptedRuns(db)|
    ensures var whole := RecoverRows(db, specs, InterruptedRuns(db), clock);
            var cut := RecoverRows(db, specs, InterruptedRuns(db)[..k], clock);
            && RecoverRows(cut, specs, InterruptedRuns(cut), clock) == whole
            && InterruptedRuns(whole) == []
  {
    var runs := InterruptedRuns(db);
    RecoverPrefix(db, specs, k, clock);
    RecoverRowsSplit(db, specs, runs, k, clock);
    LeftToRecover(db, specs, k, clock);
    RecoverPrefix(db, specs, |runs|, clock);
    LeftToRecover(db, specs, |runs|, clock);
    assert runs[..|runs|] == runs && runs[|runs|..] == [];
  }

  lemma LeftToRecover(db: Db, specs: map<string, Spec>, k: nat, clock: nat -> int)
    requires Numbered(db) && k <= |InterruptedRuns(db)|
    ensures InterruptedRuns(RecoverRows(db, specs, InterruptedRuns(db)[..k], clock)) == InterruptedRuns(db)[k..]
  {
    var runs := InterruptedRuns(db);
    var d := RecoverRows(db, specs, runs[..k], clock);
    var left := InterruptedRuns(d);
    RecoverPrefix(db, specs, k, clock);
    InterruptedMeaning(db);
    InterruptedMeaning(d);
    forall r ensures r in left <==> r in runs[k..] {
      StillListed(db, d, runs, k, r);
    }
    SameRunsSameList(left, runs[k..]);
  }

  lemma StillListed(db: Db, d: Db, runs: seq<Run>, k: nat, r: Run)
    requires k <= |runs| && Ascending(runs) && Settled(db, d, runs, k)
    requires forall x :: x in runs <==> IsCutOff(db, x)
    ensures IsCutOff(d, r) <==> r in runs[k..]
  {
    if IsCutOff(d, r) {
      assert IsCutOff(db, r);
      var i :| 0 <= i < |runs| && runs[i] == r;
      assert i >= k && runs[k..][i - k] == r;
    }
    if r in runs[k..] {
      var i :| 0 <= i < |runs[k..]| && runs[k..][i] == r;
      assert runs[k + i] == r && IsCutOff(db, r);
      assert CutOff()(d.rows[r.id]);
    }
  }

  // The verdicts

  /** Whether a start repeats a row that was cut off. */
  predicate Repeatable(specs: map<string, Spec>, r: Row) {
    r.event in specs && specs[r.event].rerun && r.attempt < specs[r.event].maxAttempts && r.readable
  }

  ghost predicate Recoverable(db: Db, runs: seq<Run>) {
    && Numbered(db) && Ascending(runs) && (forall i | 0 <= i < |runs| :: IsCutOff(db, runs[i]))
  }

  /** c is the next attempt of run, waiting in the queue. */
  predicate NextAttempt(c: Row, run: Run) {
    c.retryOf == run.id && c.attempt == run.row.attempt + 1 && c.event == run.row.event && c.status.Queued? && c.notBefore.None?
  }

  lemma OneRecovered(db: Db, specs: map<string, Spec>, run: Run, now: int)
    requires Numbered(db) && IsCutOff(db, run)
    ensures var d := RecoverRow(db, specs, run, now);
            && run.id in d.rows
            && d.rows[run.id].status == (if Repeatable(specs, run.row) then Retried else Abandoned)
            && (Repeatable(specs, run.row) ==>
                  d.nextId == db.nextId + 1 && db.nextId in d.rows && NextAttempt(d.rows[db.nextId], run))
            && (!Repeatable(specs, run.row) ==> d.nextId == db.nextId)
            && (forall id | id in db.rows && id != run.id :: id in d.rows && d.rows[id] == db.rows[id])
            && (forall id | id in d.rows && id != db.nextId :: id in db.rows)
  {
  }

  lemma RestRecoverable(db: Db, specs: map<string, Spec>, runs: seq<Run>, now: int)
    requires runs != [] && Recoverable(db, runs)
    ensures Recoverable(RecoverRow(db, specs, runs[0], now), runs[1..])
  {
    assert IsCutOff(db, runs[0]);
    RecoverRowMeaning(db, specs, runs[0], now);
    forall i | 0 <= i < |runs[1..]| ensures IsCutOff(RecoverRow(db, specs, runs[0], now), runs[1..][i]) {
      assert runs[1..][i] == runs[i + 1] && IsCutOff(db, runs[i + 1]) && runs[0].id < runs[i + 1].id;
    }
  }

  /** Settling runs touches no other row, and adds only rows that repeat one of them. */
  lemma {:induction false} OthersStay(db: Db, specs: map<string, Spec>, runs: seq<Run>, clock: nat -> int, id: nat)
    requires Recoverable(db, runs) && forall i | 0 <= i < |runs| :: runs[i].id != id
    ensures var d := RecoverRows(db, specs, runs, clock);
            && (id in db.rows ==> id in d.rows && d.rows[id] == db.rows[id])
            && (id in d.rows && id !in db.rows ==>
                  id >= db.nextId && exists i :: 0 <= i < |runs| && d.rows[id].retryOf == runs[i].id)
    decreases |runs|
  {
    if runs != [] {
      var now := clock(runs[0].id);
      var d1 := RecoverRow(db, specs, runs[0], now);
      assert IsCutOff(db, runs[0]);
      OneRecovered(db, specs, runs[0], now);
      RestRecoverable(db, specs, runs, now);
      OthersStay(d1, specs, runs[1..], clock, id);
      var d := RecoverRows(d1, specs, runs[1..], clock);
      if id in d.rows && id !in d1.rows {
        var i :| 0 <= i < |runs[1..]| && d.rows[id].retryOf == runs[1..][i].id;
        assert runs[1..][i] == runs[i + 1];
      }
    }
  }

  /** Each run that a start finds cut off is retried, and has its next attempt queued, exactly when the
      config repeats it; otherwise it is abandoned. */
  lemma {:induction false} RecoverVerdicts(db: Db, specs: map<string, Spec>, runs: seq<Run>, clock: nat -> int, i: nat)
    requires Recoverable(db, runs) && i < |runs|
    requires forall c | c in db.rows :: db.rows[c].retryOf != runs[i].id
    ensures var d := RecoverRows(db, specs, runs, clock);
            && runs[i].id in d.rows
            && d.rows[runs[i].id].status == (if Repeatable(specs, runs[i].row) then Retried else Abandoned)
            && (Repeatable(specs, runs[i].row) <==> exists c :: c in d.rows && NextAttempt(d.rows[c], runs[i]))
    decreases |runs|
  {
    var now := clock(runs[0].id);
    var d1 := RecoverRow(db, specs, runs[0], now);
    var d := RecoverRows(d1, specs, runs[1..], clock);
    assert IsCutOff(db, runs[0]) && IsCutOff(db, runs[i]);
    OneRecovered(db, specs, runs[0], now);
    RestRecoverable(db, specs, runs, now);
    if i == 0 {
      FirstVerdict(d1, specs, runs, clock, db.nextId);
    } else {
      assert runs[1..][i - 1] == runs[i] && runs[0].id < runs[i].id;
      RecoverVerdicts(d1, specs, runs[1..], clock, i - 1);
    }
  }

  lemma FirstVerdict(d1: Db, specs: map<string, Spec>, runs: seq<Run>, clock: nat -> int, n: nat)
    requires runs != [] && Ascending(runs) && Recoverable(d1, runs[1..]) && runs[0].id in d1.rows && runs[0].id < n
    requires forall i | 0 <= i < |runs| :: runs[i].id < n
    requires forall c | c in d1.rows && c != n :: d1.rows[c].retryOf != runs[0].id
    requires n in d1.rows <==> n < d1.nextId
    ensures var d := RecoverRows(d1, specs, runs[1..], clock);
            && runs[0].id in d.rows && d.rows[runs[0].id] == d1.rows[runs[0].id]
            && (n in d1.rows ==> n in d.rows && d.rows[n] == d1.rows[n])
            && (n !in d1.rows ==> forall c | c in d.rows :: d.rows[c].retryOf != runs[0].id)
  {
    forall i | 0 <= i < |runs[1..]| ensures runs[0].id < runs[1..][i].id < n {
      assert runs[1..][i] == runs[i + 1];
    }
    OthersStay(d1, specs, runs[1..], clock, runs[0].id);
    OthersStay(d1, specs, runs[1..], clock, n);
    var d := RecoverRows(d1, specs, runs[1..], clock);
    forall c | c in d.rows && n !in d1.rows ensures d.rows[c].retryOf != runs[0].id {
      RetryOfStays(d1, specs, runs[1..], clock, c);
      if c !in d1.rows {
        assert forall i | 0 <= i < |runs[1..]| :: IsCutOff(d1, runs[1..][i]);
        OthersStay(d1, specs, runs[1..], clock, c);
      }
    }
  }

  lemma {:induction false} RetryOfStays(db: Db, specs: map<string, Spec>, runs: seq<Run>, clock: nat -> int, id: nat)
    ensures var d := RecoverRows(db, specs, runs, clock);
            Numbered(db) && id in db.rows ==> id in d.rows && d.rows[id].retryOf == db.rows[id].retryOf
    decreases |runs|
  {
    if runs != [] {
      RetryOfStays(RecoverRow(db, specs, runs[0], clock(runs[0].id)), specs, runs[1..], clock, id);
    }
  }
}
