/** Concrete runs of the protocol with its loop that show which conditions of the general results are
    needed. In all of them the job is under the queue policy, and kickd event keeps to its limit. */
module Traces {
  import opened Tally
  import opened Queue
  import opened Dispatch
  import opened Protocol
  import opened Chains
  import opened Backlog
  import opened AfterOnce
  import opened Refinement
  import opened Looping
  import opened Fifo

  const JOB: Spec := Spec("job", PolicyQueue, RestartNever, 1_000_000_000, 60_000_000_000, true, 2, [])

  const DONE: Result := Result(0, "", "", 0)
  const CUT: Result := Result(-1, "canceled", "shutdown", 0)

  const JOB_RUN: Row := Row("job", Outside, 0, true, 1, 0, None, Queued, "", 0, false, false, None)

  /** The dispatcher without a run, and with run id in progress. */
  function Idle(stop: bool): Mem {
    Mem(map["job" := JOB], map[], map[], map[], map[], {}, map[], map[], stop)
  }

  function BusyWith(id: nat, stop: bool): Mem {
    Mem(map["job" := JOB], map[], map["job" := 1], map["job" := Active(id, 0, false)], map[id := None], {}, map[id := "job"],
        map[], stop)
  }

  predicate Keeps(m: Move) {
    m.Step? ==> KeepsQueue(m.l, "job")
  }

  ghost predicate ReachedBy(n: Node, ms: seq<Move>) {
    Course(Outset(0), ms) && Reach(Outset(0), ms) == n && forall m | m in ms :: Keeps(m)
  }

  ghost predicate Reached(n: Node) {
    exists ms :: ReachedBy(n, ms)
  }

  lemma ReachedMore(n: Node, m: Move)
    requires Reached(n) && Permits(n, m) && Keeps(m)
    ensures Reached(Go(n, m))
  {
    var ms :| ReachedBy(n, ms);
    OneMoreMove(Outset(0), ms, m);
    assert ReachedBy(Go(n, m), ms + [m]);
  }

  lemma ReachedInv(n: Node)
    requires Reached(n)
    ensures Inv(n.s)
  {
    var ms :| ReachedBy(n, ms);
    InitialInv(0);
    MovesAreRun(Outset(0), ms);
    RunInv(Initial(0), Labels(Outset(0), ms));
  }

  // The job waits

  lemma JobConfig()
    ensures SpecMap([JOB]) == map["job" := JOB] && FollowMap([JOB]) == map[]
  {
    var specs := [JOB];
    assert specs[..0] == [] && specs[..|specs| - 1] == [];
    assert FollowMap(specs) == AddAfter(FollowMap([]), "job", []);
  }

  function Jobs(k: nat): map<nat, Row> {
    if k == 0 then map[] else Jobs(k - 1)[k := JOB_RUN]
  }

  lemma {:induction false} JobsAre(k: nat)
    ensures forall id :: id in Jobs(k) <==> 1 <= id <= k
    ensures forall id | id in Jobs(k) :: Jobs(k)[id] == JOB_RUN
    ensures CountQueued(Db(Jobs(k), k + 1), "job") == k && CountCutOff(Db(Jobs(k), k + 1), "job") == 0
  {
    if k > 0 {
      JobsAre(k - 1);
      SumPush(Jobs(k - 1), k, IsQueuedOf("job"), JOB_RUN);
      SumPush(Jobs(k - 1), k, CutOffOf("job"), JOB_RUN);
    } else {
      assert Sum(Jobs(0), 0, IsQueuedOf("job")) == 0 && Sum(Jobs(0), 0, CutOffOf("job")) == 0;
    }
  }

  /** The agent waits, and k firings of the job are queued. */
  ghost predicate Waits(n: Node, k: nat) {
    && n.s.phase.Up? && n.s.w == World(Db(Jobs(k), k + 1), Idle(false)) && n.s.starts == [] && n.s.now == 0
    && n.s.finishing == {} && n.at.Away? && n.ends == map[]
  }

  lemma {:induction false} JobsQueued(k: nat) returns (n: Node)
    requires k < MAX_QUEUED_PER_EVENT
    ensures Reached(n) && Waits(n, k)
  {
    if k == 0 {
      JobConfig();
      n := Booted([JOB]);
    } else {
      var n0 := JobsQueued(k - 1);
      var m := Step(CliEnqueue("job", true, MAX_QUEUED_PER_EVENT));
      JobsAre(k - 1);
      ReachedMore(n0, m);
      n := Go(n0, m);
    }
  }

  /** The agent starts with an empty table. */
  lemma Booted(specs: seq<Spec>) returns (n: Node)
    requires KeepsQueue(Boot(specs), "job")
    ensures Reached(n) && n.s.phase.Up? && n.s.w == World(EMPTY, Configured(IDLE, specs)) && n.s.starts == []
    ensures n.s.now == 0 && n.s.finishing == {} && n.at.Away? && n.ends == map[]
  {
    n := Outset(0);
    assert ReachedBy(n, []);
    ReachedMore(n, Step(Boot(specs)));
    n := Go(n, Step(Boot(specs)));
    assert InterruptedRuns(EMPTY) == [];
    ReachedMore(n, Step(EnterLoop));
    n := Go(n, Step(EnterLoop));
  }

  // The loop comes to a scan

  function JobRuns(lo: nat, hi: nat): seq<Run>
    decreases hi - lo
  {
    if lo >= hi then [] else [Run(lo, JOB_RUN)] + JobRuns(lo + 1, hi)
  }

  lemma {:induction false} JobsSelected(k: nat, lo: nat, limit: nat)
    requires 1 <= lo <= k + 1 && limit >= k + 1 - lo
    ensures Select(Jobs(k), lo, k + 1, DueOutside(0, {}), limit) == JobRuns(lo, k + 1)
    decreases k + 1 - lo
  {
    JobsAre(k);
    if lo <= k {
      JobsSelected(k, lo + 1, limit - 1);
      assert DueOutside(0, {})(JOB_RUN);
    }
  }

  lemma {:induction false} NothingSelected(rows: map<nat, Row>, lo: nat, hi: nat, p: Row -> bool, limit: nat)
    requires forall id | id in rows :: !p(rows[id])
    ensures Select(rows, lo, hi, p, limit) == []
    decreases hi - lo
  {
    if lo < hi && limit > 0 { NothingSelected(rows, lo + 1, hi, p, limit); }
  }

  lemma {:induction false} NoneReplaced(mem: Mem, runs: seq<Run>)
    requires forall e :: !HasPolicy(mem, e, PolicyReplace)
    ensures Newest(mem, runs) == map[]
  {
    if runs != [] { NoneReplaced(mem, runs[..|runs| - 1]); }
  }

  /** With nothing to cancel or to hand on, the loop comes to its scan. */
  lemma ScanBegins(n: Node, batch: nat) returns (n': Node)
    requires Reached(n) && n.at.Away? && n.s.phase.Up? && !n.s.w.mem.stopping
    requires forall id | id in n.s.w.db.rows :: !AskedToStop()(n.s.w.db.rows[id]) && !EndedUnfollowed()(n.s.w.db.rows[id])
    ensures Reached(n') && n'.s == n.s.(pending := {}) && n'.ends == n.ends
    ensures var runs := Batch(n.s.w, batch, n.s.now); n'.at == Scanning(runs, Newest(n.s.w.mem, runs), Looking, {})
  {
    var db := n.s.w.db;
    NothingSelected(db.rows, 0, db.nextId, AskedToStop(), db.nextId);
    NothingSelected(db.rows, 0, db.nextId, EndedUnfollowed(), FOLLOW_BATCH);
    ReachedMore(n, Step(ReadCancels));
    var n1 := Go(n, Step(ReadCancels));
    assert n1.s == n.s.(pending := {}) && n1.at == Cancelling([]);
    ReachedMore(n1, ReadEnded);
    var n2 := Go(n1, ReadEnded);
    assert n2.at == Following([], false);
    ReachedMore(n2, ReadWaiting);
    var n3 := Go(n2, ReadWaiting);
    ReachedMore(n3, Query(batch));
    var n4 := Go(n3, Query(batch));
    ReachedMore(n4, ReadNewest);
    n' := Go(n4, ReadNewest);
  }

  /** k waiting jobs, all in one batch. */
  lemma JobsScanned(k: nat) returns (n: Node)
    requires k < 500
    ensures Reached(n) && n.s.phase.Up? && n.s.w == World(Db(Jobs(k), k + 1), Idle(false)) && n.s.starts == [] && n.s.now == 0
    ensures n.s.finishing == {} && n.at == Scanning(JobRuns(1, k + 1), map[], Looking, {}) && n.ends == map[]
  {
    var n0 := JobsQueued(k);
    JobsAre(k);
    n := ScanBegins(n0, 500);
    var db := n0.s.w.db;
    assert Waiting(Idle(false)) == {};
    assert Batch(n0.s.w, 500, 0) == Select(Jobs(k), 0, k + 1, DueOutside(0, {}), 500);
    JobsSelected(k, 1, 500);
    NoneReplaced(Idle(false), JobRuns(1, k + 1));
  }

  // The scan and its rows

  /** Only row id is changed. */
  ghost predicate Touches(db: Db, db': Db, id: nat, status: Status) {
    && db'.nextId == db.nextId && db'.rows.Keys == db.rows.Keys && id in db.rows
    && SameFiring(db.rows[id], db'.rows[id]) && db'.rows[id].status == status
    && (forall x | x in db.rows && x != id :: db'.rows[x] == db.rows[x])
  }

  /** What the steps below leave alone. */
  ghost predicate Along(n: Node, n': Node) {
    n.s.phase.Up? && n'.s.phase.Up? && n'.s.now == n.s.now && n'.s.finishing == n.s.finishing && n'.s.pending == n.s.pending
  }

  /** The loop passes the shutdown check. */
  lemma Passes(n: Node) returns (n': Node)
    requires Reached(n) && n.s.phase.Up? && !n.s.w.mem.stopping && AtRow(n.at, Looking) && n.at.newest == map[]
    ensures Reached(n') && n'.s == n.s.(armed := true) && n'.at == n.at.(stage := Deciding)
  {
    ReachedMore(n, Step(Check));
    n' := Go(n, Step(Check));
  }

  lemma Starts(n: Node, id: nat, stop: bool) returns (n': Node)
    requires Reached(n) && n.s.phase.Up? && n.s.armed && n.s.w.mem == Idle(stop)
    requires AtRow(n.at, Deciding) && n.at.rest[0] == Run(id, JOB_RUN)
    requires IsQueued(n.s.w.db, id) && n.s.w.db.rows[id].event == "job"
    ensures Reached(n') && Along(n, n') && n'.s.starts == n.s.starts + [id] && n'.at == NextRow(n.at)
    ensures n'.s.w.mem == BusyWith(id, stop) && Touches(n.s.w.db, n'.s.w.db, id, Running) && id !in n'.s.finishing
  {
    ReachedInv(n);
    StartApplied(n.s, id);
    ReachedMore(n, Step(Start(id)));
    n' := Go(n, Step(Start(id)));
    StartKeeps(n.s, id);
  }

  lemma StartKeeps(s: State, id: nat)
    requires Enabled(s, Start(id))
    ensures Apply(s, Start(id)).pending == s.pending
  {
  }

  /** The job of row id stays behind while another one runs. */
  lemma Holds(n: Node, id: nat, other: nat) returns (n': Node)
    requires Reached(n) && n.s.phase.Up? && n.s.w.mem == BusyWith(other, false) && AtRow(n.at, Looking) && n.at.newest == map[]
    requires n.at.rest[0] == Run(id, JOB_RUN)
    ensures Reached(n') && n'.s == n.s.(armed := true)
    ensures n'.at == Scanning(n.at.rest[1..], map[], Looking, n.at.held + {id})
  {
    var n1 := Passes(n);
    ReachedMore(n1, Decide);
    n' := Go(n1, Decide);
  }

  /** The outcome of run id is written, outside of the loop. */
  lemma RowEnds(n: Node, id: nat, res: Result) returns (n': Node)
    requires Reached(n) && n.s.phase.Up? && id in n.s.w.mem.runInfo && id !in n.s.finishing
    requires id in n.s.w.db.rows && n.s.w.db.rows[id].readable && !(n.at.Scanning? && n.at.stage.Failing?)
    requires Outcome(res).Interrupted? ==> n.s.w.mem.stopping
    ensures Reached(n') && n'.at == n.at && n'.s.phase.Up? && n'.s.now == n.s.now && n'.s.starts == n.s.starts
    ensures n'.s.pending == n.s.pending && n'.s.armed == n.s.armed && n'.s.finishing == n.s.finishing + {id}
    ensures n'.s.w == RowFinished(n.s.w, id, res, n.s.now)
  {
    ReachedMore(n, Step(FinishRow(id, res)));
    n' := Go(n, Step(FinishRow(id, res)));
  }

  /** Run id ends, outside of the loop. */
  lemma Ends(n: Node, id: nat, res: Result, stop: bool) returns (n': Node)
    requires Reached(n) && n.s.phase.Up? && n.s.w.mem == BusyWith(id, stop) && id !in n.s.finishing
    requires id in n.s.w.db.rows && n.s.w.db.rows[id].readable && !(n.at.Scanning? && n.at.stage.Failing?)
    requires Outcome(res).Interrupted? ==> stop
    ensures Reached(n') && Along(n, n') && n'.s.starts == n.s.starts && n'.at == n.at && n'.s.armed == n.s.armed
    ensures n'.s.w.mem == Idle(stop) && Touches(n.s.w.db, n'.s.w.db, id, Outcome(res))
  {
    var n1 := RowEnds(n, id, res);
    FinishTouches(n.s.w, id, res, n.s.now);
    ReachedMore(n1, Step(FinishMaps(id)));
    n' := Go(n1, Step(FinishMaps(id)));
    assert MapsFinished(BusyWith(id, stop), id, "job") == Idle(stop);
  }

  lemma FinishTouches(w: World, id: nat, res: Result, now: int)
    requires id in w.db.rows
    ensures Touches(w.db, RowFinished(w, id, res, now).db, id, Outcome(res)) && RowFinished(w, id, res, now).mem == w.mem
  {
  }

  /** k jobs wait, and a scan that has read them starts the first. */
  lemma FirstStarts(k: nat) returns (n: Node)
    requires 1 <= k < 500
    ensures Reached(n) && n.s.phase.Up? && n.s.w.mem == BusyWith(1, false) && n.s.starts == [1] && n.s.finishing == {} && n.s.now == 0
    ensures n.at == Scanning(JobRuns(2, k + 1), map[], Looking, {})
    ensures Touches(Db(Jobs(k), k + 1), n.s.w.db, 1, Running)
  {
    JobsAre(k);
    var n0 := JobsScanned(k);
    var n1 := Passes(n0);
    n := Starts(n1, 1, false);
    assert JobRuns(1, k + 1)[1..] == JobRuns(2, k + 1);
  }

  // The order of the starts

  /** A scan with rows 1, 2 and 3: it starts run 1, leaves row 2 behind, run 1 ends, and the scan starts run
      3 while row 2 waits. */
  lemma OvertakingWithinAScan()
    ensures exists n :: Reached(n) && n.s.starts == [1, 3] && IsQueued(n.s.w.db, 2) && !InOrder(n.s, "job")
  {
    var n := FirstStarts(3);
    JobsAre(3);
    assert JobRuns(2, 4) == [Run(2, JOB_RUN), Run(3, JOB_RUN)] by {
      assert JobRuns(3, 4) == [Run(3, JOB_RUN)] + JobRuns(4, 4);
    }
    var n1 := Holds(n, 2, 1);
    var n2 := Ends(n1, 1, DONE, false);
    ThirdStarts(n2);
  }

  lemma ThirdStarts(n: Node)
    requires Reached(n) && n.s.phase.Up? && n.s.w.mem == Idle(false) && n.s.starts == [1]
    requires AtRow(n.at, Looking) && n.at.rest[0] == Run(3, JOB_RUN) && n.at.newest == map[]
    requires {2, 3} <= n.s.w.db.rows.Keys && n.s.w.db.rows[2] == JOB_RUN && n.s.w.db.rows[3] == JOB_RUN
    ensures exists x :: Reached(x) && x.s.starts == [1, 3] && IsQueued(x.s.w.db, 2) && !InOrder(x.s, "job")
  {
    var n1 := Passes(n);
    var n2 := Starts(n1, 3, false);
    Overtook(n2);
  }

  lemma Overtook(n: Node)
    requires Reached(n) && n.s.starts == [1, 3] && IsQueued(n.s.w.db, 2) && {2, 3} <= n.s.w.db.rows.Keys
    requires SameFiring(JOB_RUN, n.s.w.db.rows[2]) && SameFiring(JOB_RUN, n.s.w.db.rows[3])
    ensures !InOrder(n.s, "job")
  {
    assert Recorded(n.s) by { ReachedInv(n); }
    assert Plain(n.s, "job", n.s.starts[1]) && Waiter(n.s, "job", 2);
  }

  // Final statuses

  ghost predicate HasStatus(s: State, id: nat, status: Status) {
    id in s.w.db.rows && s.w.db.rows[id].status == status
  }

  /** A cancel request that was read while the run was running, and is handled after it succeeded,
      turns the final status succeeded into canceled. */
  lemma StaleCancellation()
    ensures exists n :: Reached(n) && Permits(n, Step(CancelOne(1))) && HasStatus(n.s, 1, Succeeded)
                        && HasStatus(Go(n, Step(CancelOne(1))).s, 1, Canceled)
  {
    JobsAre(1);
    var n0 := FirstStarts(1);
    var n1 := ScanEnds(n0);
    var n2 := CancelRead(n1);
    var n3 := Ends(n2, 1, DONE, false);
    ReachedInv(n3);
    CancelIsStale(n3);
  }

  lemma CancelIsStale(n: Node)
    requires n.s.phase.Up? && n.at == Cancelling([1]) && 1 in n.s.pending && n.s.w.mem == Idle(false) && HasStatus(n.s, 1, Succeeded)
    ensures Permits(n, Step(CancelOne(1))) && HasStatus(Go(n, Step(CancelOne(1))).s, 1, Canceled)
  {
  }

  lemma ScanEnds(n: Node) returns (n': Node)
    requires Reached(n) && n.at.Scanning? && n.at.rest == [] && n.at.stage.Looking?
    ensures Reached(n') && n' == n.(at := Away)
  {
    ReachedMore(n, EndScan);
    n' := Go(n, EndScan);
  }

  /** kickd cancel asks run 1 to stop, and processCancels reads the request. */
  lemma CancelRead(n: Node) returns (n': Node)
    requires Reached(n) && n.s.phase.Up? && n.s.w.mem == BusyWith(1, false) && n.at.Away?
    requires n.s.w.db.rows.Keys == {1} && n.s.w.db.nextId == 2 && HasStatus(n.s, 1, Running)
    ensures Reached(n') && n'.s.phase.Up? && n'.s.w.mem == n.s.w.mem && n'.s.finishing == n.s.finishing
    ensures Touches(n.s.w.db, n'.s.w.db, 1, Running) && 1 in n'.s.pending && n'.at == Cancelling([1])
  {
    ReachedMore(n, Step(CliCancel(1)));
    n' := RequestRead(Go(n, Step(CliCancel(1))));
  }

  lemma RequestRead(n: Node) returns (n': Node)
    requires Reached(n) && n.s.phase.Up? && !n.s.w.mem.stopping && n.at.Away?
    requires n.s.w.db.rows.Keys == {1} && n.s.w.db.nextId == 2 && AskedToStop()(n.s.w.db.rows[1])
    ensures Reached(n') && n'.s == n.s.(pending := {1}) && n'.at == Cancelling([1])
  {
    OneRequest(n.s.w.db);
    ReachedMore(n, Step(ReadCancels));
    n' := Go(n, Step(ReadCancels));
    assert Ids([Run(1, n.s.w.db.rows[1])]) == [1];
    assert n'.s.pending == {1};
  }

  lemma OneRequest(db: Db)
    requires db.rows.Keys == {1} && db.nextId == 2 && AskedToStop()(db.rows[1])
    ensures CancelRequests(db) == [Run(1, db.rows[1])]
  {
    assert Select(db.rows, 2, 2, AskedToStop(), 1) == [];
    assert Select(db.rows, 1, 2, AskedToStop(), 2) == [Run(1, db.rows[1])] + Select(db.rows, 2, 2, AskedToStop(), 1);
  }

  // The backlog

  /** n' has the rows of n, and others that wait. */
  ghost predicate MoreWait(db: Db, db': Db) {
    && db'.nextId >= db.nextId
    && (forall id | id in db.rows && id < db.nextId :: id in db'.rows && db'.rows[id] == db.rows[id])
    && (forall id | id in db'.rows && !(id in db.rows && id < db.nextId) :: db'.rows[id].status.Queued?)
  }

  /** kickd event queues one more job. */
  lemma OneMoreJob(n: Node) returns (n': Node)
    requires Reached(n) && CountQueued(n.s.w.db, "job") < MAX_QUEUED_PER_EVENT
    ensures Reached(n') && n'.s.phase == n.s.phase && n'.s.w.mem == n.s.w.mem && n'.at == n.at
    ensures n'.s.w.db == Db(n.s.w.db.rows[n.s.w.db.nextId := JOB_RUN], n.s.w.db.nextId + 1)
    ensures CountQueued(n'.s.w.db, "job") == CountQueued(n.s.w.db, "job") + 1
    ensures CountCutOff(n'.s.w.db, "job") == CountCutOff(n.s.w.db, "job")
    ensures n'.s.now == n.s.now && n'.s.handed == n.s.handed
    ensures n.s.w.db.nextId in n'.s.born && n'.s.born[n.s.w.db.nextId] == JOB_RUN
  {
    var m := Step(CliEnqueue("job", true, MAX_QUEUED_PER_EVENT));
    ReachedMore(n, m);
    n' := Go(n, m);
    JobInserted(n.s.w.db, n.s.now);
  }

  lemma JobInserted(db: Db, now: int)
    requires CountQueued(db, "job") < MAX_QUEUED_PER_EVENT
    ensures var d := Insert(db, Firing("job", Outside, 0, true, None), MAX_QUEUED_PER_EVENT, now);
            && d == Db(db.rows[db.nextId := JOB_RUN], db.nextId + 1)
            && CountQueued(d, "job") == CountQueued(db, "job") + 1 && CountCutOff(d, "job") == CountCutOff(db, "job")
  {
    SumPush(db.rows, db.nextId, IsQueuedOf("job"), JOB_RUN);
    SumPush(db.rows, db.nextId, CutOffOf("job"), JOB_RUN);
  }

  /** kickd event fills the backlog up to its limit. */
  lemma {:induction false} FillBacklog(n: Node, k: nat) returns (n': Node)
    requires Reached(n) && CountQueued(n.s.w.db, "job") == MAX_QUEUED_PER_EVENT - k && k <= MAX_QUEUED_PER_EVENT
    ensures Reached(n') && n'.s.phase == n.s.phase && n'.s.w.mem == n.s.w.mem && n'.at == n.at
    ensures CountQueued(n'.s.w.db, "job") == MAX_QUEUED_PER_EVENT && CountCutOff(n'.s.w.db, "job") == CountCutOff(n.s.w.db, "job")
    ensures MoreWait(n.s.w.db, n'.s.w.db)
    decreases k
  {
    if k == 0 {
      n' := n;
      ReachedInv(n);
    } else {
      ReachedInv(n);
      var n1 := OneMoreJob(n);
      n' := FillBacklog(n1, k - 1);
      StillMoreWait(n.s.w.db, n1.s.w.db, n'.s.w.db);
    }
  }

  lemma StillMoreWait(a: Db, b: Db, c: Db)
    requires b == Db(a.rows[a.nextId := JOB_RUN], a.nextId + 1) && MoreWait(b, c)
    requires forall id | id in a.rows :: id < a.nextId
    ensures MoreWait(a, c)
  {
    forall id | id in c.rows && !(id in a.rows && id < a.nextId) ensures c.rows[id].status.Queued? {
      if id in b.rows && id < b.nextId { assert id == a.nextId && c.rows[id] == b.rows[id]; }
    }
  }

  /** The agent begins to stop between the shutdown check of run 2 and its start, while run 1 ends:
      two runs of a queue-policy event are interrupted at once. With the queue filled up after
      that, its backlog is MAX_QUEUED_PER_EVENT + 2. */
  lemma LateStartReachesBound()
    ensures exists n :: Reached(n) && CountQueued(n.s.w.db, "job") + CountCutOff(n.s.w.db, "job") == MAX_QUEUED_PER_EVENT + 2
  {
    JobsAre(2);
    var n := FirstStarts(2);
    assert JobRuns(2, 3) == [Run(2, JOB_RUN)] + JobRuns(3, 3) == [Run(2, JOB_RUN)];
    var n1 := Passes(n);
    var n2 := Stops(n1, 1);
    var n3 := Ends(n2, 1, CUT, true);
    StartsTooLate(n3);
  }

  lemma StartsTooLate(n: Node)
    requires Reached(n) && n.s.phase.Up? && n.s.armed && n.s.w.mem == Idle(true) && n.s.finishing == {}
    requires AtRow(n.at, Deciding) && n.at.rest == [Run(2, JOB_RUN)]
    requires n.s.w.db.rows.Keys == {1, 2} && n.s.w.db.nextId == 3
    requires n.s.w.db.rows[1].event == "job" && n.s.w.db.rows[1].status.Interrupted? && n.s.w.db.rows[2] == JOB_RUN
    ensures exists x :: Reached(x) && CountQueued(x.s.w.db, "job") + CountCutOff(x.s.w.db, "job") == MAX_QUEUED_PER_EVENT + 2
  {
    var n1 := Starts(n, 2, true);
    var n2 := Ends(n1, 2, CUT, true);
    TwoCutOff(n2.s.w.db);
    var n3 := FillBacklog(n2, MAX_QUEUED_PER_EVENT);
  }

  lemma Stops(n: Node, id: nat) returns (n': Node)
    requires Reached(n) && n.s.phase.Up? && n.s.w.mem == BusyWith(id, false)
    ensures Reached(n') && n'.at == n.at && n'.s == n.s.(w := World(n.s.w.db, BusyWith(id, true)))
  {
    ReachedMore(n, Step(Stop));
    n' := Go(n, Step(Stop));
  }

  lemma TwoCutOff(db: Db)
    requires db.nextId == 3 && db.rows.Keys == {1, 2}
    requires forall id | id in db.rows :: db.rows[id].event == "job" && db.rows[id].status.Interrupted?
    ensures CountQueued(db, "job") == 0 && CountCutOff(db, "job") == 2
  {
    SumPair(db.rows, IsQueuedOf("job"));
    SumPair(db.rows, CutOffOf("job"));
  }

  lemma SumPair(rows: map<nat, Row>, f: Row -> int)
    requires rows.Keys == {1, 2}
    ensures Sum(rows, 3, f) == f(rows[1]) + f(rows[2])
  {
    assert Sum(rows, 1, f) == 0 && Sum(rows, 2, f) == f(rows[1]);
  }

  /** The agent crashes in run 1 while the queue is full, and its next start queues the run again: one more
      run waits than the limit of the event allows. */
  lemma RerunExceedsLimit()
    ensures exists n :: Reached(n) && CountQueued(n.s.w.db, "job") == MAX_QUEUED_PER_EVENT + 1
  {
    JobsAre(1);
    var n := FirstStarts(1);
    assert CountQueued(n.s.w.db, "job") == 0 by { SumOne(n.s.w.db.rows, IsQueuedOf("job")); }
    var n1 := FillBacklog(n, MAX_QUEUED_PER_EVENT);
    var n2 := CrashesAndStarts(n1);
  }

  lemma CrashesAndStarts(n: Node) returns (n': Node)
    requires Reached(n) && n.s.phase.Up? && HasStatus(n.s, 1, Running) && SameFiring(JOB_RUN, n.s.w.db.rows[1])
    requires n.s.w.db.nextId > 1 && forall id | id in n.s.w.db.rows && id != 1 :: n.s.w.db.rows[id].status.Queued?
    ensures Reached(n') && CountQueued(n'.s.w.db, "job") == CountQueued(n.s.w.db, "job") + 1
  {
    var run := Run(1, n.s.w.db.rows[1]);
    OneCutOff(n.s.w.db, run);
    var n1 := CrashesAndBoots(n);
    ReachedMore(n1, Step(RecoverOne));
    n' := Go(n1, Step(RecoverOne));
    RerunCounts(n.s.w.db, run, n.s.now);
  }

  lemma CrashesAndBoots(n: Node) returns (n': Node)
    requires Reached(n) && n.s.phase.Up?
    ensures Reached(n') && n'.s.w.db == n.s.w.db && n'.s.w.mem.specs == map["job" := JOB] && n'.s.now == n.s.now
    ensures n'.s.phase == Recovering(InterruptedRuns(n.s.w.db))
  {
    JobConfig();
    ReachedMore(n, Step(Crash));
    var n1 := Go(n, Step(Crash));
    ReachedMore(n1, Step(Boot([JOB])));
    n' := Go(n1, Step(Boot([JOB])));
  }

  lemma RerunCounts(db: Db, run: Run, now: int)
    requires run.id in db.rows && db.rows[run.id] == run.row && run.id < db.nextId && run.row.status.Running?
    requires SameFiring(JOB_RUN, run.row)
    ensures CountQueued(RecoverRow(db, map["job" := JOB], run, now), "job") == CountQueued(db, "job") + 1
  {
    var d := RecoverRow(db, map["job" := JOB], run, now);
    assert d.rows == db.rows[db.nextId := d.rows[db.nextId]][run.id := d.rows[run.id]];
    SumPushPut(db.rows, db.nextId, IsQueuedOf("job"), d.rows[db.nextId], run.id, d.rows[run.id]);
  }

  lemma OneCutOff(db: Db, run: Run)
    requires run.id in db.rows && db.rows[run.id] == run.row && CutOff()(run.row) && run.id < db.nextId
    requires forall id | id in db.rows && id != run.id :: !CutOff()(db.rows[id])
    ensures InterruptedRuns(db) != [] && InterruptedRuns(db)[0] == run
  {
    SelectMeaning(db.rows, 0, db.nextId, CutOff(), db.nextId);
    SelectAll(db.rows, 0, db.nextId, CutOff(), db.nextId);
    assert run in InterruptedRuns(db);
  }

  // After triggers

  /** next follows the job when it is canceled. */
  const NEXT: Spec := Spec("next", PolicyParallel, RestartNever, 0, 0, false, 1, [AfterTrigger("job", [Canceled])])

  /** A run that is canceled while the agent is down, and pruned when the agent starts, is never handed on,
      although an after trigger lists its status. */
  lemma CanceledAndPruned()
    ensures exists n :: Reached(n) && n.s.phase.Up? && Follower("next", [Canceled]) in Followers(n.s.w.mem.follows, "job")
                        && 1 in n.s.born && n.s.born[1].event == "job" && 1 !in n.s.w.db.rows && 1 !in n.s.handed
  {
    var n := Outset(0);
    assert ReachedBy(n, []);
    var n1 := CanceledWhileDown(n);
    NextFollows();
    var n2 := BootedWith(n1, [JOB, NEXT]);
    var n3 := Pruned(n2);
  }

  lemma Pruned(n: Node) returns (n': Node)
    requires Reached(n) && n.s.phase.Up? && n.at.Away? && n.s.now == 1_000_000
    requires 1 in n.s.w.db.rows && n.s.w.db.rows[1].status.Canceled? && n.s.w.db.rows[1].finishedAt == Some(0)
    ensures Reached(n') && n'.s.phase.Up? && n'.s.w.mem == n.s.w.mem && n'.s.handed == n.s.handed
    ensures 1 !in n'.s.w.db.rows && forall id | id in n.s.born :: id in n'.s.born && n'.s.born[id] == n.s.born[id]
  {
    ReachedMore(n, Step(Prune(1)));
    n' := Go(n, Step(Prune(1)));
    ReachedInv(n);
    forall id | id in n.s.born ensures id in n'.s.born && n'.s.born[id] == n.s.born[id] { StepBornRow(n.s, Prune(1), id); }
  }

  lemma NextFollows()
    ensures KeepsQueue(Boot([JOB, NEXT]), "job")
    ensures Followers(FollowMap([JOB, NEXT]), "job") == [Follower("next", [Canceled])]
  {
    JobConfig();
    var specs := [JOB, NEXT];
    assert specs[..|specs| - 1] == [JOB];
    assert SpecMap(specs) == SpecMap([JOB])["next" := NEXT];
    var after := NEXT.after;
    assert after[..|after| - 1] == [];
    assert FollowMap(specs) == AddAfter(map[], "next", after);
    assert AddAfter(map[], "next", after) == AddAfter(map[], "next", [])["job" := [] + [Follower("next", [Canceled])]];
  }

  /** The job is fired and canceled, and a millisecond passes. */
  lemma CanceledWhileDown(n: Node) returns (n': Node)
    requires Reached(n) && n == Outset(0)
    ensures Reached(n') && n'.s.phase.Down? && n'.s.now == 1_000_000 && n'.at.Away? && n'.s.handed == map[]
    ensures n'.s.w.db.rows.Keys == {1} && n'.s.w.db.nextId == 2 && 1 in n'.s.born && n'.s.born[1].event == "job"
    ensures n'.s.w.db.rows[1].status.Canceled? && n'.s.w.db.rows[1].finishedAt == Some(0)
  {
    assert CountQueued(EMPTY, "job") == 0 by { assert Sum(EMPTY.rows, 0, IsQueuedOf("job")) == 0; }
    var n1 := OneMoreJob(n);
    ReachedInv(n1);
    assert n1.s.phase.Down?;
    n' := CancelAndWait(n1);
  }

  lemma CancelAndWait(n: Node) returns (n': Node)
    requires Reached(n) && n.s.w.db == Db(map[1 := JOB_RUN], 2) && n.s.phase.Down? && n.s.now == 0
    ensures Reached(n') && n'.s.phase.Down? && n'.s.now == 1_000_000 && n'.at == n.at && n'.s.handed == n.s.handed
    ensures n'.s.w.db.rows.Keys == {1} && n'.s.w.db.nextId == 2
    ensures SameFiring(JOB_RUN, n'.s.w.db.rows[1]) && n'.s.w.db.rows[1].status.Canceled? && n'.s.w.db.rows[1].finishedAt == Some(0)
    ensures 1 in n.s.born ==> 1 in n'.s.born && n'.s.born[1] == n.s.born[1]
  {
    ReachedMore(n, Step(CliCancel(1)));
    var n1 := Go(n, Step(CliCancel(1)));
    n' := TimePasses(n1, 1_000_000);
  }

  lemma TimePasses(n: Node, to: int) returns (n': Node)
    requires Reached(n) && to >= n.s.now
    ensures Reached(n') && n' == n.(s := n.s.(now := to))
  {
    ReachedMore(n, Step(Tick(to)));
    n' := Go(n, Step(Tick(to)));
  }

  lemma BootedWith(n: Node, specs: seq<Spec>) returns (n': Node)
    requires Reached(n) && n.s.phase.Down? && n.at.Away? && KeepsQueue(Boot(specs), "job")
    requires forall id | id in n.s.w.db.rows :: !CutOff()(n.s.w.db.rows[id])
    ensures Reached(n') && n'.s.phase.Up? && n'.at.Away? && n'.s.w == World(n.s.w.db, Configured(IDLE, specs))
    ensures n'.s.now == n.s.now && n'.s.born == n.s.born && n'.s.handed == n.s.handed
  {
    ReachedMore(n, Step(Boot(specs)));
    var n1 := Go(n, Step(Boot(specs)));
    NothingSelected(n.s.w.db.rows, 0, n.s.w.db.nextId, CutOff(), n.s.w.db.nextId);
    ReachedMore(n1, Step(EnterLoop));
    n' := Go(n1, Step(EnterLoop));
  }
}
