/** The agent and the command line over one table, as a machine whose steps are the pieces that run
    under one hold of d.mu or in one statement. Any sequence of enabled labels is a run: the pieces
    of a scan, of a finish and of processCancels interleave with everything else, and the agent can
    crash between any two of them. */
module Protocol {
  import opened Queue
  import opened Dispatch
  import opened Dispatching

  datatype Phase = Down | Recovering(todo: seq<Run>) | Up

  /** armed: a scan passed the shutdown check and has not started a run since. finishing: runs whose
      outcome is written and which the indexes still hold. pending: what processCancels read.
      born, handed and starts are history: the rows as they were inserted, the events that each
      handed run fired, and the runs started, in order. */
  datatype State = State(
    w: World, phase: Phase, armed: bool, finishing: set<nat>, pending: set<nat>, now: int,
    born: map<nat, Row>, handed: map<nat, seq<string>>, starts: seq<nat>)

  datatype Label =
    | Tick(to: int)
      // the command line
    | CliEnqueue(event: string, readable: bool, maxQueued: nat)
    | CliCancel(id: nat)
    | CliCancelEvent(event: string)
      // the start of the agent
    | Boot(specs: seq<Spec>)
    | RecoverOne
    | EnterLoop
      // triggers and reloads
    | Configure(specs: seq<Spec>)
    | Submit(event: string, readable: bool)
      // the loop of the dispatcher
    | ReadCancels
    | CancelOne(id: nat)
    | Hand(id: nat)
    | SettleRow(id: nat, status: Status, reason: string)
    | CountSkip(event: string, run: nat)
    | AskReplace(event: string)
    | Check
    | Start(id: nat)
    | Prune(before: int)
      // the goroutine of a run
    | FinishRow(id: nat, res: Result)
    | FinishMaps(id: nat)
    | RestartEvent(event: string, status: Status, ran: nat)
      // the end of the agent
    | Stop
    | Crash

  function Initial(now: int): State {
    State(World(EMPTY, IDLE), Down, false, {}, {}, now, map[], map[], [])
  }

  /** Labels that need no agent, or its start. */
  predicate Apart(l: Label) {
    l.Tick? || l.CliEnqueue? || l.CliCancel? || l.CliCancelEvent? || l.Boot? || l.RecoverOne? || l.EnterLoop? || l.Crash?
  }

  predicate Enabled(s: State, l: Label) {
    && (l.Tick? ==> l.to >= s.now)
    && (l.Boot? ==> s.phase.Down?)
    && (l.RecoverOne? ==> s.phase.Recovering? && s.phase.todo != [])
    && (l.EnterLoop? ==> s.phase == Recovering([]))
    && (l.Crash? ==> !s.phase.Down?)
    && (Apart(l) || s.phase.Up?)
    && (l.CancelOne? ==> l.id in s.pending)
    && (l.Hand? ==> l.id in s.w.db.rows && EndedUnfollowed()(s.w.db.rows[l.id]))
    && (l.SettleRow? ==> l.status.Skipped? || l.status.Dropped?)
    && (l.Check? ==> !s.w.mem.stopping)
    && (l.Start? ==> s.armed && l.id in s.w.db.rows && MayStart(s.w, s.w.db.rows[l.id].event))
    && (l.Prune? ==> l.before <= Ms(s.now))
    && (l.FinishRow? ==> l.id in s.w.mem.runInfo && l.id !in s.finishing && (Outcome(l.res).Interrupted? ==> s.w.mem.stopping))
    && (l.FinishMaps? ==> l.id in s.finishing)
  }

  /** What schedule checks under d.mu before it starts a run of event. */
  predicate MayStart(w: World, event: string) {
    event in w.mem.specs && (w.mem.specs[event].policy.PolicyParallel? || Count(w.mem, event) == 0)
  }

  function NewRows(db: Db, db': Db): map<nat, Row> {
    map id | id in db'.rows && id >= db.nextId :: db'.rows[id]
  }

  function Moved(s: State, w: World): State {
    s.(w := w, born := s.born + NewRows(s.w.db, w.db))
  }

  function Stored(s: State, db: Db): State { Moved(s, s.w.(db := db)) }

  function Apply(s: State, l: Label): State
    requires Enabled(s, l)
  {
    var db, mem := s.w.db, s.w.mem;
    match l
    case Tick(to) => s.(now := to)
    case CliEnqueue(event, readable, maxQueued) =>
      Stored(s, Insert(db, Firing(event, Outside, 0, readable, None), maxQueued, s.now))
    case CliCancel(id) => Stored(s, RequestCancel(db, id, s.now))
    case CliCancelEvent(event) => Stored(s, RequestCancelEvent(db, event, s.now))
    case Boot(specs) => s.(w := World(db, Configured(IDLE, specs)), phase := Recovering(InterruptedRuns(db)))
    case RecoverOne =>
      Stored(s, RecoverRow(db, mem.specs, s.phase.todo[0], s.now)).(phase := Recovering(s.phase.todo[1..]))
    case EnterLoop => s.(phase := Up)
    case Configure(specs) => s.(w := World(db, Configured(mem, specs)))
    case Submit(event, readable) => Moved(s, Submitted(s.w, event, readable, s.now))
    case ReadCancels => s.(pending := set r | r in CancelRequests(db) :: r.id)
    case CancelOne(id) => Moved(s, CancelHandled(s.w, id, s.now)).(pending := s.pending - {id})
    case Hand(id) =>
      Moved(s, Handed(s.w, Run(id, db.rows[id]), s.now)).(handed := s.handed[id := FiredBy(mem, db.rows[id])])
    case SettleRow(id, status, reason) => Stored(s, Settle(db, id, status, reason, s.now))
    case CountSkip(event, run) => Moved(s, CountedOn(s.w, event, run))
    case AskReplace(event) => s.(w := World(db, ReplaceAsked(mem, event)))
    case Check => s.(armed := true)
    case Start(id) =>
      if !IsQueued(db, id) then s.(armed := false)
      else
        var event := db.rows[id].event;
        Moved(s, Started(s.w, id, event, mem.specs[event].policy)).(armed := false, starts := s.starts + [id])
    case Prune(before) => Stored(s, Queue.Prune(db, before))
    case FinishRow(id, res) => Moved(s, RowFinished(s.w, id, res, s.now)).(finishing := s.finishing + {id})
    case FinishMaps(id) =>
      if id !in mem.runInfo then s
      else s.(w := World(db, MapsFinished(mem, id, mem.runInfo[id])), finishing := s.finishing - {id})
    case RestartEvent(event, status, ran) => Moved(s, Restarted(s.w, event, status, ran, s.now))
    case Stop => s.(w := World(db, mem.(stopping := true)))
    case Crash => s.(w := World(db, IDLE), phase := Down, armed := false, finishing := {}, pending := {})
  }

  // Runs

  ghost predicate Runs(s: State, ls: seq<Label>)
    decreases |ls|
  {
    ls == [] || (Enabled(s, ls[0]) && Runs(Apply(s, ls[0]), ls[1..]))
  }

  function Exec(s: State, ls: seq<Label>): State
    requires Runs(s, ls)
    decreases |ls|
  {
    if ls == [] then s else Exec(Apply(s, ls[0]), ls[1..])
  }

  // The table

  /** Ids are never given twice, and what fired a run is never rewritten. */
  ghost predicate Extends(db: Db, db': Db) {
    && Numbered(db') && db.nextId <= db'.nextId
    && (forall id | id in db'.rows && id < db.nextId :: id in db.rows && SameFiring(db.rows[id], db'.rows[id]))
    && (forall id | db.nextId <= id < db'.nextId :: id in db'.rows)
  }

  ghost predicate Recorded(s: State) {
    && Numbered(s.w.db)
    && (forall id :: id in s.born <==> 1 <= id < s.w.db.nextId)
    && (forall id | id in s.w.db.rows :: SameFiring(s.w.db.rows[id], s.born[id]))
  }

  lemma MovedRecords(s: State, w: World)
    requires Recorded(s) && Extends(s.w.db, w.db)
    ensures Recorded(Moved(s, w))
  {
  }

  /** A statement that settles no run in progress, and starts none. */
  ghost predicate Aside(db: Db, db': Db) {
    && Extends(db, db')
    && (forall id | id in db'.rows && id < db.nextId ::
          db'.rows[id].status == db.rows[id].status || (db.rows[id].status.Queued? && Final(db'.rows[id].status)))
    && (forall id | id in db.rows :: id in db'.rows || Final(db.rows[id].status))
    && (forall id | id in db'.rows && id >= db.nextId :: db'.rows[id].status.Queued? || db'.rows[id].status.Dropped?)
  }

  lemma InsertAside(db: Db, f: Firing, maxQueued: nat, now: int)
    requires Numbered(db)
    ensures Aside(db, Insert(db, f, maxQueued, now))
  {
  }

  lemma CancelAside(db: Db, id: nat, now: int)
    requires Numbered(db)
    ensures Aside(db, RequestCancel(db, id, now))
  {
  }

  lemma CancelEventAside(db: Db, event: string, now: int)
    requires Numbered(db)
    ensures Aside(db, RequestCancelEvent(db, event, now))
  {
  }

  lemma SettleAside(db: Db, id: nat, status: Status, reason: string, now: int)
    requires Numbered(db) && Final(status)
    ensures Aside(db, Settle(db, id, status, reason, now))
  {
  }

  lemma SkippedAside(db: Db, id: nat)
    requires Numbered(db)
    ensures Aside(db, AddSkipped(db, id)) && Aside(db, db)
  {
  }

  lemma PruneAside(db: Db, before: int)
    requires Numbered(db)
    ensures Aside(db, Queue.Prune(db, before))
  {
  }

  lemma HandAside(w: World, id: nat, now: int)
    requires Numbered(w.db) && id in w.db.rows
    ensures Aside(w.db, Handed(w, Run(id, w.db.rows[id]), now).db)
  {
    HandedMeaning(w, Run(id, w.db.rows[id]), now);
  }

  lemma RestartAside(w: World, event: string, status: Status, ran: nat, now: int)
    requires Numbered(w.db)
    ensures Aside(w.db, Restarted(w, event, status, ran, now).db)
  {
    if Restarts(w.mem, event, status) {
      var spec := w.mem.specs[event];
      var delay := NextDelay(spec, w.mem.restartDelays, event, ran);
      InsertAside(w.db, Firing(event, Restart, 0, true, Some(Ms(now + delay))), MaxQueued(spec), now);
    } else {
      SkippedAside(w.db, 0);
    }
  }

  /** The labels that leave every run in progress alone. */
  predicate SetsAside(l: Label) {
    !l.RecoverOne? && !l.CancelOne? && !l.Start? && !l.FinishRow?
  }

  lemma StepAside(s: State, l: Label)
    requires Numbered(s.w.db) && Enabled(s, l) && SetsAside(l)
    ensures Aside(s.w.db, Apply(s, l).w.db)
  {
    var db, mem := s.w.db, s.w.mem;
    SkippedAside(db, 0);
    if l.CliEnqueue? {
      InsertAside(db, Firing(l.event, Outside, 0, l.readable, None), l.maxQueued, s.now);
    } else if l.CliCancel? {
      CancelAside(db, l.id, s.now);
    } else if l.CliCancelEvent? {
      CancelEventAside(db, l.event, s.now);
    } else if l.Submit? {
      if l.event in mem.specs {
        InsertAside(db, Firing(l.event, Outside, 0, l.readable, None), MaxQueued(mem.specs[l.event]), s.now);
      }
    } else if l.Hand? {
      HandAside(s.w, l.id, s.now);
    } else if l.SettleRow? {
      SettleAside(db, l.id, l.status, l.reason, s.now);
    } else if l.CountSkip? {
      SkippedAside(db, l.run);
    } else if l.RestartEvent? {
      RestartAside(s.w, l.event, l.status, l.ran, s.now);
    } else if l.Prune? {
      PruneAside(db, l.before);
    } else {
      assert Apply(s, l).w.db == db;
    }
  }

  lemma PutExtends(db: Db, id: nat, row: Row)
    requires Numbered(db) && (id in db.rows ==> SameFiring(db.rows[id], row))
    ensures Extends(db, Put(db, id, row))
  {
  }

  lemma StepExtends(s: State, l: Label)
    requires Numbered(s.w.db) && Owned(s) && Enabled(s, l)
    ensures Extends(s.w.db, Apply(s, l).w.db)
  {
    var db := s.w.db;
    if SetsAside(l) {
      StepAside(s, l);
    } else if l.RecoverOne? {
      var run := s.phase.todo[0];
      assert run in s.phase.todo && Waits(db, run);
      RecoverExtends(db, s.w.mem.specs, run, s.now);
    } else if l.CancelOne? {
      CancelExtends(s, l.id);
    } else if l.Start? {
      StartExtends(s, l.id);
    } else {
      FinishRowExtends(s, l.id, l.res);
    }
  }

  lemma CancelExtends(s: State, id: nat)
    requires Numbered(s.w.db) && Enabled(s, CancelOne(id))
    ensures Extends(s.w.db, Apply(s, CancelOne(id)).w.db)
  {
    var db := s.w.db;
    if id in db.rows { PutExtends(db, id, FinishRun(db, id, Canceled, "canceled_by_user", s.now).rows[id]); }
  }

  lemma StartExtends(s: State, id: nat)
    requires Numbered(s.w.db) && Enabled(s, Start(id))
    ensures Extends(s.w.db, Apply(s, Start(id)).w.db)
  {
    PutExtends(s.w.db, id, s.w.db.rows[id].(status := Running));
  }

  lemma FinishRowExtends(s: State, id: nat, res: Result)
    requires Numbered(s.w.db) && Enabled(s, FinishRow(id, res))
    ensures Extends(s.w.db, Apply(s, FinishRow(id, res)).w.db)
  {
    var db := s.w.db;
    if id in db.rows { PutExtends(db, id, FinishRun(db, id, Outcome(res), res.reason, s.now).rows[id]); }
  }

  lemma RecoverExtends(db: Db, specs: map<string, Spec>, run: Run, now: int)
    requires Numbered(db) && run.id in db.rows && SameFiring(db.rows[run.id], run.row)
    ensures Extends(db, RecoverRow(db, specs, run, now))
  {
  }

  lemma StepRecords(s: State, l: Label)
    requires Recorded(s) && Owned(s) && Enabled(s, l)
    ensures Recorded(Apply(s, l)) && Extends(s.w.db, Apply(s, l).w.db)
  {
    StepExtends(s, l);
    StepBorn(s, l);
    MovedRecords(s, Apply(s, l).w);
  }

  lemma StepBorn(s: State, l: Label)
    requires Numbered(s.w.db) && Enabled(s, l)
    ensures Apply(s, l).born == Moved(s, Apply(s, l).w).born
  {
    NoNewRows(s.w.db);
    if l.CliEnqueue? || l.CliCancel? || l.CliCancelEvent? || l.RecoverOne? || l.SettleRow? || l.Prune? {
      StoredBorn(s, l);
    } else if l.Start? {
      StartBorn(s, l.id);
    } else if l.Submit? || l.CancelOne? || l.Hand? || l.CountSkip? || l.FinishRow? || l.RestartEvent? {
      MovedBorn(s, l);
    } else {
      assert Apply(s, l).w.db == s.w.db && Apply(s, l).born == s.born;
    }
  }

  lemma MovedBorn(s: State, l: Label)
    requires Enabled(s, l)
    requires l.Submit? || l.CancelOne? || l.Hand? || l.CountSkip? || l.FinishRow? || l.RestartEvent?
    ensures Apply(s, l).born == Moved(s, Apply(s, l).w).born
  {
  }

  lemma StoredBorn(s: State, l: Label)
    requires Enabled(s, l)
    requires l.CliEnqueue? || l.CliCancel? || l.CliCancelEvent? || l.RecoverOne? || l.SettleRow? || l.Prune?
    ensures Apply(s, l).born == Moved(s, Apply(s, l).w).born
  {
  }

  lemma StartBorn(s: State, id: nat)
    requires Numbered(s.w.db) && Enabled(s, Start(id))
    ensures Apply(s, Start(id)).born == Moved(s, Apply(s, Start(id)).w).born
  {
    NoNewRows(s.w.db);
  }

  lemma NoNewRows(db: Db)
    requires Numbered(db)
    ensures NewRows(db, db) == map[]
  {
  }

  // The indexes of the dispatcher

  function Of(mem: Mem, event: string): set<nat> {
    set id | id in mem.runInfo && mem.runInfo[id] == event
  }

  /** cancels, cancelSent, runInfo, running and active tell the same story. */
  ghost predicate Indexed(mem: Mem) {
    && mem.cancels.Keys == mem.runInfo.Keys
    && mem.cancelSent <= mem.runInfo.Keys
    && (forall e :: Count(mem, e) == |Of(mem, e)|)
    && (forall e | e in mem.running :: mem.running[e] > 0)
    && (forall e | e in mem.active :: mem.active[e].runId in Of(mem, e))
  }

  lemma RegisteredCount(mem: Mem, id: nat, event: string, policy: Policy, e: string)
    requires Count(mem, e) == |Of(mem, e)| && id !in mem.runInfo
    ensures Count(Registered(mem, id, event, policy), e) == |Of(Registered(mem, id, event, policy), e)|
  {
    assert Of(Registered(mem, id, event, policy), e) == if e == event then Of(mem, e) + {id} else Of(mem, e);
  }

  lemma RegisteredIndexed(mem: Mem, id: nat, event: string, policy: Policy)
    requires Indexed(mem) && id !in mem.runInfo
    ensures Indexed(Registered(mem, id, event, policy))
  {
    var m := Registered(mem, id, event, policy);
    forall e ensures Count(m, e) == |Of(m, e)| {
      RegisteredCount(mem, id, event, policy, e);
    }
    assert m.cancels.Keys == m.runInfo.Keys;
    forall e | e in m.active ensures m.active[e].runId in Of(m, e) {
      if e in mem.active { assert mem.active[e].runId in Of(mem, e); }
    }
  }

  lemma MapsFinishedCount(mem: Mem, id: nat, e: string)
    requires Count(mem, e) == |Of(mem, e)| && id in mem.runInfo
    ensures Count(MapsFinished(mem, id, mem.runInfo[id]), e) == |Of(MapsFinished(mem, id, mem.runInfo[id]), e)|
  {
    var event := mem.runInfo[id];
    assert id in Of(mem, event);
    assert Of(MapsFinished(mem, id, event), e) == if e == event then Of(mem, e) - {id} else Of(mem, e);
  }

  lemma MapsFinishedIndexed(mem: Mem, id: nat)
    requires Indexed(mem) && id in mem.runInfo
    ensures Indexed(MapsFinished(mem, id, mem.runInfo[id]))
  {
    var m := MapsFinished(mem, id, mem.runInfo[id]);
    forall e ensures Count(m, e) == |Of(m, e)| {
      MapsFinishedCount(mem, id, e);
    }
    assert m.cancels.Keys == m.runInfo.Keys;
    forall e | e in m.active ensures m.active[e].runId in Of(m, e) {
      assert mem.active[e].runId in Of(mem, e);
    }
  }

  ghost predicate SameRuns(mem: Mem, m: Mem) {
    && m.running == mem.running && m.runInfo == mem.runInfo && m.cancels.Keys == mem.cancels.Keys
    && m.cancelSent <= m.runInfo.Keys && m.active.Keys == mem.active.Keys
    && (forall e | e in m.active :: m.active[e].runId == mem.active[e].runId)
  }

  lemma SameRunsIndexed(mem: Mem, m: Mem)
    requires Indexed(mem)
    requires SameRuns(mem, m)
    ensures Indexed(m)
  {
    forall e ensures Count(m, e) == |Of(m, e)| {
      assert Of(m, e) == Of(mem, e);
    }
    forall e | e in m.active ensures m.active[e].runId in Of(m, e) {
      assert mem.active[e].runId in Of(mem, e);
    }
  }

  lemma IdleIndexed(mem: Mem)
    requires mem.running == map[] && mem.runInfo == map[] && mem.active == map[] && mem.cancels == map[] && mem.cancelSent == {}
    ensures Indexed(mem)
  {
    forall e ensures Count(mem, e) == |Of(mem, e)| {
      assert Of(mem, e) == {};
    }
  }

  lemma StepIndexed(s: State, l: Label)
    requires Indexed(s.w.mem) && Owned(s) && Enabled(s, l)
    ensures Indexed(Apply(s, l).w.mem)
  {
    var mem := s.w.mem;
    if l.Start? {
      if IsQueued(s.w.db, l.id) {
        var event := s.w.db.rows[l.id].event;
        assert OwnedRow(s, l.id);
        RegisteredIndexed(mem, l.id, event, mem.specs[event].policy);
      }
    } else if l.FinishMaps? {
      if l.id in mem.runInfo {
        MapsFinishedIndexed(mem, l.id);
      }
    } else if l.Boot? || l.Crash? {
      IdleIndexed(Apply(s, l).w.mem);
    } else {
      StepSameRuns(s, l);
      SameRunsIndexed(mem, Apply(s, l).w.mem);
    }
  }

  /** Which runs are in progress changes only where a run starts or ends. */
  lemma StepSameRuns(s: State, l: Label)
    requires s.w.mem.cancels.Keys == s.w.mem.runInfo.Keys && s.w.mem.cancelSent <= s.w.mem.runInfo.Keys
    requires Enabled(s, l) && !l.Start? && !l.FinishMaps? && !l.Boot? && !l.Crash?
    ensures SameRuns(s.w.mem, Apply(s, l).w.mem)
  {
    var mem := s.w.mem;
    if l.CancelOne? {
      CancelSameRuns(s.w, l.id, s.now);
    } else if l.AskReplace? {
      ReplaceSameRuns(mem, l.event);
    } else if l.CountSkip? {
      SkipSameRuns(s.w, l.event, l.run);
    } else if l.RestartEvent? {
      assert Restarted(s.w, l.event, l.status, l.ran, s.now).mem == mem.(restartDelays := Apply(s, l).w.mem.restartDelays);
    } else if l.Configure? || l.Stop? {
    } else {
      assert Apply(s, l).w.mem == mem;
    }
  }

  lemma CancelSameRuns(w: World, id: nat, now: int)
    requires w.mem.cancels.Keys == w.mem.runInfo.Keys && w.mem.cancelSent <= w.mem.runInfo.Keys
    ensures SameRuns(w.mem, CancelHandled(w, id, now).mem)
  {
    if id in w.mem.cancels && id !in w.mem.cancelSent {
      AskSameRuns(w.mem, id, ByUser);
    }
  }

  lemma AskSameRuns(mem: Mem, id: nat, cause: Cause)
    requires mem.cancels.Keys == mem.runInfo.Keys && mem.cancelSent <= mem.runInfo.Keys && id in mem.cancels
    ensures SameRuns(mem, AskToStop(mem.(cancelSent := mem.cancelSent + {id}), id, cause))
  {
  }

  lemma ReplaceSameRuns(mem: Mem, event: string)
    requires mem.cancelSent <= mem.runInfo.Keys
    ensures SameRuns(mem, ReplaceAsked(mem, event))
  {
  }

  lemma SkipSameRuns(w: World, event: string, run: nat)
    requires w.mem.cancelSent <= w.mem.runInfo.Keys
    ensures SameRuns(w.mem, CountedOn(w, event, run).mem)
  {
  }

  // The table and the indexes together

  /** What a row can be once this process has seen it run. */
  predicate Ran(status: Status) {
    status.Running? || status.Succeeded? || status.Failed? || status.Canceled? || status.Interrupted?
  }

  function TodoIds(todo: seq<Run>): set<nat> { set r | r in todo :: r.id }

  /** While the loop runs, the rows in the status running are exactly the runs of this process that
      have not ended; before it runs, the rows cut off are exactly the ones that Recover has yet to
      settle. */
  ghost predicate OwnedRow(s: State, id: nat) {
    var rows, mem := s.w.db.rows, s.w.mem;
    && (id in s.finishing ==> id in mem.runInfo)
    && (id in mem.runInfo || id in s.pending ==> s.phase.Up? && id < s.w.db.nextId && (id in rows ==> Ran(rows[id].status)))
    && (s.phase.Up? && id in mem.runInfo && id !in s.finishing ==> id in rows && rows[id].status.Running?)
    && (s.phase.Up? && id in rows && rows[id].status.Running? ==>
          id in mem.runInfo && id !in s.finishing && mem.runInfo[id] == rows[id].event)
    && (s.phase.Up? && id in rows && rows[id].status.Interrupted? ==> mem.stopping)
    && (s.phase.Recovering? ==> (id in TodoIds(s.phase.todo) <==> id in rows && CutOff()(rows[id])))
  }

  /** run is still as Recover read it, up to a cancel request. */
  ghost predicate Waits(db: Db, run: Run) {
    && run.id in db.rows && db.rows[run.id].status == run.row.status && SameFiring(db.rows[run.id], run.row)
  }

  ghost predicate Owned(s: State) {
    && (forall id :: OwnedRow(s, id))
    && (!s.phase.Up? ==> !s.w.mem.stopping && !s.armed)
    && (s.phase.Recovering? ==> Ascending(s.phase.todo) && forall r | r in s.phase.todo :: Waits(s.w.db, r))
  }

  lemma AsideOwned(s: State, s': State)
    requires Numbered(s.w.db) && Owned(s) && Aside(s.w.db, s'.w.db)
    requires s'.w.mem.runInfo == s.w.mem.runInfo && (s.w.mem.stopping ==> s'.w.mem.stopping)
    requires s'.finishing == s.finishing && s'.pending == s.pending
    requires s'.phase == s.phase || (s.phase == Recovering([]) && s'.phase.Up?)
    requires !s'.phase.Up? ==> !s'.w.mem.stopping && !s'.armed
    ensures Owned(s')
  {
    forall id ensures OwnedRow(s', id) {
      assert OwnedRow(s, id);
    }
    if s.phase.Recovering? && s'.phase.Recovering? {
      forall r | r in s.phase.todo ensures Waits(s'.w.db, r) {
        assert Waits(s.w.db, r) && OwnedRow(s, r.id);
      }
    }
  }

  lemma StartEffect(s: State, id: nat)
    requires Enabled(s, Start(id))
    ensures var s', db, mem := Apply(s, Start(id)), s.w.db, s.w.mem;
            && s'.phase == s.phase && s'.finishing == s.finishing && s'.pending == s.pending
            && s'.w.mem.stopping == mem.stopping && s'.w.db.nextId == db.nextId
            && if IsQueued(db, id) then
                 && s'.w.db.rows == db.rows[id := db.rows[id].(status := Running)]
                 && s'.w.mem.runInfo == mem.runInfo[id := db.rows[id].event]
               else s'.w == s.w
  {
  }

  lemma StartOwned(s: State, id: nat, x: nat)
    requires Numbered(s.w.db) && Enabled(s, Start(id)) && OwnedRow(s, x)
    ensures OwnedRow(Apply(s, Start(id)), x)
  {
    StartEffect(s, id);
    if IsQueued(s.w.db, id) && x == id {
      assert id !in s.w.mem.runInfo && id !in s.finishing;
    }
  }

  lemma CancelOneOwned(s: State, id: nat, x: nat)
    requires s.w.mem.cancels.Keys == s.w.mem.runInfo.Keys && Enabled(s, CancelOne(id)) && OwnedRow(s, x)
    ensures OwnedRow(Apply(s, CancelOne(id)), x)
  {
    CancelEffect(s, id);
  }

  lemma CancelEffect(s: State, id: nat)
    requires s.w.mem.cancels.Keys == s.w.mem.runInfo.Keys && Enabled(s, CancelOne(id))
    ensures var s', db, mem := Apply(s, CancelOne(id)), s.w.db, s.w.mem;
            && s'.phase == s.phase && s'.finishing == s.finishing && s'.pending == s.pending - {id}
            && s'.w.mem.runInfo == mem.runInfo && s'.w.mem.stopping == mem.stopping
            && s'.w.db == if id in mem.runInfo then db else FinishRun(db, id, Canceled, "canceled_by_user", s.now)
  {
  }

  lemma FinishRowOwned(s: State, id: nat, res: Result, x: nat)
    requires Enabled(s, FinishRow(id, res)) && OwnedRow(s, x)
    ensures OwnedRow(Apply(s, FinishRow(id, res)), x)
  {
  }

  lemma FinishMapsOwned(s: State, id: nat, x: nat)
    requires Enabled(s, FinishMaps(id)) && OwnedRow(s, x)
    ensures OwnedRow(Apply(s, FinishMaps(id)), x)
  {
  }

  lemma ReadCancelsOwned(s: State, x: nat)
    requires Numbered(s.w.db) && Enabled(s, ReadCancels) && OwnedRow(s, x)
    ensures OwnedRow(Apply(s, ReadCancels), x)
  {
    SelectMeaning(s.w.db.rows, 0, s.w.db.nextId, AskedToStop(), s.w.db.nextId);
  }

  lemma BootOwned(s: State, specs: seq<Spec>, x: nat)
    requires Numbered(s.w.db) && Enabled(s, Boot(specs)) && OwnedRow(s, x)
    ensures OwnedRow(Apply(s, Boot(specs)), x)
  {
    var db := s.w.db;
    SelectMeaning(db.rows, 0, db.nextId, CutOff(), db.nextId);
    SelectAll(db.rows, 0, db.nextId, CutOff(), db.nextId);
    if x in db.rows && CutOff()(db.rows[x]) {
      assert Run(x, db.rows[x]) in InterruptedRuns(db);
    }
  }

  lemma RestTodo(todo: seq<Run>, x: nat)
    requires todo != [] && Ascending(todo)
    ensures x in TodoIds(todo[1..]) <==> x in TodoIds(todo) && x != todo[0].id
  {
    assert todo == [todo[0]] + todo[1..];
    if x in TodoIds(todo[1..]) {
      var i :| 0 <= i < |todo[1..]| && todo[1..][i].id == x;
      assert todo[i + 1].id == x && todo[i + 1] in todo;
    }
  }

  lemma RecoverOneOwned(s: State, x: nat)
    requires Numbered(s.w.db) && Enabled(s, RecoverOne) && OwnedRow(s, x) && Ascending(s.phase.todo)
    requires Waits(s.w.db, s.phase.todo[0])
    ensures OwnedRow(Apply(s, RecoverOne), x)
  {
    RestTodo(s.phase.todo, x);
    RecoverPuts(s.w.db, s.w.mem.specs, s.phase.todo[0], s.now, x);
  }

  /** Settling a run ends it, queues at most one more, and leaves every other row as it is. */
  lemma RecoverPuts(db: Db, specs: map<string, Spec>, run: Run, now: int, x: nat)
    requires Numbered(db) && Waits(db, run)
    ensures var d := RecoverRow(db, specs, run, now);
            && db.nextId <= d.nextId
            && (x in db.rows && x != run.id ==> x in d.rows && d.rows[x] == db.rows[x])
            && (x in d.rows && x !in db.rows ==> x >= db.nextId && d.rows[x].status.Queued?)
            && (x == run.id ==> x in d.rows && !CutOff()(d.rows[x]))
  {
  }

  lemma StepOwned(s: State, l: Label)
    requires Numbered(s.w.db) && Indexed(s.w.mem) && Owned(s) && Enabled(s, l)
    ensures Owned(Apply(s, l))
  {
    if l.RecoverOne? {
      RecoverRest(s);
    } else if l.Boot? {
      SelectMeaning(s.w.db.rows, 0, s.w.db.nextId, CutOff(), s.w.db.nextId);
    } else if SetsAside(l) && !l.ReadCancels? && !l.FinishMaps? && !l.Crash? {
      StepAside(s, l);
      StepQuiet(s, l);
      AsideOwned(s, Apply(s, l));
      return;
    }
    forall x ensures OwnedRow(Apply(s, l), x) {
      assert OwnedRow(s, x);
      StepOwnedRow(s, l, x);
    }
  }

  lemma StepQuiet(s: State, l: Label)
    requires Enabled(s, l) && SetsAside(l) && !l.ReadCancels? && !l.FinishMaps? && !l.Crash? && !l.Boot?
    requires !s.phase.Up? ==> !s.w.mem.stopping && !s.armed
    ensures var s' := Apply(s, l);
            && s'.w.mem.runInfo == s.w.mem.runInfo && (s.w.mem.stopping ==> s'.w.mem.stopping)
            && s'.finishing == s.finishing && s'.pending == s.pending
            && (s'.phase == s.phase || (s.phase == Recovering([]) && s'.phase.Up?))
            && (!s'.phase.Up? ==> !s'.w.mem.stopping && !s'.armed)
  {
  }

  lemma StepOwnedRow(s: State, l: Label, x: nat)
    requires Numbered(s.w.db) && Indexed(s.w.mem) && Enabled(s, l) && OwnedRow(s, x)
    requires !SetsAside(l) || l.ReadCancels? || l.FinishMaps? || l.Crash? || l.Boot?
    requires l.RecoverOne? ==> Ascending(s.phase.todo) && Waits(s.w.db, s.phase.todo[0])
    ensures OwnedRow(Apply(s, l), x)
  {
    if l.Boot? {
      BootOwned(s, l.specs, x);
    } else if l.RecoverOne? {
      RecoverOneOwned(s, x);
    } else if l.ReadCancels? {
      ReadCancelsOwned(s, x);
    } else if l.Start? {
      StartOwned(s, l.id, x);
    } else if l.CancelOne? {
      CancelOneOwned(s, l.id, x);
    } else if l.FinishRow? {
      FinishRowOwned(s, l.id, l.res, x);
    } else if l.FinishMaps? {
      FinishMapsOwned(s, l.id, x);
    }
  }

  /** Settling the first run leaves the others waiting. */
  lemma RecoverRest(s: State)
    requires Numbered(s.w.db) && Owned(s) && Enabled(s, RecoverOne)
    ensures Ascending(s.phase.todo[1..])
    ensures Waits(s.w.db, s.phase.todo[0])
    ensures forall r | r in s.phase.todo[1..] :: Waits(Apply(s, RecoverOne).w.db, r)
  {
    var todo := s.phase.todo;
    assert todo[0] in todo;
    forall r | r in todo[1..] ensures Waits(Apply(s, RecoverOne).w.db, r) {
      var i :| 0 <= i < |todo[1..]| && todo[1..][i] == r;
      assert todo[i + 1] == r && r in todo && Waits(s.w.db, r);
    }
  }

  ghost predicate Inv(s: State) {
    Recorded(s) && Indexed(s.w.mem) && Owned(s)
  }

  lemma StepInv(s: State, l: Label)
    requires Inv(s) && Enabled(s, l)
    ensures Inv(Apply(s, l))
  {
    StepRecords(s, l);
    StepIndexed(s, l);
    StepOwned(s, l);
  }

  lemma InitialInv(now: int)
    ensures Inv(Initial(now))
  {
    IdleIndexed(IDLE);
  }

  lemma {:induction false} RunInv(s: State, ls: seq<Label>)
    requires Inv(s) && Runs(s, ls)
    ensures Inv(Exec(s, ls))
    decreases |ls|
  {
    if ls != [] {
      StepInv(s, ls[0]);
      RunInv(Apply(s, ls[0]), ls[1..]);
    }
  }
}
