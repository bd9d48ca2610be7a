/** The dispatcher object (internal/runner/dispatcher.go). Its methods update the fields in place;
    their contracts say which function of module Dispatch the whole world went through. */
module Dispatching {
  import opened Queue
  import opened Storage
  import opened Dispatch
  import opened AfterWeights

  /** RecoverRow for one run after the other; clock(id) is the time at which run id is settled. */
  function RecoverRows(db: Db, specs: map<string, Spec>, runs: seq<Run>, clock: nat -> int): Db
    decreases |runs|
  {
    if runs == [] then db
    else RecoverRows(RecoverRow(db, specs, runs[0], clock(runs[0].id)), specs, runs[1..], clock)
  }

  function HandedAll(w: World, runs: seq<Run>, now: int): World {
    if runs == [] then w else Handed(HandedAll(w, runs[..|runs| - 1], now), runs[|runs| - 1], now)
  }

  /** The runs were handed on one after the other, each of them ended and not handed on before. */
  ghost predicate HandsOn(w: World, runs: seq<Run>, now: int) {
    runs == [] ||
    (HandsOn(w, runs[..|runs| - 1], now) && IsEnded(HandedAll(w, runs[..|runs| - 1], now).db, runs[|runs| - 1]))
  }

  predicate IsEnded(db: Db, run: Run) {
    run.id in db.rows && db.rows[run.id] == run.row && EndedUnfollowed()(run.row)
  }

  lemma HandsOnOneMore(w: World, runs: seq<Run>, run: Run, now: int)
    requires HandsOn(w, runs, now) && IsEnded(HandedAll(w, runs, now).db, run)
    ensures HandsOn(w, runs + [run], now)
    ensures HandedAll(w, runs + [run], now) == Handed(HandedAll(w, runs, now), run, now)
  {
    assert (runs + [run])[..|runs|] == runs;
  }

  /** What handing one run on does to the other rows: nothing, apart from the rows it adds. */
  lemma HandedMeaning(w: World, run: Run, now: int)
    requires Numbered(w.db) && run.id in w.db.rows
    ensures var w' := Handed(w, run, now);
            && w'.mem == w.mem && Numbered(w'.db)
            && w'.db.nextId == w.db.nextId + |FiredBy(w.mem, run.row)|
            && (forall id | id in w.db.rows && id != run.id :: id in w'.db.rows && w'.db.rows[id] == w.db.rows[id])
            && run.id in w'.db.rows && w'.db.rows[run.id] == w.db.rows[run.id].(followed := true)
            && (forall id | id in w'.db.rows && id !in w.db.rows :: w.db.nextId <= id)
            && (forall id | w.db.nextId <= id < w'.db.nextId ::
                  && id in w'.db.rows
                  && InsertedAs(w'.db.rows[id], AfterFirings(FiredBy(w.mem, run.row), run.id)[id - w.db.nextId])
                  && (w'.db.rows[id].finishedAt.Some? ==> w'.db.rows[id].finishedAt.value == Ms(now)))
  {
    var events := FiredBy(w.mem, run.row);
    InsertAllMeaning(w.db, AfterFirings(events, run.id), Limits(events, w.mem.specs), now);
  }

  class Dispatcher {
    const store: Store
    var specs: map<string, Spec>
    var follows: map<string, seq<Follower>>
    var running: map<string, nat>
    var active: map<string, Active>
    var cancels: map<nat, Option<Cause>>
    var cancelSent: set<nat>
    var runInfo: map<nat, string>
    var restartDelays: map<string, nat>
    var stopping: bool

    function Indexes(): Mem
      reads this
    {
      Mem(specs, follows, running, active, cancels, cancelSent, runInfo, restartDelays, stopping)
    }

    function World(): World
      reads this, store
    {
      Dispatch.World(store.Contents(), Indexes())
    }

    constructor (store: Store)
      ensures this.store == store && Indexes() == IDLE
    {
      this.store := store;
      specs, follows, running, active := map[], map[], map[], map[];
      cancels, cancelSent, runInfo, restartDelays, stopping := map[], {}, map[], map[], false;
    }

    method Configure(newSpecs: seq<Spec>)
      modifies this
      ensures Indexes() == Configured(old(Indexes()), newSpecs)
    {
      var m: map<string, Spec> := map[];
      var f: map<string, seq<Follower>> := map[];
      for i := 0 to |newSpecs|
        invariant m == SpecMap(newSpecs[..i]) && f == FollowMap(newSpecs[..i])
      {
        var s := newSpecs[i];
        assert newSpecs[..i + 1][..i] == newSpecs[..i];
        m := m[s.name := s];
        ghost var before := f;
        for j := 0 to |s.after|
          invariant f == AddAfter(before, s.name, s.after[..j])
        {
          var a := s.after[j];
          assert s.after[..j + 1][..j] == s.after[..j];
          f := f[a.event := Followers(f, a.event) + [Follower(s.name, a.statuses)]];
        }
        assert s.after[..|s.after|] == s.after;
      }
      assert newSpecs[..|newSpecs|] == newSpecs;
      specs, follows := m, f;
    }

    method Recover(clock: nat -> int)
      requires Numbered(store.Contents())
      modifies store
      ensures store.Contents() == RecoverRows(old(store.Contents()), specs, InterruptedRuns(old(store.Contents())), clock)
    {
      var runs := InterruptedRuns(store.Contents());
      SelectMeaning(store.rows, 0, store.nextId, CutOff(), store.nextId);
      for i := 0 to |runs|
        invariant store.nextId >= old(store.nextId)
        invariant RecoverRows(store.Contents(), specs, runs[i..], clock)
               == RecoverRows(old(store.Contents()), specs, runs, clock)
      {
        assert runs[i..][1..] == runs[i + 1..];
        var run := runs[i];
        var how := "agent_crashed";
        if run.row.status.Interrupted? {
          how := "agent_stopped";
        }
        if run.row.event !in specs {
          store.Abandon(run.id, "event_removed", clock(run.id));
        } else if !specs[run.row.event].rerun {
          store.Abandon(run.id, how, clock(run.id));
        } else if run.row.attempt >= specs[run.row.event].maxAttempts {
          store.Abandon(run.id, "max_attempts_reached", clock(run.id));
        } else if !run.row.readable {
          store.Abandon(run.id, "payload_invalid", clock(run.id));
        } else {
          var _ := store.Retry(run, how, clock(run.id));
        }
      }
    }

    /** None when the event is unknown. */
    method Submit(name: string, readable: bool, now: int) returns (queued: Option<nat>)
      modifies store
      ensures World() == Submitted(old(World()), name, readable, now)
      ensures queued == if name in specs && !Full(old(store.Contents()), name, MaxQueued(specs[name]))
                        then Some(old(store.nextId)) else None
    {
      if name !in specs {
        return None;
      }
      var max := 0;
      if specs[name].policy == PolicyQueue {
        max := MAX_QUEUED_PER_EVENT;
      }
      var id, dropped := store.Enqueue(Firing(name, Outside, 0, readable, None), max, now);
      queued := if dropped then None else Some(id);
    }

    /** The runs that one ended run fires, and the backlog limit of each. */
    method Firings(followers: seq<Follower>, status: Status, id: nat) returns (fs: seq<Firing>, maxQueued: seq<nat>)
      ensures fs == AfterFirings(Fired(followers, specs, status), id)
      ensures maxQueued == Limits(Fired(followers, specs, status), specs)
    {
      fs, maxQueued := [], [];
      if status == Retried {
        return;
      }
      for i := 0 to |followers|
        invariant fs == AfterFirings(Fired(followers[..i], specs, status), id)
        invariant maxQueued == Limits(Fired(followers[..i], specs, status), specs)
      {
        var f := followers[i];
        assert followers[..i + 1][..i] == followers[..i];
        if f.event !in specs || status !in f.statuses {
          continue;
        }
        fs := fs + [Firing(f.event, After, id, true, None)];
        var max := 0;
        if specs[f.event].policy == PolicyQueue {
          max := MAX_QUEUED_PER_EVENT;
        }
        maxQueued := maxQueued + [max];
      }
      assert followers[..|followers|] == followers;
    }

    /** follow ends because the weight that is left drops with every run it hands on. Every run that
        had ended before the call is handed on, once. A run that the call itself recorded as dropped
        may be left for the next call. */
    method Follow(now: int, ghost weight: string -> nat) returns (ghost handed: seq<Run>)
      requires Numbered(store.Contents()) && Weighs(follows, weight)
      modifies store
      ensures HandsOn(old(World()), handed, now) && World() == HandedAll(old(World()), handed, now)
      ensures forall id | id in old(store.rows) :: id in store.rows
                && store.rows[id] == old(store.rows)[id].(followed := old(store.rows)[id].followed || Final(old(store.rows)[id].status))
      ensures forall id | id in store.rows && EndedUnfollowed()(store.rows[id]) ::
                id >= old(store.nextId) && store.rows[id].status.Dropped? && store.rows[id].kind.After?
    {
      handed := [];
      ghost var start := World();
      while true
        invariant Indexes() == start.mem && Numbered(store.Contents()) && store.nextId >= start.db.nextId
        invariant HandsOn(start, handed, now) && World() == HandedAll(start, handed, now)
        invariant Handling(start.db, store.Contents())
        decreases UnhandedWeight(store.Contents(), weight)
      {
        var ended := UnfollowedRuns(store.Contents(), FOLLOW_BATCH);
        ghost var before := store.Contents();
        UnhandedNonNegative(before, weight);
        SelectMeaning(before.rows, 0, before.nextId, EndedUnfollowed(), FOLLOW_BATCH);
        for i := 0 to |ended|
          invariant Indexes() == start.mem && store.nextId >= start.db.nextId
          invariant HandsOn(start, handed, now) && World() == HandedAll(start, handed, now)
          invariant Handling(start.db, store.Contents())
          invariant PartOfBatch(before, store.Contents(), ended, i)
          invariant UnhandedWeight(store.Contents(), weight) <= UnhandedWeight(before, weight)
          invariant i > 0 ==> UnhandedWeight(store.Contents(), weight) < UnhandedWeight(before, weight)
        {
          ghost var w := World();
          Hand(ended[i], now);
          HandingLowersWeight(w, ended[i], now, weight);
          HandsOnOneMore(start, handed, ended[i], now);
          HandlingOneMore(start.db, w, ended[i], now);
          BatchOneMore(before, w, ended, i, now);
          handed := handed + [ended[i]];
        }
        if |ended| < FOLLOW_BATCH {
          BatchDone(before, store.Contents(), ended, FOLLOW_BATCH);
          return;
        }
      }
    }

    method Hand(r: Run, now: int)
      modifies store
      ensures World() == Handed(old(World()), r, now)
    {
      var fs, maxQueued := Firings(Followers(follows, r.row.event), r.row.status, r.id);
      store.Follow(r.id, fs, maxQueued, now);
    }

    method ProcessCancels(now: int)
      modifies this, store
      ensures World() == CancelledAll(old(World()), CancelRequests(old(store.Contents())), now)
    {
      var ids := CancelRequests(store.Contents());
      for i := 0 to |ids|
        invariant CancelledAll(World(), ids[i..], now) == CancelledAll(old(World()), ids, now)
      {
        assert ids[i..][1..] == ids[i + 1..];
        var id := ids[i].id;
        if id in cancels {
          if id !in cancelSent {
            cancelSent := cancelSent + {id};
            CancelContext(id, ByUser);
          }
        } else {
          store.FinishRun(id, Canceled, "canceled_by_user", now);
        }
      }
    }

    /** Calls the context.CancelCauseFunc of a run. */
    method CancelContext(id: nat, cause: Cause)
      modifies this`cancels
      ensures Indexes() == AskToStop(old(Indexes()), id, cause)
    {
      if id in cancels && cancels[id] == None {
        cancels := cancels[id := Some(cause)];
      }
    }

    /** Whether the scan wakes the loop for the next one: by the progress of a full batch, or by a run that
        ended in it. */
    method Schedule(batch: nat, now: int) returns (wakes: bool)
      modifies this, store
      ensures World() == Scan(old(World()), batch, now).w && wakes == Wakes(old(World()), batch, now)
    {
      var waiting := set e | e in running && running[e] > 0 && e in specs && specs[e].policy == PolicyQueue;
      assert waiting == Waiting(Indexes());
      var runs := QueuedRuns(store.Contents(), batch, waiting, now);
      var progressed, woke := false, false;
      var newest: map<string, nat> := map[];
      for i := 0 to |runs|
        invariant newest == Newest(Indexes(), runs[..i])
      {
        assert runs[..i + 1][..i] == runs[..i];
        if runs[i].row.event in specs && specs[runs[i].row.event].policy == PolicyReplace {
          newest := newest[runs[i].row.event := runs[i].id];
        }
      }
      assert runs[..|runs|] == runs;
      for i := 0 to |runs|
        invariant ScanRows(Scanned(World(), progressed, woke), runs[i..], newest, now) == Scan(old(World()), batch, now)
      {
        assert runs[i..][1..] == runs[i + 1..];
        var run := runs[i];
        if run.row.event in newest && newest[run.row.event] != run.id {
          var _ := store.Settle(run.id, Skipped, "replaced", now);
          progressed := true;
          continue;
        }
        if stopping {
          break;
        }
        var p, f := Examine(run, now);
        progressed, woke := progressed || p, woke || f;
      }
      wakes := woke || (progressed && |runs| == batch);
    }

    /** One row of a scan: whether the scan made progress, and whether a run ended, which wakes the loop. */
    method Examine(run: Run, now: int) returns (progressed: bool, woke: bool)
      modifies this, store
      ensures Scanned(World(), progressed, woke) == Examined(old(World()), run, now)
    {
      progressed, woke := true, false;
      var e := run.row.event;
      if e !in specs {
        var _ := store.Settle(run.id, Dropped, "event_removed", now);
        return;
      }
      var spec := specs[e];
      var n := if e in running then running[e] else 0;
      if run.row.kind == Restart && spec.restart == RestartNever {
        var _ := store.Settle(run.id, Dropped, "restart_disabled", now);
        return;
      } else if spec.policy == PolicySkip && n > 0 {
        Skip(run, now);
        return;
      } else if spec.policy == PolicyQueue && n > 0 {
        progressed := false;
        return;
      } else if spec.policy == PolicyReplace && n > 0 {
        if e in active && !active[e].replacing {
          active := active[e := active[e].(replacing := true)];
          CancelContext(active[e].runId, Replaced);
        }
        progressed := false;
        return;
      }
      progressed := store.StartRun(run.id);
      if !progressed {
        return;
      }
      Register(run.id, e, spec.policy);
      if !run.row.readable {
        Finish(run.id, e, PAYLOAD_INVALID, now);
        woke := true;
      }
    }

    /** Enters a run that starts into the indexes. */
    method Register(id: nat, event: string, policy: Policy)
      modifies this`running, this`active, this`cancels, this`runInfo
      ensures Indexes() == Registered(old(Indexes()), id, event, policy)
    {
      running := running[event := (if event in running then running[event] else 0) + 1];
      if policy != PolicyParallel {
        active := active[event := Active(id, 0, false)];
      }
      cancels := cancels[id := None];
      runInfo := runInfo[id := event];
    }

    /** skip, and the settle it makes. */
    method Skip(run: Run, now: int)
      modifies this`active, store
      ensures World() == if IsQueued(old(store.Contents()), run.id)
                         then SkipCounted(SettledAs(old(World()), run.id, Skipped, "already_running", now), run.row.event)
                         else old(World())
    {
      var ok := store.Settle(run.id, Skipped, "already_running", now);
      if !ok || run.row.event !in active {
        return;
      }
      var a := active[run.row.event];
      active := active[run.row.event := a.(skipped := a.skipped + 1)];
      store.AddSkipped(a.runId);
    }

    method Finish(id: nat, event: string, res: Result, now: int)
      modifies this, store
      ensures World() == Finished(old(World()), id, event, res, now)
    {
      var status := Succeeded;
      if res.reason == "shutdown" {
        status := Interrupted;
      } else if res.error == "canceled" {
        status := Canceled;
      } else if res.error != "" || res.exitCode != 0 {
        status := Failed;
      }
      store.FinishRun(id, status, res.reason, now);
      Forget(id, event);
      RestartEvent(event, status, res.ran, now);
    }

    /** Takes a run that ended out of the indexes. */
    method Forget(id: nat, event: string)
      modifies this`running, this`active, this`cancels, this`cancelSent, this`runInfo
      ensures Indexes() == MapsFinished(old(Indexes()), id, event)
    {
      if event in running && running[event] > 1 {
        running := running[event := running[event] - 1];
      } else {
        running := running - {event};
      }
      if event in active && active[event].runId == id {
        active := active - {event};
      }
      cancels, cancelSent, runInfo := cancels - {id}, cancelSent - {id}, runInfo - {id};
    }

    method RestartEvent(event: string, status: Status, ran: nat, now: int)
      modifies this`restartDelays, store
      ensures World() == Restarted(old(World()), event, status, ran, now)
    {
      if stopping || event !in specs || !RestartsAfter(specs[event].restart, status) {
        return;
      }
      var spec := specs[event];
      var delay := spec.restartDelay;
      if event in restartDelays && ran < spec.restartMaxDelay {
        delay := Min(2 * restartDelays[event], spec.restartMaxDelay);
      }
      restartDelays := restartDelays[event := delay];
      var max := 0;
      if spec.policy == PolicyQueue {
        max := MAX_QUEUED_PER_EVENT;
      }
      var _, _ := store.Enqueue(Firing(event, Restart, 0, true, Some(Ms(now + delay))), max, now);
    }
  }

  /** Between two rows of a batch: the rows still to come are as they were read, and no ended row
      that is older than the batch is left out. */
  ghost predicate PartOfBatch(before: Db, db: Db, ended: seq<Run>, i: nat) {
    && Numbered(db) && db.nextId >= before.nextId
    && (forall j | i <= j < |ended| :: ended[j].id in db.rows && db.rows[ended[j].id] == ended[j].row)
    && (forall id | id in db.rows && id < before.nextId && EndedUnfollowed()(db.rows[id]) ::
          id in before.rows && before.rows[id] == db.rows[id] && forall j | 0 <= j < i && j < |ended| :: ended[j].id != id)
  }

  lemma BatchOneMore(before: Db, w: World, ended: seq<Run>, i: nat, now: int)
    requires i < |ended| && Ascending(ended) && PartOfBatch(before, w.db, ended, i)
    ensures PartOfBatch(before, Handed(w, ended[i], now).db, ended, i + 1)
  {
    HandedMeaning(w, ended[i], now);
  }

  lemma BatchDone(before: Db, db: Db, ended: seq<Run>, limit: nat)
    requires Numbered(before) && ended == UnfollowedRuns(before, limit) && |ended| < limit
    requires PartOfBatch(before, db, ended, |ended|)
    ensures forall id | id in db.rows && EndedUnfollowed()(db.rows[id]) :: id >= before.nextId
  {
    SelectMeaning(before.rows, 0, before.nextId, EndedUnfollowed(), limit);
    forall id | id in db.rows && EndedUnfollowed()(db.rows[id])
      ensures id >= before.nextId
    {
      if id < before.nextId {
        assert false;
      }
    }
  }

  lemma HandlingOneMore(before: Db, w: World, run: Run, now: int)
    requires Numbered(w.db) && Handling(before, w.db) && w.db.nextId >= before.nextId
    requires run.id in w.db.rows && w.db.rows[run.id] == run.row && Final(run.row.status)
    ensures Handling(before, Handed(w, run, now).db)
  {
    HandedMeaning(w, run, now);
    var d := Handed(w, run, now).db;
    forall id | id in d.rows && id !in before.rows
      ensures id >= before.nextId && d.rows[id].kind.After? && (Final(d.rows[id].status) ==> d.rows[id].status.Dropped?)
    {
      if id !in w.db.rows {
        assert InsertedAs(d.rows[id], AfterFirings(FiredBy(w.mem, run.row), run.id)[id - w.db.nextId]);
      }
    }
  }

  function CancelledAll(w: World, runs: seq<Run>, now: int): World
    decreases |runs|
  {
    if runs == [] then w else CancelledAll(CancelHandled(w, runs[0].id, now), runs[1..], now)
  }

  /** Rows present before are only marked, and rows added since come from after triggers. */
  ghost predicate Handling(before: Db, db: Db) {
    && (forall id | id in before.rows ::
          var r := before.rows[id];
          id in db.rows && (db.rows[id] == r || (Final(r.status) && db.rows[id] == r.(followed := true))))
    && (forall id | id in db.rows && id !in before.rows ::
          id >= before.nextId && db.rows[id].kind.After? && (Final(db.rows[id].status) ==> db.rows[id].status.Dropped?))
  }
}
