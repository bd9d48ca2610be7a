/** What a scan decides for a queued row, told by the row, the spec of its event and the runs in progress. */
module Verdicts {
  import opened Queue
  import opened Dispatch
  import opened Scans
  import opened Statements
  import opened Cancels
  import opened Endings
  import opened Config

  /** The row ends without a start, and no other row is touched. */
  ghost predicate EndsAs(db: Db, d: Db, id: nat, status: Status, reason: string, now: int) {
    && OnlyTouches(db, d, id)
    && id in db.rows && d.rows[id] == db.rows[id].(status := status, reason := reason, finishedAt := Some(now / 1_000_000))
  }

  ghost predicate Examining(w: World, run: Run) {
    Numbered(w.db) && IsQueued(w.db, run.id) && SameFiring(w.db.rows[run.id], run.row)
  }

  /** A row of an event that the config does not have any more is dropped, and so is a restart when the event
      does not restart any more. */
  lemma DroppedRow(w: World, run: Run, now: int)
    requires Examining(w, run)
    ensures var e, w' := run.row.event, Examined(w, run, now).w;
            && (e !in w.mem.specs ==> EndsAs(w.db, w'.db, run.id, Dropped, "event_removed", now) && w'.mem == w.mem)
            && (e in w.mem.specs && run.row.kind.Restart? && w.mem.specs[e].restart.RestartNever? ==>
                  EndsAs(w.db, w'.db, run.id, Dropped, "restart_disabled", now) && w'.mem == w.mem)
  {
  }

  /** The scan comes to the policy of the event. */
  predicate ByPolicy(w: World, run: Run, policy: Policy) {
    && HasPolicy(w.mem, run.row.event, policy)
    && !(run.row.kind.Restart? && w.mem.specs[run.row.event].restart.RestartNever?)
  }

  /** Under the queue policy a row stays as it is while its event is running. */
  lemma QueueWaits(w: World, run: Run, now: int)
    requires Examining(w, run) && ByPolicy(w, run, PolicyQueue) && Count(w.mem, run.row.event) > 0
    ensures Examined(w, run, now).w == w
  {
  }

  /** Under the replace policy it stays, too, and the active run of its event is told to stop. */
  lemma ReplaceAsks(w: World, run: Run, now: int)
    requires Examining(w, run) && ByPolicy(w, run, PolicyReplace) && Count(w.mem, run.row.event) > 0 && AskedAreTold(w.mem)
    requires run.row.event in w.mem.active ==> w.mem.active[run.row.event].runId in w.mem.cancels
    ensures var e, w' := run.row.event, Examined(w, run, now).w;
            && w'.db == w.db && MoreTold(w.mem, w'.mem)
            && if e !in w.mem.active then w'.mem == w.mem
               else w'.mem.active[e].replacing && w'.mem.active[e].runId == w.mem.active[e].runId
                    && w'.mem.cancels[w.mem.active[e].runId] == (if Told(w.mem, w.mem.active[e].runId)
                                                                 then w.mem.cancels[w.mem.active[e].runId] else Some(Replaced))
  {
    if run.row.event in w.mem.active {
      ReplaceTells(w.mem, run.row.event);
    }
  }

  /** Under the skip policy it is skipped, and counted on the active run, in the table and in the indexes. */
  lemma SkipCounts(w: World, run: Run, now: int)
    requires Examining(w, run) && ByPolicy(w, run, PolicySkip) && Count(w.mem, run.row.event) > 0
    requires run.row.event in w.mem.active && w.mem.active[run.row.event].runId != run.id
    ensures var e, w' := run.row.event, Examined(w, run, now).w;
            var a := w.mem.active[e];
            && w'.mem == w.mem.(active := w.mem.active[e := a.(skipped := a.skipped + 1)])
            && w'.db.nextId == w.db.nextId && w'.db.rows.Keys == w.db.rows.Keys
            && w'.db.rows[run.id] == w.db.rows[run.id].(status := Skipped, reason := "already_running",
                                                        finishedAt := Some(now / 1_000_000))
            && (a.runId in w.db.rows ==> w'.db.rows[a.runId] == w.db.rows[a.runId].(skipped := w.db.rows[a.runId].skipped + 1))
            && (forall x | x in w.db.rows && x != run.id && x != a.runId :: w'.db.rows[x] == w.db.rows[x])
  {
  }

  predicate Free(w: World, run: Run) {
    && run.row.event in w.mem.specs
    && !(run.row.kind.Restart? && w.mem.specs[run.row.event].restart.RestartNever?)
    && (Count(w.mem, run.row.event) == 0 || w.mem.specs[run.row.event].policy.PolicyParallel?)
  }

  /** Otherwise it starts: a row with a readable payload becomes running, and no other row is touched. */
  lemma FreeStarts(w: World, run: Run, now: int)
    requires Examining(w, run) && Free(w, run) && run.row.readable
    ensures var e, w' := run.row.event, Examined(w, run, now).w;
            && OnlyTouches(w.db, w'.db, run.id) && w'.db.rows[run.id] == w.db.rows[run.id].(status := Running)
            && w'.mem.runInfo == w.mem.runInfo[run.id := e] && w'.mem.cancels == w.mem.cancels[run.id := None]
            && w'.mem.active == (if w.mem.specs[e].policy.PolicyParallel? then w.mem.active
                                 else w.mem.active[e := Active(run.id, 0, false)])
            && (forall x :: Count(w'.mem, x) == if x == e then Count(w.mem, x) + 1 else Count(w.mem, x))
  {
  }

  /** One with an unreadable payload fails at once, for that reason. */
  lemma UnreadableFails(w: World, run: Run, now: int)
    requires Examining(w, run) && Free(w, run) && !run.row.readable
    ensures var d := Examined(w, run, now).w.db;
            && run.id in d.rows && d.rows[run.id].status.Failed? && d.rows[run.id].reason == "payload_invalid"
            && d.rows[run.id].finishedAt == Some(now / 1_000_000)
            && (forall x | x in w.db.rows && x != run.id :: x in d.rows && d.rows[x] == w.db.rows[x])
  {
    var started := Started(w, run.id, run.row.event, w.mem.specs[run.row.event].policy);
    FinishedRow(started, run.id, run.row.event, PAYLOAD_INVALID, now);
  }

  // Whole scans

  /** A scan of an agent that is stopping starts nothing: the only rows that it touches are queued ones, which
      it skips. */
  lemma {:induction false} StoppingStartsNothing(s: Scanned, runs: seq<Run>, newest: map<string, nat>, now: int)
    requires s.w.mem.stopping
    ensures var w' := ScanRows(s, runs, newest, now).w;
            && w'.mem == s.w.mem && w'.db.nextId == s.w.db.nextId && w'.db.rows.Keys == s.w.db.rows.Keys
            && (forall id | id in s.w.db.rows ::
                  w'.db.rows[id] == s.w.db.rows[id] || (s.w.db.rows[id].status.Queued? && w'.db.rows[id].status.Skipped?))
    decreases |runs|
  {
    if runs != [] && Outdated(newest, runs[0]) {
      SettledRow(s.w.db, runs[0].id, Skipped, "replaced", now);
      StoppingStartsNothing(ScanRow(s, runs[0], newest, now), runs[1..], newest, now);
    }
  }

  /** A scan wakes the next one only by a full batch, or by a run whose payload it could not read. */
  lemma WakesOnlyThen(w: World, batch: nat, now: int)
    requires Numbered(w.db) && !w.mem.stopping && Wakes(w, batch, now)
    ensures var runs := Batch(w, batch, now);
            (exists r :: r in runs && !r.row.readable) || (|runs| == batch && exists r :: r in runs && !Held(w.mem, r, Newest(w.mem, runs)))
  {
    var runs, newest, s := Batch(w, batch, now), Newest(w.mem, Batch(w, batch, now)), Scanned(w, false, false);
    BatchReady(w, batch, now);
    if forall r | r in runs :: r.row.readable {
      ReadableWakesNothing(s, runs, newest, now);
      ScanProgress(s, runs, newest, now);
    }
  }

  lemma {:induction false} ReadableWakesNothing(s: Scanned, runs: seq<Run>, newest: map<string, nat>, now: int)
    requires Numbered(s.w.db) && !s.w.mem.stopping
    requires Ready(s.w.db, runs) && forall r | r in runs :: Due(s.w.db.rows[r.id], now)
    requires forall r | r in runs :: r.row.readable
    ensures ScanRows(s, runs, newest, now).woke == s.woke
    decreases |runs|
  {
    if runs != [] {
      assert runs[0] in runs;
      var t := NextRow(s, runs, newest, now);
      forall r | r in runs[1..] ensures r.row.readable {
        assert r in runs;
      }
      ReadableWakesNothing(t, runs[1..], newest, now);
    }
  }

  // Reloads

  /** A reload with different names gives each event its new spec, drops every other, and changes nothing else
      but the followers: the runs in progress, what they were told, and the restart delays stay. */
  lemma ReloadChangesSpecs(mem: Mem, specs: seq<Spec>)
    requires forall i, j | 0 <= i < j < |specs| :: specs[i].name != specs[j].name
    ensures var m := Configured(mem, specs);
            && (forall s | s in specs :: s.name in m.specs && m.specs[s.name] == s)
            && (forall name | name in m.specs :: exists s :: s in specs && s.name == name)
            && m == mem.(specs := m.specs, follows := m.follows)
  {
    forall s | s in specs ensures s.name in SpecMap(specs) && SpecMap(specs)[s.name] == s {
      var i :| 0 <= i < |specs| && specs[i] == s;
      SpecMapValue(specs, i);
    }
    forall name | name in SpecMap(specs) ensures exists s :: s in specs && s.name == name {
      SpecMapMeaning(specs, name);
    }
  }

  // Recover

  /** The config repeats a run that was cut off. */
  predicate RunsAgain(specs: map<string, Spec>, r: Row) {
    r.event in specs && specs[r.event].rerun && r.attempt < specs[r.event].maxAttempts && r.readable
  }

  function HowCutOff(r: Row): string {
    if r.status.Interrupted? then "agent_stopped" else "agent_crashed"
  }

  /** Why a run that was cut off is not repeated: the first of these that applies. */
  function WhyNot(specs: map<string, Spec>, r: Row): string {
    if r.event !in specs then "event_removed"
    else if !specs[r.event].rerun then HowCutOff(r)
    else if r.attempt >= specs[r.event].maxAttempts then "max_attempts_reached" else "payload_invalid"
  }

  /** A run that was cut off is retried, and its next attempt queued, or it is abandoned; its row says how it was
      cut off, or why it is not repeated, and keeps the time at which it ended if it has one. */
  lemma RecoveredAs(db: Db, specs: map<string, Spec>, run: Run, now: int)
    requires Numbered(db) && run.id in db.rows
    ensures var d, n, r := RecoverRow(db, specs, run, now), db.nextId, db.rows[run.id];
            var again := RunsAgain(specs, run.row);
            && d.nextId == (if again then n + 1 else n) && d.rows.Keys == db.rows.Keys + (if again then {n} else {})
            && (forall x | x in db.rows && x != run.id :: d.rows[x] == db.rows[x])
            && d.rows[run.id] == r.(status := if again then Retried else Abandoned,
                                    reason := if again then HowCutOff(run.row) else WhyNot(specs, run.row),
                                    cancelRequested := false,
                                    finishedAt := if r.finishedAt.Some? then r.finishedAt else Some(now / 1_000_000))
            && (again ==> d.rows[n].status.Queued? && d.rows[n].retryOf == run.id && d.rows[n].attempt == run.row.attempt + 1
                          && d.rows[n].event == run.row.event && d.rows[n].kind == run.row.kind && d.rows[n].cause == run.row.cause
                          && d.rows[n].readable == run.row.readable && d.rows[n].notBefore.None?)
  {
    RetriedRow(db, run, HowCutOff(run.row), now);
    AbandonedRow(db, run.id, WhyNot(specs, run.row), now);
  }

  // follow

  lemma InsertSpares(db: Db, f: Firing, maxQueued: nat, now: int, event: string)
    requires Numbered(db) && f.event != event
    ensures QueuedIds(Insert(db, f, maxQueued, now), event) == QueuedIds(db, event)
  {
  }

  /** Firings of different events are dropped each by the backlog of its own event. */
  lemma {:induction false} InsertAllDrops(db: Db, fs: seq<Firing>, maxQueued: seq<nat>, now: int, i: nat)
    requires |fs| == |maxQueued| && Numbered(db) && i < |fs|
    requires forall j, k | 0 <= j < k < |fs| :: fs[j].event != fs[k].event
    ensures var d := InsertAll(db, fs, maxQueued, now);
            db.nextId + i in d.rows
            && (d.rows[db.nextId + i].status.Dropped? <==> 0 < maxQueued[i] <= |QueuedIds(db, fs[i].event)|)
    decreases |fs|
  {
    var d := Insert(db, fs[0], maxQueued[0], now);
    InsertedRow(db, fs[0], maxQueued[0], now);
    if i == 0 {
      InsertAllMeaning(d, fs[1..], maxQueued[1..], now);
    } else {
      InsertSpares(db, fs[0], maxQueued[0], now, fs[i].event);
      InsertAllDrops(d, fs[1..], maxQueued[1..], now, i - 1);
    }
  }

  /** Of the runs that a handed run fires, each of another event, those are dropped whose event is under the
      queue policy and has 1000 queued runs. */
  lemma HandedDrops(w: World, run: Run, now: int, i: nat)
    requires Numbered(w.db) && run.id in w.db.rows && i < |FiredBy(w.mem, run.row)|
    requires var events := FiredBy(w.mem, run.row);
             (forall j, k | 0 <= j < k < |events| :: events[j] != events[k]) && events[i] in w.mem.specs
    ensures var e, d := FiredBy(w.mem, run.row)[i], Handed(w, run, now).db;
            w.db.nextId + i in d.rows
            && (d.rows[w.db.nextId + i].status.Dropped? <==>
                  w.mem.specs[e].policy.PolicyQueue? && |QueuedIds(w.db, e)| >= 1000)
  {
    var events := FiredBy(w.mem, run.row);
    InsertAllDrops(w.db, AfterFirings(events, run.id), Limits(events, w.mem.specs), now, i);
  }
}
