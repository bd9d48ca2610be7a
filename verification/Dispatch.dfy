/** What the dispatcher does to the table and to its own indexes (internal/runner/dispatcher.go),
    one function for each piece that runs under d.mu or in one statement. */
module Dispatch {
  import opened Queue

  const MAX_QUEUED_PER_EVENT: nat := 1000
  const FOLLOW_BATCH: nat := 100

  datatype Policy = PolicySkip | PolicyQueue | PolicyParallel | PolicyReplace
  datatype RestartPolicy = RestartNever | RestartOnFailure | RestartAlways

  datatype AfterTrigger = AfterTrigger(event: string, statuses: seq<Status>)

  /** Delays are nanoseconds. rerun is on_interrupt: rerun. */
  datatype Spec = Spec(
    name: string, policy: Policy, restart: RestartPolicy, restartDelay: nat, restartMaxDelay: nat,
    rerun: bool, maxAttempts: nat, after: seq<AfterTrigger>)

  datatype Follower = Follower(event: string, statuses: seq<Status>)

  datatype Active = Active(runId: nat, skipped: nat, replacing: bool)

  /** Why a run in progress was asked to stop; the first cause stays. */
  datatype Cause = ByUser | Replaced

  /** The volatile state of the agent. cancels holds, for each run in progress, the cause with
      which its context was canceled; stopping says that the runner context is done. */
  datatype Mem = Mem(
    specs: map<string, Spec>, follows: map<string, seq<Follower>>,
    running: map<string, nat>, active: map<string, Active>,
    cancels: map<nat, Option<Cause>>, cancelSent: set<nat>, runInfo: map<nat, string>,
    restartDelays: map<string, nat>, stopping: bool)

  datatype World = World(db: Db, mem: Mem)

  const IDLE: Mem := Mem(map[], map[], map[], map[], map[], {}, map[], map[], false)

  function Count(mem: Mem, event: string): nat {
    if event in mem.running then mem.running[event] else 0
  }

  predicate HasPolicy(mem: Mem, event: string, policy: Policy) {
    event in mem.specs && mem.specs[event].policy == policy
  }

  function MaxQueued(spec: Spec): nat {
    if spec.policy.PolicyQueue? then MAX_QUEUED_PER_EVENT else 0
  }

  // Configure

  function SpecMap(specs: seq<Spec>): map<string, Spec> {
    if specs == [] then map[]
    else var last := specs[|specs| - 1]; SpecMap(specs[..|specs| - 1])[last.name := last]
  }

  function Followers(follows: map<string, seq<Follower>>, event: string): seq<Follower> {
    if event in follows then follows[event] else []
  }

  function AddAfter(follows: map<string, seq<Follower>>, name: string, after: seq<AfterTrigger>): map<string, seq<Follower>> {
    if after == [] then follows
    else
      var a := after[|after| - 1];
      var m := AddAfter(follows, name, after[..|after| - 1]);
      m[a.event := Followers(m, a.event) + [Follower(name, a.statuses)]]
  }

  function FollowMap(specs: seq<Spec>): map<string, seq<Follower>> {
    if specs == [] then map[]
    else
      var last := specs[|specs| - 1];
      AddAfter(FollowMap(specs[..|specs| - 1]), last.name, last.after)
  }

  function Configured(mem: Mem, specs: seq<Spec>): Mem {
    mem.(specs := SpecMap(specs), follows := FollowMap(specs))
  }

  // submit

  function Submitted(w: World, name: string, readable: bool, now: int): World {
    if name !in w.mem.specs then w
    else w.(db := Insert(w.db, Firing(name, Outside, 0, readable, None), MaxQueued(w.mem.specs[name]), now))
  }

  // Recover

  datatype Verdict = GiveUp(reason: string) | RunAgain(reason: string)

  function CutOffBy(status: Status): string {
    if status.Interrupted? then "agent_stopped" else "agent_crashed"
  }

  function Judge(specs: map<string, Spec>, row: Row): Verdict {
    var how := CutOffBy(row.status);
    if row.event !in specs then GiveUp("event_removed")
    else
      var spec := specs[row.event];
      if !spec.rerun then GiveUp(how)
      else if row.attempt >= spec.maxAttempts then GiveUp("max_attempts_reached")
      else if !row.readable then GiveUp("payload_invalid")
      else RunAgain(how)
  }

  function RecoverRow(db: Db, specs: map<string, Spec>, run: Run, now: int): Db {
    match Judge(specs, run.row)
    case GiveUp(reason) => Abandon(db, run.id, reason, now)
    case RunAgain(reason) => Retry(db, run, reason, now)
  }

  // follow

  /** The events that a run which ended with status fires, in the order of their after triggers. */
  function Fired(followers: seq<Follower>, specs: map<string, Spec>, status: Status): seq<string>
    decreases |followers|
  {
    if followers == [] || status.Retried? then []
    else
      var f := followers[|followers| - 1];
      var rest := Fired(followers[..|followers| - 1], specs, status);
      if f.event in specs && status in f.statuses then rest + [f.event] else rest
  }

  function FiredBy(mem: Mem, row: Row): seq<string> {
    Fired(Followers(mem.follows, row.event), mem.specs, row.status)
  }

  function AfterFirings(events: seq<string>, cause: nat): seq<Firing> {
    seq(|events|, i requires 0 <= i < |events| => Firing(events[i], After, cause, true, None))
  }

  function Limits(events: seq<string>, specs: map<string, Spec>): seq<nat> {
    seq(|events|, i requires 0 <= i < |events| => if events[i] in specs then MaxQueued(specs[events[i]]) else 0)
  }

  /** follow hands one ended run to the after triggers. */
  function Handed(w: World, run: Run, now: int): World {
    var events := FiredBy(w.mem, run.row);
    w.(db := Follow(w.db, run.id, AfterFirings(events, run.id), Limits(events, w.mem.specs), now))
  }

  // processCancels

  /** The first cause given to a context stays. */
  function AskToStop(mem: Mem, id: nat, cause: Cause): Mem {
    if id in mem.cancels && mem.cancels[id].None? then mem.(cancels := mem.cancels[id := Some(cause)]) else mem
  }

  function CancelHandled(w: World, id: nat, now: int): World {
    if id in w.mem.cancels then
      if id in w.mem.cancelSent then w
      else w.(mem := AskToStop(w.mem.(cancelSent := w.mem.cancelSent + {id}), id, ByUser))
    else w.(db := FinishRun(w.db, id, Canceled, "canceled_by_user", now))
  }

  // schedule

  function Waiting(mem: Mem): set<string> {
    set e | e in mem.running && mem.running[e] > 0 && HasPolicy(mem, e, PolicyQueue)
  }

  /** Counts a skipped firing of event on the run id, which was in progress. */
  function CountedOn(w: World, event: string, id: nat): World {
    var mem := w.mem;
    World(AddSkipped(w.db, id),
          if event in mem.active && mem.active[event].runId == id
          then mem.(active := mem.active[event := mem.active[event].(skipped := mem.active[event].skipped + 1)]) else mem)
  }

  /** settle of a row that is skipped because the run a of its event is in progress. */
  function SkipCounted(w: World, event: string): World {
    if event !in w.mem.active then w else CountedOn(w, event, w.mem.active[event].runId)
  }

  function ReplaceAsked(mem: Mem, event: string): Mem {
    if event !in mem.active || mem.active[event].replacing then mem
    else
      var a := mem.active[event];
      AskToStop(mem.(active := mem.active[event := a.(replacing := true)]), a.runId, Replaced)
  }

  function Registered(mem: Mem, id: nat, event: string, policy: Policy): Mem {
    mem.(running := mem.running[event := Count(mem, event) + 1],
         active := if policy.PolicyParallel? then mem.active else mem.active[event := Active(id, 0, false)],
         cancels := mem.cancels[id := None],
         runInfo := mem.runInfo[id := event])
  }

  /** StartRun and the indexes of the run, under one hold of d.mu. */
  function Started(w: World, id: nat, event: string, policy: Policy): World {
    World(StartRun(w.db, id), Registered(w.mem, id, event, policy))
  }

  // finish and restart

  datatype Result = Result(exitCode: int, error: string, reason: string, ran: nat)

  function Outcome(res: Result): Status {
    if res.reason == "shutdown" then Interrupted
    else if res.error == "canceled" then Canceled
    else if res.error != "" || res.exitCode != 0 then Failed
    else Succeeded
  }

  function RowFinished(w: World, id: nat, res: Result, now: int): World {
    w.(db := FinishRun(w.db, id, Outcome(res), res.reason, now))
  }

  function MapsFinished(mem: Mem, id: nat, event: string): Mem {
    var n := Count(mem, event);
    mem.(running := if n <= 1 then mem.running - {event} else mem.running[event := n - 1],
         active := if event in mem.active && mem.active[event].runId == id then mem.active - {event} else mem.active,
         cancels := mem.cancels - {id},
         cancelSent := mem.cancelSent - {id},
         runInfo := mem.runInfo - {id})
  }

  predicate RestartsAfter(policy: RestartPolicy, status: Status) {
    match policy
    case RestartAlways => status.Succeeded? || status.Failed?
    case RestartOnFailure => status.Failed?
    case RestartNever => false
  }

  function Min(a: nat, b: nat): nat { if a <= b then a else b }

  function NextDelay(spec: Spec, delays: map<string, nat>, event: string, ran: nat): nat {
    if event !in delays || ran >= spec.restartMaxDelay then spec.restartDelay
    else Min(2 * delays[event], spec.restartMaxDelay)
  }

  predicate Restarts(mem: Mem, event: string, status: Status) {
    !mem.stopping && event in mem.specs && RestartsAfter(mem.specs[event].restart, status)
  }

  function Restarted(w: World, event: string, status: Status, ran: nat, now: int): World {
    if !Restarts(w.mem, event, status) then w
    else
      var spec := w.mem.specs[event];
      var delay := NextDelay(spec, w.mem.restartDelays, event, ran);
      World(Insert(w.db, Firing(event, Restart, 0, true, Some(Ms(now + delay))), MaxQueued(spec), now),
            w.mem.(restartDelays := w.mem.restartDelays[event := delay]))
  }

  function Finished(w: World, id: nat, event: string, res: Result, now: int): World {
    var w1 := RowFinished(w, id, res, now);
    Restarted(w1.(mem := MapsFinished(w1.mem, id, event)), event, Outcome(res), res.ran, now)
  }

  // schedule, continued: the rows of one batch in order

  const PAYLOAD_INVALID: Result := Result(-1, "start_failed", "payload_invalid", 0)

  /** In each event under the replace policy, the newest row of the batch. */
  function Newest(mem: Mem, runs: seq<Run>): map<string, nat> {
    if runs == [] then map[]
    else
      var last := runs[|runs| - 1];
      var m := Newest(mem, runs[..|runs| - 1]);
      if HasPolicy(mem, last.row.event, PolicyReplace) then m[last.row.event := last.id] else m
  }

  predicate Outdated(newest: map<string, nat>, run: Run) {
    run.row.event in newest && newest[run.row.event] != run.id
  }

  /** A scan: the world it leaves, whether it made progress, and whether a run that ended in it woke the
      loop. */
  datatype Scanned = Scanned(w: World, progressed: bool, woke: bool)

  function SettledAs(w: World, id: nat, status: Status, reason: string, now: int): World {
    w.(db := Settle(w.db, id, status, reason, now))
  }

  function Examined(w: World, run: Run, now: int): Scanned {
    var e := run.row.event;
    if e !in w.mem.specs then Scanned(SettledAs(w, run.id, Dropped, "event_removed", now), true, false)
    else
      var spec := w.mem.specs[e];
      if run.row.kind.Restart? && spec.restart.RestartNever? then
        Scanned(SettledAs(w, run.id, Dropped, "restart_disabled", now), true, false)
      else if spec.policy.PolicySkip? && Count(w.mem, e) > 0 then
        if IsQueued(w.db, run.id)
        then Scanned(SkipCounted(SettledAs(w, run.id, Skipped, "already_running", now), e), true, false)
        else Scanned(w, true, false)
      else if spec.policy.PolicyQueue? && Count(w.mem, e) > 0 then Scanned(w, false, false)
      else if spec.policy.PolicyReplace? && Count(w.mem, e) > 0 then
        Scanned(w.(mem := ReplaceAsked(w.mem, e)), false, false)
      else if !IsQueued(w.db, run.id) then Scanned(w, false, false)
      else
        var started := Started(w, run.id, e, spec.policy);
        if run.row.readable then Scanned(started, true, false)
        else Scanned(Finished(started, run.id, e, PAYLOAD_INVALID, now), true, true)
  }

  function ScanRow(s: Scanned, run: Run, newest: map<string, nat>, now: int): Scanned {
    if Outdated(newest, run) then Scanned(SettledAs(s.w, run.id, Skipped, "replaced", now), true, s.woke)
    else
      var x := Examined(s.w, run, now);
      Scanned(x.w, s.progressed || x.progressed, s.woke || x.woke)
  }

  function ScanRows(s: Scanned, runs: seq<Run>, newest: map<string, nat>, now: int): Scanned
    decreases |runs|
  {
    if runs == [] then s
    else if s.w.mem.stopping && !Outdated(newest, runs[0]) then s
    else ScanRows(ScanRow(s, runs[0], newest, now), runs[1..], newest, now)
  }

  function Batch(w: World, batch: nat, now: int): seq<Run> {
    QueuedRuns(w.db, batch, Waiting(w.mem), now)
  }

  function Scan(w: World, batch: nat, now: int): Scanned {
    var runs := Batch(w, batch, now);
    ScanRows(Scanned(w, false, false), runs, Newest(w.mem, runs), now)
  }

  /** Whether a scan wakes the loop for the next one. */
  predicate Wakes(w: World, batch: nat, now: int) {
    Scan(w, batch, now).woke || (Scan(w, batch, now).progressed && |Batch(w, batch, now)| == batch)
  }
}
