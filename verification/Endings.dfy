/** What a run leaves when it ends, told by its result: the status of its row, the restart of its event,
    and the indexes without it. */
module Endings {
  import opened Queue
  import opened Dispatch
  import opened Statements

  /** A command that ran to its end without an error and exited with 0, while the agent was not stopping. */
  predicate EndedWell(res: Result) {
    res.exitCode == 0 && res.error == "" && res.reason != "shutdown"
  }

  /** A run that ended by itself, but not well. */
  predicate EndedBadly(res: Result) {
    res.reason != "shutdown" && res.error != "canceled" && (res.exitCode != 0 || res.error != "")
  }

  /** status is that of a run with this result. */
  predicate StatusFits(status: Status, res: Result) {
    && (status.Interrupted? <==> res.reason == "shutdown")
    && (status.Canceled? <==> res.error == "canceled" && res.reason != "shutdown")
    && (status.Succeeded? <==> EndedWell(res))
    && (status.Failed? <==> EndedBadly(res))
  }

  lemma FinishedRow(w: World, id: nat, event: string, res: Result, now: int)
    requires Numbered(w.db) && id in w.db.rows
    ensures var d := Finished(w, id, event, res, now).db;
            && id in d.rows && StatusFits(d.rows[id].status, res)
            && d.rows[id] == w.db.rows[id].(status := d.rows[id].status, reason := res.reason,
                                            finishedAt := Some(now / 1_000_000), cancelRequested := false)
            && (forall x | x in w.db.rows && x != id :: x in d.rows && d.rows[x] == w.db.rows[x])
  {
    RestartKeepsRows(FinishedWorld(w, id, event, res, now), event, Outcome(res), res.ran, now);
  }

  /** Before the event restarts. */
  function FinishedWorld(w: World, id: nat, event: string, res: Result, now: int): World {
    var w1 := RowFinished(w, id, res, now);
    w1.(mem := MapsFinished(w1.mem, id, event))
  }

  lemma RestartKeepsRows(w: World, event: string, status: Status, ran: nat, now: int)
    requires w.db.nextId !in w.db.rows
    ensures forall x | x in w.db.rows :: x in Restarted(w, event, status, ran, now).db.rows
                                         && Restarted(w, event, status, ran, now).db.rows[x] == w.db.rows[x]
  {
  }

  /** The event restarts after a run with this result. */
  predicate RestartsWith(policy: RestartPolicy, res: Result) {
    (policy.RestartAlways? && (EndedWell(res) || EndedBadly(res))) || (policy.RestartOnFailure? && EndedBadly(res))
  }

  /** The delay of a restart is the first one, or, after a run that was too short, twice the last one up to
      the largest. */
  predicate DelayFits(spec: Spec, delays: map<string, nat>, event: string, ran: nat, delay: nat) {
    if event in delays && ran < spec.restartMaxDelay
    then (2 * delays[event] <= spec.restartMaxDelay ==> delay == 2 * delays[event])
         && (2 * delays[event] >= spec.restartMaxDelay ==> delay == spec.restartMaxDelay)
    else delay == spec.restartDelay
  }

  lemma RestartAdds(w: World, event: string, status: Status, ran: nat, now: int)
    requires Numbered(w.db) && !w.mem.stopping && event in w.mem.specs && RestartsAfter(w.mem.specs[event].restart, status)
    ensures var n, w' := w.db.nextId, Restarted(w, event, status, ran, now);
            var delay := w'.mem.restartDelays[event];
            && AddsOne(w.db, w'.db) && event in w'.mem.restartDelays
            && w'.mem == w.mem.(restartDelays := w.mem.restartDelays[event := delay])
            && DelayFits(w.mem.specs[event], w.mem.restartDelays, event, ran, delay)
            && FirstAttempt(w'.db.rows[n], event, Restart, 0, true, Some((now + delay) / 1_000_000),
                            w.mem.specs[event].policy.PolicyQueue? && |QueuedIds(w.db, event)| >= 1000, now)
  {
    var spec := w.mem.specs[event];
    var delay := NextDelay(spec, w.mem.restartDelays, event, ran);
    InsertedRow(w.db, Firing(event, Restart, 0, true, Some(Ms(now + delay))), MaxQueued(spec), now);
  }

  /** The rows of event that are queued once run id has ended. */
  lemma QueuedAfterEnd(w: World, id: nat, event: string, res: Result, now: int)
    requires id in w.db.rows
    ensures QueuedIds(FinishedWorld(w, id, event, res, now).db, event) == QueuedIds(w.db, event) - {id}
  {
  }

  /** A restart is queued if and only if the agent is not stopping and the event's policy is always, or
      on-failure and the run ended badly, and the run was neither canceled nor cut off. It waits for the delay.
      It is dropped instead if the event is under the queue policy and 1000 others of it are queued. */
  lemma FinishedRestarts(w: World, id: nat, event: string, res: Result, now: int)
    requires Numbered(w.db) && id in w.db.rows
    ensures var n, w' := w.db.nextId, Finished(w, id, event, res, now);
            if !w.mem.stopping && event in w.mem.specs && RestartsWith(w.mem.specs[event].restart, res) then
              && w'.db.nextId == n + 1 && n in w'.db.rows && event in w'.mem.restartDelays
              && DelayFits(w.mem.specs[event], w.mem.restartDelays, event, res.ran, w'.mem.restartDelays[event])
              && FirstAttempt(w'.db.rows[n], event, Restart, 0, true, Some((now + w'.mem.restartDelays[event]) / 1_000_000),
                              w.mem.specs[event].policy.PolicyQueue? && |QueuedIds(w.db, event) - {id}| >= 1000, now)
              && w'.mem.restartDelays == w.mem.restartDelays[event := w'.mem.restartDelays[event]]
            else w'.db.nextId == n && n !in w'.db.rows && w'.mem.restartDelays == w.mem.restartDelays
  {
    var w1 := FinishedWorld(w, id, event, res, now);
    QueuedAfterEnd(w, id, event, res, now);
    OutcomeFits(res);
    if !w.mem.stopping && event in w.mem.specs && RestartsWith(w.mem.specs[event].restart, res) {
      RestartAdds(w1, event, Outcome(res), res.ran, now);
    }
  }

  lemma OutcomeFits(res: Result)
    ensures StatusFits(Outcome(res), res)
    ensures forall policy :: RestartsAfter(policy, Outcome(res)) <==> RestartsWith(policy, res)
  {
  }

  /** The run is out of the indexes: its event counts one run less, and no longer has it as the active one.
      Nothing else changes but the restart delay. */
  lemma FinishedIndexes(w: World, id: nat, event: string, res: Result, now: int)
    ensures var mem, m := w.mem, Finished(w, id, event, res, now).mem;
            && m.specs == mem.specs && m.follows == mem.follows && m.stopping == mem.stopping
            && m.cancels == mem.cancels - {id} && m.cancelSent == mem.cancelSent - {id} && m.runInfo == mem.runInfo - {id}
            && (forall e :: Count(m, e) == if e == event && Count(mem, e) > 0 then Count(mem, e) - 1 else Count(mem, e))
            && (forall e :: e in m.active <==> e in mem.active && !(e == event && mem.active[e].runId == id))
            && (forall e | e in m.active :: m.active[e] == mem.active[e])
  {
  }
}
