/** The replace policy: a scan asks the run in progress to stop for a new firing of its event, and of several
    new firings only the newest one stays. */
module Replacing {
  import opened Queue
  import opened Dispatch
  import opened Protocol
  import opened Safety
  import opened Scans

  /** The run in progress of the event, if there is an active one, is to be replaced. */
  predicate Asked(mem: Mem, e: string) {
    e in mem.active ==> mem.active[e].replacing
  }

  predicate RunsReplaced(mem: Mem, e: string) {
    HasPolicy(mem, e, PolicyReplace) && Count(mem, e) > 0
  }

  // One row

  lemma StartKeepsAsked(w: World, id: nat, x: string, policy: Policy, now: int, e: string)
    requires RunsReplaced(w.mem, e) && Asked(w.mem, e) && x != e
    ensures Asked(Started(w, id, x, policy).mem, e)
    ensures Asked(Finished(Started(w, id, x, policy), id, x, PAYLOAD_INVALID, now).mem, e)
  {
  }

  lemma ExaminedKeepsAsked(w: World, run: Run, now: int, e: string)
    requires RunsReplaced(w.mem, e) && Asked(w.mem, e)
    ensures Asked(Examined(w, run, now).w.mem, e)
  {
    var x := run.row.event;
    if x in w.mem.specs && (Count(w.mem, x) == 0 || w.mem.specs[x].policy.PolicyParallel?) {
      StartKeepsAsked(w, run.id, x, w.mem.specs[x].policy, now, e);
    } else if HasPolicy(w.mem, x, PolicySkip) {
      SkipKeepsAsked(SettledAs(w, run.id, Skipped, "already_running", now), x, e);
    }
  }

  lemma SkipKeepsAsked(w: World, x: string, e: string)
    requires Asked(w.mem, e) && x != e
    ensures Asked(SkipCounted(w, x).mem, e)
  {
  }

  lemma ExaminedAsks(w: World, run: Run, now: int)
    requires RunsReplaced(w.mem, run.row.event) && !(run.row.kind.Restart? && w.mem.specs[run.row.event].restart.RestartNever?)
    ensures Asked(Examined(w, run, now).w.mem, run.row.event)
  {
  }

  // A scan

  lemma {:induction false} ScanKeepsAsked(s: Scanned, runs: seq<Run>, newest: map<string, nat>, now: int, e: string)
    requires Numbered(s.w.db) && !s.w.mem.stopping
    requires Ready(s.w.db, runs) && forall r | r in runs :: Due(s.w.db.rows[r.id], now)
    requires RunsReplaced(s.w.mem, e) && Asked(s.w.mem, e)
    ensures Asked(ScanRows(s, runs, newest, now).w.mem, e)
    decreases |runs|
  {
    if runs != [] {
      var t := NextRow(s, runs, newest, now);
      if !Outdated(newest, runs[0]) { ExaminedKeepsAsked(s.w, runs[0], now, e); }
      assert Blocked(s.w.mem, e);
      ScanKeepsAsked(t, runs[1..], newest, now, e);
    }
  }

  /** A row of a batch that stays queued under the replace policy was answered by asking the run in progress to
      stop. */
  lemma {:induction false} ScanAsks(s: Scanned, runs: seq<Run>, newest: map<string, nat>, now: int, r: Run)
    requires Numbered(s.w.db) && !s.w.mem.stopping
    requires Ready(s.w.db, runs) && forall r | r in runs :: Due(s.w.db.rows[r.id], now)
    requires r in runs && IsQueued(ScanRows(s, runs, newest, now).w.db, r.id) && HasPolicy(s.w.mem, r.row.event, PolicyReplace)
    ensures Asked(ScanRows(s, runs, newest, now).w.mem, r.row.event)
    decreases |runs|
  {
    assert runs[0] in runs;
    var t := NextRow(s, runs, newest, now);
    if r == runs[0] {
      ScanLeft(t, runs[1..], newest, now);
      assert Held(s.w.mem, r, newest);
      ExaminedAsks(s.w, r, now);
      ScanKeepsAsked(t, runs[1..], newest, now, r.row.event);
    } else {
      assert runs == [runs[0]] + runs[1..];
      ScanAsks(t, runs[1..], newest, now, r);
    }
  }

  /** Whenever a scan does not wake the next one, the run in progress of a replace-policy event that has a due
      row is to be replaced. */
  lemma DueRowsAsk(w: World, batch: nat, now: int, id: nat)
    requires Numbered(w.db) && !w.mem.stopping && |RunningReplaced(w.mem)| < batch
    requires !Wakes(w, batch, now)
    requires var d := Scan(w, batch, now).w.db; id in d.rows && Due(d.rows[id], now)
    requires HasPolicy(Scan(w, batch, now).w.mem, Scan(w, batch, now).w.db.rows[id].event, PolicyReplace)
    ensures Asked(Scan(w, batch, now).w.mem, Scan(w, batch, now).w.db.rows[id].event)
  {
    var runs := Batch(w, batch, now);
    var newest, s := Newest(w.mem, runs), Scanned(w, false, false);
    BatchReady(w, batch, now);
    ScanLeft(s, runs, newest, now);
    if |runs| == batch {
      FullBatchProgresses(w, batch, now);
    }
    SelectMeaning(w.db.rows, 0, w.db.nextId, DueOutside(now, Waiting(w.mem)), batch);
    assert w.db.rows[id].event !in Waiting(w.mem);
    ScanAsks(s, runs, newest, now, Run(id, w.db.rows[id]));
  }

  // Only the newest firing stays

  /** A newer firing of the same event is among runs. */
  ghost predicate Superseded(runs: seq<Run>, r: Run) {
    exists x :: x in runs && x.row.event == r.row.event && x.id > r.id
  }

  predicate IsNewest(runs: seq<Run>, e: string, id: nat) {
    && (exists r :: r in runs && r.row.event == e && r.id == id)
    && (forall r | r in runs && r.row.event == e :: r.id <= id)
  }

  lemma LastIsNewest(init: seq<Run>, last: Run)
    requires Ascending(init + [last])
    ensures Ascending(init) && IsNewest(init + [last], last.row.event, last.id)
  {
    var runs := init + [last];
    assert runs[|init|] == last;
    assert forall i | 0 <= i < |init| :: runs[i] == init[i];
  }

  lemma StillNewest(init: seq<Run>, last: Run, e: string, id: nat)
    requires IsNewest(init, e, id) && last.row.event != e
    ensures IsNewest(init + [last], e, id)
  {
    var r :| r in init && r.row.event == e && r.id == id;
    assert r in init + [last];
  }

  ghost predicate NamesNewest(mem: Mem, runs: seq<Run>, newest: map<string, nat>, e: string) {
    && (e in newest <==> HasPolicy(mem, e, PolicyReplace) && exists r :: r in runs && r.row.event == e)
    && (e in newest ==> IsNewest(runs, e, newest[e]))
  }

  lemma OneMoreNewest(mem: Mem, init: seq<Run>, last: Run, newest: map<string, nat>, e: string)
    requires Ascending(init + [last]) && NamesNewest(mem, init, newest, e)
    ensures NamesNewest(mem, init + [last],
                        if HasPolicy(mem, last.row.event, PolicyReplace) then newest[last.row.event := last.id] else newest, e)
  {
    assert last in init + [last];
    if e == last.row.event {
      LastIsNewest(init, last);
    } else {
      assert forall r | r in init + [last] && r.row.event == e :: r in init;
      assert forall r | r in init :: r in init + [last];
      if e in newest { StillNewest(init, last, e, newest[e]); }
    }
  }

  /** newest names the newest row of each replace-policy event. */
  lemma {:induction false} NewestMeaning(mem: Mem, runs: seq<Run>, e: string)
    requires Ascending(runs)
    ensures NamesNewest(mem, runs, Newest(mem, runs), e)
  {
    if runs != [] {
      var init, last := runs[..|runs| - 1], runs[|runs| - 1];
      assert runs == init + [last];
      LastIsNewest(init, last);
      NewestMeaning(mem, init, e);
      OneMoreNewest(mem, init, last, Newest(mem, init), e);
    }
  }

  lemma OutdatedMeaning(mem: Mem, runs: seq<Run>, r: Run)
    requires Ascending(runs) && r in runs
    ensures Outdated(Newest(mem, runs), r) <==> HasPolicy(mem, r.row.event, PolicyReplace) && Superseded(runs, r)
  {
    NewestMeaning(mem, runs, r.row.event);
  }

  /** A scan of the running agent skips every row of a replace-policy event that has a newer one in its batch. */
  lemma SupersededAreSkipped(w: World, batch: nat, now: int, r: Run)
    requires Numbered(w.db) && !w.mem.stopping
    requires r in Batch(w, batch, now) && HasPolicy(w.mem, r.row.event, PolicyReplace) && Superseded(Batch(w, batch, now), r)
    ensures var d := Scan(w, batch, now).w.db; r.id in d.rows && d.rows[r.id].status.Skipped?
  {
    var runs := Batch(w, batch, now);
    BatchReady(w, batch, now);
    OutdatedMeaning(w.mem, runs, r);
    OutdatedAreSkipped(Scanned(w, false, false), runs, Newest(w.mem, runs), now, r);
  }

  lemma {:induction false} OutdatedAreSkipped(s: Scanned, runs: seq<Run>, newest: map<string, nat>, now: int, r: Run)
    requires Numbered(s.w.db) && !s.w.mem.stopping
    requires Ready(s.w.db, runs) && forall r | r in runs :: Due(s.w.db.rows[r.id], now)
    requires r in runs && Outdated(newest, r)
    ensures var d := ScanRows(s, runs, newest, now).w.db; r.id in d.rows && d.rows[r.id].status.Skipped?
    decreases |runs|
  {
    assert runs[0] in runs;
    var t := NextRow(s, runs, newest, now);
    if r == runs[0] {
      StatusStays(t, runs[1..], newest, now, r.id);
    } else {
      assert runs == [runs[0]] + runs[1..];
      OutdatedAreSkipped(t, runs[1..], newest, now, r);
    }
  }

  /** The rest of a scan leaves the rows alone that are not among its own. */
  lemma {:induction false} StatusStays(s: Scanned, runs: seq<Run>, newest: map<string, nat>, now: int, id: nat)
    requires Numbered(s.w.db) && !s.w.mem.stopping
    requires Ready(s.w.db, runs) && forall r | r in runs :: Due(s.w.db.rows[r.id], now)
    requires id in s.w.db.rows && !s.w.db.rows[id].status.Queued?
    ensures var d := ScanRows(s, runs, newest, now).w.db; id in d.rows && d.rows[id].status == s.w.db.rows[id].status
    decreases |runs|
  {
    if runs != [] {
      var t := NextRow(s, runs, newest, now);
      StatusStays(t, runs[1..], newest, now, id);
    }
  }

  // Who is active

  /** While an event is never parallel, the run of it in progress is the active one. */
  predicate RunIsActive(mem: Mem, event: string) {
    OneAtATime(mem, event) && (Count(mem, event) > 0 ==> event in mem.active)
  }

  lemma StepActive(s: State, l: Label, event: string)
    requires Inv(s) && Enabled(s, l) && NeverParallel(l, event) && RunIsActive(s.w.mem, event)
    ensures RunIsActive(Apply(s, l).w.mem, event)
  {
    StepOneAtATime(s, l, event);
    if l.Start? {
      if IsQueued(s.w.db, l.id) { StartedIsActive(s, l.id); }
    } else if !l.FinishMaps? && !l.Boot? && !l.Crash? {
      StepSameRuns(s, l);
    }
  }

  /** A start under skip, queue or replace makes the run the active one of its event, with a context of its own
      that nobody canceled; under parallel, nothing changes but the indexes of the run. */
  lemma StartedIsActive(s: State, id: nat)
    requires Inv(s) && Enabled(s, Start(id)) && IsQueued(s.w.db, id)
    ensures var mem, m, e := s.w.mem, Apply(s, Start(id)).w.mem, s.w.db.rows[id].event;
            && e in mem.specs && m.runInfo == mem.runInfo[id := e] && m.cancels == mem.cancels[id := None]
            && m.active == (if mem.specs[e].policy.PolicyParallel? then mem.active else mem.active[e := Active(id, 0, false)])
            && (forall x :: Count(m, x) == if x == e then Count(mem, x) + 1 else Count(mem, x))
  {
  }

  lemma {:induction false} RunActive(s: State, ls: seq<Label>, event: string)
    requires Inv(s) && Runs(s, ls) && RunIsActive(s.w.mem, event) && forall l | l in ls :: NeverParallel(l, event)
    ensures RunIsActive(Exec(s, ls).w.mem, event)
    decreases |ls|
  {
    if ls != [] {
      StepInv(s, ls[0]);
      StepActive(s, ls[0], event);
      RunActive(Apply(s, ls[0]), ls[1..], event);
    }
  }
}
