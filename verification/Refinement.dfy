/** The methods of the dispatcher are runs of the protocol: what module Dispatching promises about
    each method is what some sequence of labels does. So whatever every run of the protocol keeps,
    every method keeps, and every interleaving of their pieces. */
module Refinement {
  import opened Queue
  import opened Dispatch
  import opened Dispatching
  import opened Protocol

  lemma {:induction false} ExecConcat(s: State, a: seq<Label>, b: seq<Label>)
    requires Runs(s, a) && Runs(Exec(s, a), b)
    ensures Runs(s, a + b) && Exec(s, a + b) == Exec(Exec(s, a), b)
    decreases |a|
  {
    if a == [] {
      assert a + b == b;
    } else {
      ExecConcat(Apply(s, a[0]), a[1..], b);
      assert (a + b)[1..] == a[1..] + b;
    }
  }

  lemma ExecOne(s: State, l: Label)
    requires Enabled(s, l)
    ensures Runs(s, [l]) && Exec(s, [l]) == Apply(s, l)
  {
    assert [l][1..] == [];
  }

  lemma ExecMore(s: State, a: seq<Label>, l: Label)
    requires Runs(s, a) && Enabled(Exec(s, a), l)
    ensures Runs(s, a + [l]) && Exec(s, a + [l]) == Apply(Exec(s, a), l)
  {
    ExecOne(Exec(s, a), l);
    ExecConcat(s, a, [l]);
  }

  // A scan

  function CountLabels(mem: Mem, e: string): seq<Label> {
    if e in mem.active then [CountSkip(e, mem.active[e].runId)] else []
  }

  function ExamineLabels(w: World, run: Run): seq<Label> {
    var e, id := run.row.event, run.id;
    if e !in w.mem.specs then [SettleRow(id, Dropped, "event_removed")]
    else
      var spec := w.mem.specs[e];
      if run.row.kind.Restart? && spec.restart.RestartNever? then [SettleRow(id, Dropped, "restart_disabled")]
      else if spec.policy.PolicySkip? && Count(w.mem, e) > 0 then
        [SettleRow(id, Skipped, "already_running")] + (if IsQueued(w.db, id) then CountLabels(w.mem, e) else [])
      else if spec.policy.PolicyQueue? && Count(w.mem, e) > 0 then []
      else if spec.policy.PolicyReplace? && Count(w.mem, e) > 0 then [AskReplace(e)]
      else if !IsQueued(w.db, id) then []
      else if run.row.readable then [Start(id)]
      else [Start(id)] + FinishLabels(id, e, PAYLOAD_INVALID)
  }

  function RowLabels(w: World, run: Run, newest: map<string, nat>): seq<Label> {
    if Outdated(newest, run) then [SettleRow(run.id, Skipped, "replaced")] else [Check] + ExamineLabels(w, run)
  }

  function ScanLabels(s: Scanned, runs: seq<Run>, newest: map<string, nat>, now: int): seq<Label>
    decreases |runs|
  {
    if runs == [] || (s.w.mem.stopping && !Outdated(newest, runs[0])) then []
    else RowLabels(s.w, runs[0], newest) + ScanLabels(ScanRow(s, runs[0], newest, now), runs[1..], newest, now)
  }

  /** The rows as the scan read them still are the rows of the table, whatever their status. */
  ghost predicate AsRead(db: Db, runs: seq<Run>) {
    forall r | r in runs :: r.id < db.nextId && (r.id in db.rows ==> SameFiring(db.rows[r.id], r.row))
  }

  lemma SettleIsRun(s: State, id: nat, status: Status, reason: string)
    requires s.phase.Up? && (status.Skipped? || status.Dropped?)
    ensures Runs(s, [SettleRow(id, status, reason)])
    ensures Exec(s, [SettleRow(id, status, reason)]).w == SettledAs(s.w, id, status, reason, s.now)
    ensures Exec(s, [SettleRow(id, status, reason)]).starts == s.starts
  {
    ExecOne(s, SettleRow(id, status, reason));
  }

  lemma SkipIsRun(s: State, id: nat, e: string)
    requires s.phase.Up? && IsQueued(s.w.db, id)
    ensures var ls := [SettleRow(id, Skipped, "already_running")] + CountLabels(s.w.mem, e);
            && Runs(s, ls) && Exec(s, ls).w == SkipCounted(SettledAs(s.w, id, Skipped, "already_running", s.now), e)
            && Exec(s, ls).starts == s.starts
  {
    var settle := SettleRow(id, Skipped, "already_running");
    SettleIsRun(s, id, Skipped, "already_running");
    if e in s.w.mem.active {
      ExecMore(s, [settle], CountSkip(e, s.w.mem.active[e].runId));
    } else {
      assert [settle] + [] == [settle];
    }
  }

  lemma StartApplied(s: State, id: nat)
    requires Inv(s) && Enabled(s, Start(id)) && IsQueued(s.w.db, id)
    ensures var s', e := Apply(s, Start(id)), s.w.db.rows[id].event;
            && s'.w == Started(s.w, id, e, s.w.mem.specs[e].policy)
            && s'.starts == s.starts + [id] && s'.finishing == s.finishing && s'.phase.Up? && s'.now == s.now
            && id in s'.w.mem.runInfo && s'.w.mem.runInfo[id] == e && id !in s'.finishing
  {
    assert OwnedRow(s, id);
  }

  lemma FinishApplied(s: State, id: nat, res: Result)
    requires Enabled(s, FinishRow(id, res))
    ensures var s1 := Apply(s, FinishRow(id, res));
            && s1.w == RowFinished(s.w, id, res, s.now) && s1.starts == s.starts
            && s1.phase.Up? && s1.now == s.now && Enabled(s1, FinishMaps(id))
            && Apply(s1, FinishMaps(id)).w == s1.w.(mem := MapsFinished(s1.w.mem, id, s.w.mem.runInfo[id]))
            && Apply(s1, FinishMaps(id)).starts == s.starts
            && Apply(s1, FinishMaps(id)).phase.Up? && Apply(s1, FinishMaps(id)).now == s.now
  {
  }

  lemma RestartApplied(s: State, e: string, status: Status, ran: nat)
    requires s.phase.Up?
    ensures Enabled(s, RestartEvent(e, status, ran))
    ensures Apply(s, RestartEvent(e, status, ran)).w == Restarted(s.w, e, status, ran, s.now)
    ensures Apply(s, RestartEvent(e, status, ran)).starts == s.starts
  {
  }

  function FinishLabels(id: nat, e: string, res: Result): seq<Label> {
    [FinishRow(id, res), FinishMaps(id), RestartEvent(e, Outcome(res), res.ran)]
  }

  /** Finish is a run of the protocol: three steps between which anything can happen. */
  lemma FinishIsRun(s: State, id: nat, res: Result)
    requires Enabled(s, FinishRow(id, res))
    ensures var e := s.w.mem.runInfo[id];
            && Runs(s, FinishLabels(id, e, res)) && Exec(s, FinishLabels(id, e, res)).w == Finished(s.w, id, e, res, s.now)
            && Exec(s, FinishLabels(id, e, res)).starts == s.starts
  {
    var e := s.w.mem.runInfo[id];
    var s1 := Apply(s, FinishRow(id, res));
    FinishApplied(s, id, res);
    var s2 := Apply(s1, FinishMaps(id));
    RestartApplied(s2, e, Outcome(res), res.ran);
    ExecOne(s2, RestartEvent(e, Outcome(res), res.ran));
    var a, b, c := FinishRow(id, res), FinishMaps(id), RestartEvent(e, Outcome(res), res.ran);
    assert FinishLabels(id, e, res)[1..] == [b, c] && [b, c][1..] == [c];
  }

  /** An unreadable run starts and ends within the scan. */
  lemma UnreadableIsRun(s: State, id: nat, e: string)
    requires Inv(s) && Enabled(s, Start(id)) && IsQueued(s.w.db, id) && s.w.db.rows[id].event == e
    ensures var ls := [Start(id)] + FinishLabels(id, e, PAYLOAD_INVALID);
            && Runs(s, ls)
            && Exec(s, ls).w == Finished(Started(s.w, id, e, s.w.mem.specs[e].policy), id, e, PAYLOAD_INVALID, s.now)
            && Exec(s, ls).starts == s.starts + [id]
  {
    StartApplied(s, id);
    ExecOne(s, Start(id));
    FinishIsRun(Apply(s, Start(id)), id, PAYLOAD_INVALID);
    ExecConcat(s, [Start(id)], FinishLabels(id, e, PAYLOAD_INVALID));
  }

  /** Whether examining a row starts its run. */
  predicate Starts(w: World, run: Run) {
    ExamineLabels(w, run) != [] && ExamineLabels(w, run)[0].Start?
  }

  lemma StartIsRun(s: State, run: Run)
    requires Inv(s) && s.phase.Up? && s.armed && IsQueued(s.w.db, run.id) && SameFiring(s.w.db.rows[run.id], run.row)
    requires MayStart(s.w, run.row.event)
    ensures var e := run.row.event;
            var ls := [Start(run.id)] + (if run.row.readable then [] else FinishLabels(run.id, e, PAYLOAD_INVALID));
            var w := Started(s.w, run.id, e, s.w.mem.specs[e].policy);
            && Runs(s, ls) && Exec(s, ls).starts == s.starts + [run.id]
            && Exec(s, ls).w == if run.row.readable then w else Finished(w, run.id, e, PAYLOAD_INVALID, s.now)
  {
    if run.row.readable {
      StartApplied(s, run.id);
      ExecOne(s, Start(run.id));
      assert [Start(run.id)] + [] == [Start(run.id)];
    } else {
      UnreadableIsRun(s, run.id, run.row.event);
    }
  }

  lemma ReplaceIsRun(s: State, e: string)
    requires s.phase.Up?
    ensures Runs(s, [AskReplace(e)]) && Exec(s, [AskReplace(e)]).w == s.w.(mem := ReplaceAsked(s.w.mem, e))
    ensures Exec(s, [AskReplace(e)]).starts == s.starts
  {
    ExecOne(s, AskReplace(e));
  }

  lemma ExamineIsRun(s: State, run: Run)
    requires Inv(s) && s.phase.Up? && s.armed && AsRead(s.w.db, [run])
    ensures var ls := ExamineLabels(s.w, run);
            && Runs(s, ls) && Exec(s, ls).w == Examined(s.w, run, s.now).w
            && Exec(s, ls).starts == s.starts + (if Starts(s.w, run) then [run.id] else [])
            && (forall l | l in ls :: !l.Crash? && !l.Tick?)
  {
    assert run in [run];
    var e, id, mem := run.row.event, run.id, s.w.mem;
    if e !in mem.specs {
      SettleIsRun(s, id, Dropped, "event_removed");
    } else {
      var spec := mem.specs[e];
      if run.row.kind.Restart? && spec.restart.RestartNever? {
        SettleIsRun(s, id, Dropped, "restart_disabled");
      } else if Count(mem, e) > 0 && !spec.policy.PolicyParallel? {
        BusyIsRun(s, run);
      } else if IsQueued(s.w.db, id) {
        StartIsRun(s, run);
      }
    }
  }

  lemma BusyIsRun(s: State, run: Run)
    requires s.phase.Up? && run.row.event in s.w.mem.specs && Count(s.w.mem, run.row.event) > 0
    requires var spec := s.w.mem.specs[run.row.event];
             !spec.policy.PolicyParallel? && !(run.row.kind.Restart? && spec.restart.RestartNever?)
    ensures var ls := ExamineLabels(s.w, run);
            && Runs(s, ls) && Exec(s, ls).w == Examined(s.w, run, s.now).w && Exec(s, ls).starts == s.starts
            && !Starts(s.w, run) && (forall l | l in ls :: !l.Crash? && !l.Tick?)
  {
    var e, id := run.row.event, run.id;
    var spec := s.w.mem.specs[e];
    if spec.policy.PolicySkip? {
      if IsQueued(s.w.db, id) {
        SkipIsRun(s, id, e);
      } else {
        SettleIsRun(s, id, Skipped, "already_running");
        assert [SettleRow(id, Skipped, "already_running")] + [] == [SettleRow(id, Skipped, "already_running")];
      }
    } else if spec.policy.PolicyReplace? {
      ReplaceIsRun(s, e);
    }
  }

  lemma {:induction false} ExecPhase(s: State, ls: seq<Label>)
    requires Runs(s, ls) && s.phase.Up? && forall l | l in ls :: !l.Crash? && !l.Tick?
    ensures Exec(s, ls).phase.Up? && Exec(s, ls).now == s.now
    decreases |ls|
  {
    if ls != [] {
      PhaseStays(s, ls[0]);
      ExecPhase(Apply(s, ls[0]), ls[1..]);
    }
  }

  lemma PhaseStays(s: State, l: Label)
    requires Enabled(s, l) && s.phase.Up? && !l.Crash? && !l.Tick?
    ensures Apply(s, l).phase.Up? && Apply(s, l).now == s.now
  {
  }

  lemma RowIsRun(s: State, progressed: bool, woke: bool, run: Run, newest: map<string, nat>)
    requires Inv(s) && s.phase.Up? && AsRead(s.w.db, [run]) && (Outdated(newest, run) || !s.w.mem.stopping)
    ensures var ls := RowLabels(s.w, run, newest);
            && Runs(s, ls) && Exec(s, ls).w == ScanRow(Scanned(s.w, progressed, woke), run, newest, s.now).w
            && Exec(s, ls).starts == s.starts + (if !Outdated(newest, run) && Starts(s.w, run) then [run.id] else [])
            && Exec(s, ls).phase.Up? && Exec(s, ls).now == s.now && Inv(Exec(s, ls))
  {
    if Outdated(newest, run) {
      SettleIsRun(s, run.id, Skipped, "replaced");
    } else {
      ExecOne(s, Check);
      StepInv(s, Check);
      ExamineIsRun(Apply(s, Check), run);
      ExecConcat(s, [Check], ExamineLabels(s.w, run));
    }
    ExecPhase(s, RowLabels(s.w, run, newest));
    RunInv(s, RowLabels(s.w, run, newest));
  }

  lemma {:induction false} StillAsRead(s: State, ls: seq<Label>, runs: seq<Run>)
    requires Inv(s) && Runs(s, ls) && AsRead(s.w.db, runs)
    ensures AsRead(Exec(s, ls).w.db, runs)
    decreases |ls|
  {
    if ls != [] {
      StepInv(s, ls[0]);
      StepExtends(s, ls[0]);
      StillAsRead(Apply(s, ls[0]), ls[1..], runs);
    }
  }

  /** Schedule is a run of the protocol. */
  lemma {:induction false} ScanIsRun(s: State, progressed: bool, woke: bool, runs: seq<Run>, newest: map<string, nat>)
    requires Inv(s) && s.phase.Up? && AsRead(s.w.db, runs)
    ensures var ls := ScanLabels(Scanned(s.w, progressed, woke), runs, newest, s.now);
            Runs(s, ls) && Exec(s, ls).w == ScanRows(Scanned(s.w, progressed, woke), runs, newest, s.now).w
    decreases |runs|
  {
    if runs != [] && !(s.w.mem.stopping && !Outdated(newest, runs[0])) {
      var run, row := runs[0], RowLabels(s.w, runs[0], newest);
      assert forall r | r in [run] :: r in runs;
      RowIsRun(s, progressed, woke, run, newest);
      var s1 := Exec(s, row);
      StillAsRead(s, row, runs);
      assert forall r | r in runs[1..] :: r in runs;
      var p := ScanRow(Scanned(s.w, progressed, woke), run, newest, s.now);
      ScanIsRun(s1, p.progressed, p.woke, runs[1..], newest);
      ExecConcat(s, row, ScanLabels(Scanned(s1.w, p.progressed, p.woke), runs[1..], newest, s.now));
    }
  }

  function ScheduleLabels(s: State, batch: nat): seq<Label> {
    var runs := Batch(s.w, batch, s.now);
    ScanLabels(Scanned(s.w, false, false), runs, Newest(s.w.mem, runs), s.now)
  }

  lemma BatchAsRead(w: World, batch: nat, now: int)
    requires Numbered(w.db)
    ensures var runs := Batch(w, batch, now);
            AsRead(w.db, runs) && forall r | r in runs :: IsQueued(w.db, r.id)
  {
    SelectMeaning(w.db.rows, 0, w.db.nextId, DueOutside(now, Waiting(w.mem)), batch);
  }

  lemma ScheduleIsRun(s: State, batch: nat)
    requires Inv(s) && s.phase.Up?
    ensures Runs(s, ScheduleLabels(s, batch)) && Exec(s, ScheduleLabels(s, batch)).w == Scan(s.w, batch, s.now).w
  {
    BatchAsRead(s.w, batch, s.now);
    ScanIsRun(s, false, false, Batch(s.w, batch, s.now), Newest(s.w.mem, Batch(s.w, batch, s.now)));
  }

  // The other methods

  function HandLabels(runs: seq<Run>): seq<Label> {
    seq(|runs|, i requires 0 <= i < |runs| => Hand(runs[i].id))
  }

  lemma HandApplied(s: State, r: Run)
    requires s.phase.Up? && IsEnded(s.w.db, r)
    ensures Enabled(s, Hand(r.id)) && Apply(s, Hand(r.id)).w == Handed(s.w, r, s.now)
    ensures Apply(s, Hand(r.id)).phase.Up? && Apply(s, Hand(r.id)).now == s.now
  {
  }

  /** Follow is a run of the protocol. */
  lemma {:induction false} FollowIsRun(s: State, runs: seq<Run>)
    requires s.phase.Up? && HandsOn(s.w, runs, s.now)
    ensures Runs(s, HandLabels(runs)) && Exec(s, HandLabels(runs)).w == HandedAll(s.w, runs, s.now)
    ensures Exec(s, HandLabels(runs)).phase.Up? && Exec(s, HandLabels(runs)).now == s.now
  {
    if runs != [] {
      var init, last := runs[..|runs| - 1], runs[|runs| - 1];
      FollowIsRun(s, init);
      FollowOneMore(s, HandLabels(init), last);
      assert HandLabels(runs) == HandLabels(init) + [Hand(last.id)];
    }
  }

  lemma FollowOneMore(s: State, ls: seq<Label>, r: Run)
    requires Runs(s, ls) && Exec(s, ls).phase.Up?
    requires IsEnded(Exec(s, ls).w.db, r)
    ensures Runs(s, ls + [Hand(r.id)]) && Exec(s, ls + [Hand(r.id)]).w == Handed(Exec(s, ls).w, r, Exec(s, ls).now)
    ensures Exec(s, ls + [Hand(r.id)]).phase.Up? && Exec(s, ls + [Hand(r.id)]).now == Exec(s, ls).now
  {
    HandApplied(Exec(s, ls), r);
    ExecMore(s, ls, Hand(r.id));
  }

  function CancelLabels(runs: seq<Run>): seq<Label> {
    seq(|runs|, i requires 0 <= i < |runs| => CancelOne(runs[i].id))
  }

  lemma {:induction false} CancelsAreRun(s: State, runs: seq<Run>)
    requires s.phase.Up? && Ascending(runs) && forall r | r in runs :: r.id in s.pending
    ensures Runs(s, CancelLabels(runs)) && Exec(s, CancelLabels(runs)).w == CancelledAll(s.w, runs, s.now)
    decreases |runs|
  {
    if runs != [] {
      assert runs[0] in runs;
      var s1 := Apply(s, CancelOne(runs[0].id));
      forall r | r in runs[1..] ensures r.id in s1.pending {
        var i :| 0 <= i < |runs[1..]| && runs[1..][i] == r;
        assert runs[i + 1] == r && r in runs;
      }
      CancelsAreRun(s1, runs[1..]);
      assert CancelLabels(runs) == [CancelOne(runs[0].id)] + CancelLabels(runs[1..]);
    }
  }

  /** ProcessCancels is a run of the protocol. */
  lemma ProcessCancelsIsRun(s: State)
    requires Inv(s) && s.phase.Up?
    ensures var runs := CancelRequests(s.w.db);
            var ls := [ReadCancels] + CancelLabels(runs);
            Runs(s, ls) && Exec(s, ls).w == CancelledAll(s.w, runs, s.now)
  {
    var runs := CancelRequests(s.w.db);
    SelectMeaning(s.w.db.rows, 0, s.w.db.nextId, AskedToStop(), s.w.db.nextId);
    ExecOne(s, ReadCancels);
    CancelsAreRun(Apply(s, ReadCancels), runs);
    ExecConcat(s, [ReadCancels], CancelLabels(runs));
  }

  function Repeat(l: Label, n: nat): seq<Label> {
    seq(n, i => l)
  }

  /** Recover, at one reading of the clock, is a run of the protocol. */
  lemma {:induction false} RecoverIsRun(s: State, clock: nat -> int)
    requires s.phase.Recovering? && forall id :: clock(id) == s.now
    ensures var ls := Repeat(RecoverOne, |s.phase.todo|);
            && Runs(s, ls) && Exec(s, ls).w == s.w.(db := RecoverRows(s.w.db, s.w.mem.specs, s.phase.todo, clock))
            && Exec(s, ls).phase == Recovering([])
    decreases |s.phase.todo|
  {
    if s.phase.todo != [] {
      RecoverIsRun(Apply(s, RecoverOne), clock);
      assert Repeat(RecoverOne, |s.phase.todo|) == [RecoverOne] + Repeat(RecoverOne, |s.phase.todo| - 1);
    }
  }
}
