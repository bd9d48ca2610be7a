/** A scan that nothing interrupts is a course of the loop: with the moves of module Looping the loop goes
    from one row to the next exactly as Dispatching.Dispatcher.Schedule does. */
module LoopScans {
  import opened Queue
  import opened Dispatch
  import opened Protocol
  import opened Refinement
  import opened Looping

  ghost predicate Leads(n: Node, ms: seq<Move>, n': Node) {
    Course(n, ms) && Reach(n, ms) == n'
  }

  lemma LeadsFurther(n: Node, ms: seq<Move>, n1: Node, m: Move)
    requires Leads(n, ms, n1) && Permits(n1, m)
    ensures Leads(n, ms + [m], Go(n1, m))
  {
    OneMoreMove(n, ms, m);
  }

  lemma {:induction false} LeadsOn(n: Node, a: seq<Move>, n1: Node, b: seq<Move>, n2: Node)
    requires Leads(n, a, n1) && Leads(n1, b, n2)
    ensures Leads(n, a + b, n2)
    decreases |a|
  {
    if a == [] {
      assert a + b == b;
    } else {
      LeadsOn(Go(n, a[0]), a[1..], n1, b, n2);
      assert (a + b)[1..] == a[1..] + b;
    }
  }

  lemma OneLeads(n: Node, m: Move)
    requires Permits(n, m)
    ensures Leads(n, [m], Go(n, m))
  {
    assert [m][1..] == [];
  }

  lemma TwoLead(n: Node, a: Move, b: Move)
    requires Permits(n, a) && Permits(Go(n, a), b)
    ensures Leads(n, [a, b], Go(Go(n, a), b))
  {
    OneLeads(n, a);
    LeadsFurther(n, [a], Go(n, a), b);
    assert [a] + [b] == [a, b];
  }

  /** The scan is past its first row, with the world w. */
  ghost predicate Past(n: Node, n': Node, w: World)
    requires n.at.Scanning? && n.at.rest != []
  {
    && n'.s.w == w && n'.s.phase.Up? && n'.s.now == n.s.now
    && n'.at.Scanning? && n'.at.rest == n.at.rest[1..] && n'.at.newest == n.at.newest && n'.at.stage.Looking?
  }

  /** The scan is past the shutdown check of its first row. */
  ghost predicate AtVerdict(n: Node) {
    AtRow(n.at, Deciding) && n.s.phase.Up? && n.s.armed && Inv(n.s)
    && var r := n.at.rest[0]; r.id in n.s.w.db.rows && SameFiring(n.s.w.db.rows[r.id], r.row)
  }

  lemma DropLeads(n: Node) returns (ms: seq<Move>, n': Node)
    requires AtVerdict(n) && VerdictOn(n.s.w.mem, n.at.rest[0].row).DropRow?
    ensures Leads(n, ms, n') && Past(n, n', Examined(n.s.w, n.at.rest[0], n.s.now).w)
  {
    var r, v, n1 := n.at.rest[0], VerdictOn(n.s.w.mem, n.at.rest[0].row), Go(n, Decide);
    var settle := Step(SettleRow(r.id, Dropped, v.reason));
    TwoLead(n, Decide, settle);
    ms, n' := [Decide, settle], Go(n1, settle);
  }

  lemma HoldLeads(n: Node) returns (ms: seq<Move>, n': Node)
    requires AtVerdict(n) && VerdictOn(n.s.w.mem, n.at.rest[0].row).HoldRow?
    ensures Leads(n, ms, n') && Past(n, n', Examined(n.s.w, n.at.rest[0], n.s.now).w)
  {
    OneLeads(n, Decide);
    ms, n' := [Decide], Go(n, Decide);
  }

  lemma ReplaceLeads(n: Node) returns (ms: seq<Move>, n': Node)
    requires AtVerdict(n) && VerdictOn(n.s.w.mem, n.at.rest[0].row).Replace?
    ensures Leads(n, ms, n') && Past(n, n', Examined(n.s.w, n.at.rest[0], n.s.now).w)
  {
    var ask := Step(AskReplace(n.at.rest[0].row.event));
    OneLeads(n, ask);
    ms, n' := [ask], Go(n, ask);
  }

  /** The statement of a row that is skipped, with its event's run busy. */
  lemma SkipSettles(n: Node, busy: Option<nat>) returns (n': Node)
    requires AtRow(n.at, Skipping(busy)) && n.s.phase.Up? && Inv(n.s)
    ensures var r, settle := n.at.rest[0], Step(SettleRow(n.at.rest[0].id, Skipped, "already_running"));
            && Permits(n, settle) && n' == Go(n, settle)
            && n'.s.w == SettledAs(n.s.w, r.id, Skipped, "already_running", n.s.now) && n'.s.phase.Up? && n'.s.now == n.s.now
            && n'.at == (if busy.Some? && IsQueued(n.s.w.db, r.id) then n.at.(stage := Counting(busy.value)) else NextRow(n.at))
  {
    n' := Go(n, Step(SettleRow(n.at.rest[0].id, Skipped, "already_running")));
  }

  lemma SkipCounts(n: Node, run: nat) returns (n': Node)
    requires AtRow(n.at, Counting(run)) && n.s.phase.Up?
    ensures var e, count := n.at.rest[0].row.event, Step(CountSkip(n.at.rest[0].row.event, run));
            && Permits(n, count) && n' == Go(n, count) && Past(n, n', CountedOn(n.s.w, e, run))
  {
    n' := Go(n, Step(CountSkip(n.at.rest[0].row.event, run)));
  }

  lemma DecideSkips(n: Node) returns (n': Node, busy: Option<nat>)
    requires AtVerdict(n) && VerdictOn(n.s.w.mem, n.at.rest[0].row).SkipRow?
    ensures var e := n.at.rest[0].row.event;
            && busy == (if e in n.s.w.mem.active then Some(n.s.w.mem.active[e].runId) else None)
            && Permits(n, Decide) && n' == Go(n, Decide) && n' == n.(at := n.at.(stage := Skipping(busy)))
  {
    var e := n.at.rest[0].row.event;
    busy := if e in n.s.w.mem.active then Some(n.s.w.mem.active[e].runId) else None;
    n' := Go(n, Decide);
  }

  lemma SkipExamined(w: World, run: Run, now: int)
    requires VerdictOn(w.mem, run.row).SkipRow?
    ensures var w1, e := SettledAs(w, run.id, Skipped, "already_running", now), run.row.event;
            Examined(w, run, now).w == if !IsQueued(w.db, run.id) then w else if e in w.mem.active then CountedOn(w1, e, w.mem.active[e].runId) else w1
    ensures !IsQueued(w.db, run.id) ==> SettledAs(w, run.id, Skipped, "already_running", now) == w
  {
  }

  lemma SkipLeads(n: Node) returns (ms: seq<Move>, n': Node)
    requires AtVerdict(n) && VerdictOn(n.s.w.mem, n.at.rest[0].row).SkipRow?
    ensures Leads(n, ms, n') && Past(n, n', Examined(n.s.w, n.at.rest[0], n.s.now).w)
  {
    var settle := Step(SettleRow(n.at.rest[0].id, Skipped, "already_running"));
    var n1, busy := DecideSkips(n);
    var n2 := SkipSettles(n1, busy);
    TwoLead(n, Decide, settle);
    SkipExamined(n.s.w, n.at.rest[0], n.s.now);
    if busy.Some? && IsQueued(n.s.w.db, n.at.rest[0].id) {
      var n3 := SkipCounts(n2, busy.value);
      var count := Step(CountSkip(n.at.rest[0].row.event, busy.value));
      LeadsFurther(n, [Decide, settle], n2, count);
      ms, n' := [Decide, settle] + [count], n3;
    } else {
      ms, n' := [Decide, settle], n2;
    }
  }

  lemma StartLeads(n: Node) returns (ms: seq<Move>, n': Node)
    requires AtVerdict(n) && VerdictOn(n.s.w.mem, n.at.rest[0].row).StartRow?
    ensures Leads(n, ms, n') && Past(n, n', Examined(n.s.w, n.at.rest[0], n.s.now).w)
  {
    var r := n.at.rest[0];
    var start := Step(Start(r.id));
    var n1 := Go(n, start);
    OneLeads(n, start);
    if IsQueued(n.s.w.db, r.id) {
      StartApplied(n.s, r.id);
      if !r.row.readable {
        var rest;
        rest, n' := UnreadableLeads(n1, r.id);
        LeadsOn(n, [start], n1, rest, n');
        ms := [start] + rest;
        return;
      }
    }
    ms, n' := [start], n1;
  }

  lemma UnreadableFinishes(n: Node, id: nat) returns (n': Node)
    requires n.at.Scanning? && n.at.stage == Failing(id) && n.s.phase.Up?
    requires id in n.s.w.mem.runInfo && id !in n.s.finishing
    ensures var a, b, event := Step(FinishRow(id, PAYLOAD_INVALID)), Step(FinishMaps(id)), n.s.w.mem.runInfo[id];
            && Leads(n, [a, b], n') && n'.at == n.at && n'.s.phase.Up? && n'.s.now == n.s.now
            && id in n'.ends && n'.ends[id] == Ending(event, Failed, 0)
            && n'.s.w == World(RowFinished(n.s.w, id, PAYLOAD_INVALID, n.s.now).db, MapsFinished(n.s.w.mem, id, event))
  {
    var a, b := Step(FinishRow(id, PAYLOAD_INVALID)), Step(FinishMaps(id));
    FinishApplied(n.s, id, PAYLOAD_INVALID);
    TwoLead(n, a, b);
    n' := Go(Go(n, a), b);
  }

  lemma ThenRestarts(n: Node, id: nat) returns (n': Node)
    requires n.at.Scanning? && n.at.stage == Failing(id) && Restarting(n, id)
    ensures Permits(n, RestartOf(id)) && n' == Go(n, RestartOf(id)) && n'.at == n.at.(stage := Looking)
    ensures var e := n.ends[id];
            n'.s.w == Restarted(n.s.w, e.event, e.status, e.ran, n.s.now) && n'.s.phase.Up? && n'.s.now == n.s.now
  {
    n' := Go(n, RestartOf(id));
    RestartApplied(n.s, n.ends[id].event, n.ends[id].status, n.ends[id].ran);
  }

  /** The run that the scan started ends in it. */
  lemma UnreadableLeads(n: Node, id: nat) returns (ms: seq<Move>, n': Node)
    requires n.at.Scanning? && n.at.stage == Failing(id) && n.s.phase.Up?
    requires id in n.s.w.mem.runInfo && id !in n.s.finishing
    ensures Leads(n, ms, n') && n'.at == n.at.(stage := Looking) && n'.s.phase.Up? && n'.s.now == n.s.now
    ensures n'.s.w == Finished(n.s.w, id, n.s.w.mem.runInfo[id], PAYLOAD_INVALID, n.s.now)
  {
    var n1 := UnreadableFinishes(n, id);
    n' := ThenRestarts(n1, id);
    ms := [Step(FinishRow(id, PAYLOAD_INVALID)), Step(FinishMaps(id))];
    LeadsFurther(n, ms, n1, RestartOf(id));
    ms := ms + [RestartOf(id)];
  }

  lemma VerdictLeads(n: Node) returns (ms: seq<Move>, n': Node)
    requires AtVerdict(n)
    ensures Leads(n, ms, n') && Past(n, n', Examined(n.s.w, n.at.rest[0], n.s.now).w)
  {
    var v := VerdictOn(n.s.w.mem, n.at.rest[0].row);
    if v.DropRow? { ms, n' := DropLeads(n); }
    else if v.SkipRow? { ms, n' := SkipLeads(n); }
    else if v.HoldRow? { ms, n' := HoldLeads(n); }
    else if v.Replace? { ms, n' := ReplaceLeads(n); }
    else { ms, n' := StartLeads(n); }
  }

  /** The rows of the scan are in the table, as they were read. */
  ghost predicate Present(db: Db, runs: seq<Run>) {
    forall r | r in runs :: r.id in db.rows && SameFiring(db.rows[r.id], r.row)
  }

  lemma OutdatedLeads(n: Node) returns (ms: seq<Move>, n': Node)
    requires AtRow(n.at, Looking) && n.s.phase.Up? && Outdated(n.at.newest, n.at.rest[0])
    ensures Leads(n, ms, n') && Past(n, n', SettledAs(n.s.w, n.at.rest[0].id, Skipped, "replaced", n.s.now))
  {
    var settle := Step(SettleRow(n.at.rest[0].id, Skipped, "replaced"));
    OneLeads(n, settle);
    ms, n' := [settle], Go(n, settle);
  }

  lemma CheckLeads(n: Node) returns (n': Node)
    requires AtRow(n.at, Looking) && n.s.phase.Up? && Inv(n.s) && !Outdated(n.at.newest, n.at.rest[0]) && !n.s.w.mem.stopping
    ensures Leads(n, [Step(Check)], n') && n'.at == n.at.(stage := Deciding) && n'.s == n.s.(armed := true) && Inv(n'.s)
  {
    OneLeads(n, Step(Check));
    StepInv(n.s, Check);
    n' := Go(n, Step(Check));
  }

  lemma RowLeads(n: Node, s: Scanned) returns (ms: seq<Move>, n': Node)
    requires AtRow(n.at, Looking) && n.s.phase.Up? && Inv(n.s) && Present(n.s.w.db, n.at.rest) && s.w == n.s.w
    requires Outdated(n.at.newest, n.at.rest[0]) || !n.s.w.mem.stopping
    ensures Leads(n, ms, n') && Past(n, n', ScanRow(s, n.at.rest[0], n.at.newest, n.s.now).w)
  {
    assert n.at.rest[0] in n.at.rest;
    if Outdated(n.at.newest, n.at.rest[0]) {
      ms, n' := OutdatedLeads(n);
    } else {
      var n1 := CheckLeads(n);
      var rest;
      rest, n' := VerdictLeads(n1);
      LeadsOn(n, [Step(Check)], n1, rest, n');
      ms := [Step(Check)] + rest;
    }
  }

  /** Every row is still there. */
  ghost predicate Kept(db: Db, db': Db) {
    forall id | id in db.rows :: id in db'.rows && SameFiring(db.rows[id], db'.rows[id])
  }

  lemma StartedKeeps(w: World, id: nat, event: string, policy: Policy)
    ensures Kept(w.db, Started(w, id, event, policy).db)
  {
  }

  lemma FinishedKeeps(w: World, id: nat, event: string, res: Result, now: int)
    requires Numbered(w.db)
    ensures Kept(w.db, Finished(w, id, event, res, now).db)
  {
    var w1 := RowFinished(w, id, res, now);
    assert Kept(w.db, w1.db) && w1.db.nextId == w.db.nextId;
    RestartedKeeps(w1.(mem := MapsFinished(w1.mem, id, event)), event, Outcome(res), res.ran, now);
  }

  lemma RestartedKeeps(w: World, event: string, status: Status, ran: nat, now: int)
    requires Numbered(w.db)
    ensures Kept(w.db, Restarted(w, event, status, ran, now).db)
  {
  }

  lemma ExaminedKeeps(w: World, run: Run, now: int)
    requires Numbered(w.db)
    ensures Kept(w.db, Examined(w, run, now).w.db)
  {
    var v := VerdictOn(w.mem, run.row);
    if v.StartRow? {
      if IsQueued(w.db, run.id) {
        var policy := w.mem.specs[run.row.event].policy;
        StartedKeeps(w, run.id, run.row.event, policy);
        FinishedKeeps(Started(w, run.id, run.row.event, policy), run.id, run.row.event, PAYLOAD_INVALID, now);
      }
    } else if v.SkipRow? {
      SkippedKeeps(w, run.id, run.row.event, now);
    } else if v.DropRow? {
      SettledKeeps(w.db, run.id, Dropped, v.reason, now);
    }
  }

  lemma SettledKeeps(db: Db, id: nat, status: Status, reason: string, now: int)
    ensures Kept(db, Settle(db, id, status, reason, now))
  {
  }

  lemma SkippedKeeps(w: World, id: nat, event: string, now: int)
    ensures Kept(w.db, SkipCounted(SettledAs(w, id, Skipped, "already_running", now), event).db)
  {
    SettledKeeps(w.db, id, Skipped, "already_running", now);
  }

  lemma RowKeeps(s: Scanned, run: Run, newest: map<string, nat>, now: int, rest: seq<Run>)
    requires Numbered(s.w.db) && Present(s.w.db, rest)
    ensures Present(ScanRow(s, run, newest, now).w.db, rest)
  {
    if Outdated(newest, run) {
      SettledKeeps(s.w.db, run.id, Skipped, "replaced", now);
    } else {
      ExaminedKeeps(s.w, run, now);
    }
  }

  lemma LeadsInv(n: Node, ms: seq<Move>, n': Node)
    requires Inv(n.s) && Leads(n, ms, n')
    ensures Inv(n'.s)
  {
    MovesAreRun(n, ms);
    RunInv(n.s, Labels(n, ms));
  }

  /** The loop comes from the rows it has read back to its start, with the table and the indexes as the
      scan leaves them. */
  lemma {:induction false} ScanLeads(n: Node, s: Scanned) returns (ms: seq<Move>, n': Node)
    requires n.at.Scanning? && n.at.stage.Looking? && n.s.phase.Up? && Inv(n.s) && Present(n.s.w.db, n.at.rest) && s.w == n.s.w
    ensures Leads(n, ms, n') && n'.at.Away? && n'.s.w == ScanRows(s, n.at.rest, n.at.newest, n.s.now).w
    decreases |n.at.rest|
  {
    if n.at.rest == [] {
      OneLeads(n, EndScan);
      ms, n' := [EndScan], Go(n, EndScan);
    } else if n.s.w.mem.stopping && !Outdated(n.at.newest, n.at.rest[0]) {
      OneLeads(n, StopScan);
      ms, n' := [StopScan], Go(n, StopScan);
    } else {
      var row, n1 := RowLeads(n, s);
      var s1 := ScanRow(s, n.at.rest[0], n.at.newest, n.s.now);
      LeadsInv(n, row, n1);
      RestPresent(n, s);
      var rest;
      rest, n' := ScanLeads(n1, s1);
      LeadsOn(n, row, n1, rest, n');
      ms := row + rest;
    }
  }

  lemma RestPresent(n: Node, s: Scanned)
    requires n.at.Scanning? && n.at.rest != [] && Inv(n.s) && Present(n.s.w.db, n.at.rest) && s.w == n.s.w
    ensures Present(ScanRow(s, n.at.rest[0], n.at.newest, n.s.now).w.db, n.at.rest[1..])
  {
    assert forall r | r in n.at.rest[1..] :: r in n.at.rest;
    RowKeeps(s, n.at.rest[0], n.at.newest, n.s.now, n.at.rest[1..]);
  }

  /** A whole scan, from its two queries to its end. */
  lemma ScheduleIsCourse(n: Node, batch: nat) returns (ms: seq<Move>, n': Node)
    requires n.at == Following([], false) && n.s.phase.Up? && Inv(n.s)
    ensures Leads(n, ms, n') && n'.at.Away? && n'.s.w == Scan(n.s.w, batch, n.s.now).w
  {
    var n1 := Go(n, ReadWaiting);
    var n2 := Go(n1, Query(batch));
    var n3 := Go(n2, ReadNewest);
    TwoLead(n, ReadWaiting, Query(batch));
    LeadsFurther(n, [ReadWaiting, Query(batch)], n2, ReadNewest);
    SelectMeaning(n.s.w.db.rows, 0, n.s.w.db.nextId, DueOutside(n.s.now, Waiting(n.s.w.mem)), batch);
    assert Present(n.s.w.db, n3.at.rest);
    var scan;
    scan, n' := ScanLeads(n3, Scanned(n.s.w, false, false));
    ms := [ReadWaiting, Query(batch)] + [ReadNewest];
    LeadsOn(n, ms, n3, scan, n');
    ms := ms + scan;
  }
}
