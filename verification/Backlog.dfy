/** The backlog limit of the queue policy over every run of the protocol. Enqueue counts before it
    inserts, but Retry does not, and the shutdown check of a scan is not one step with the start
    that follows it; so the limit that holds is a little above MAX_QUEUED_PER_EVENT. */
module Backlog {
  import opened Tally
  import opened Queue
  import opened Dispatch
  import opened Protocol
  import opened Safety
  import opened Chains
  import opened AfterOnce

  function CutOffOf(event: string): Row -> int {
    (r: Row) => if r.event == event && (r.status.Running? || r.status.Interrupted?) then 1 else 0
  }

  /** Rows of event in the statuses running and interrupted. */
  function CountCutOff(db: Db, event: string): int {
    Sum(db.rows, db.nextId, CutOffOf(event))
  }

  /** Every config keeps event under the queue policy. */
  predicate KeepsPolicy(l: Label, event: string) {
    (l.Boot? || l.Configure?) && event in SpecMap(l.specs) ==> SpecMap(l.specs)[event].policy.PolicyQueue?
  }

  /** And kickd event, which reads the same config, enqueues with the limit of that policy. */
  predicate KeepsQueue(l: Label, event: string) {
    && KeepsPolicy(l, event)
    && (l.CliEnqueue? && l.event == event ==> l.maxQueued == MAX_QUEUED_PER_EVENT)
  }

  /** late is 1 when the event may have a second run started beside one in progress or interrupted, and 0
      when it may not. */
  ghost predicate Within(s: State, event: string, late: nat) {
    var q, o, mem := CountQueued(s.w.db, event), CountCutOff(s.w.db, event), s.w.mem;
    && q + o <= MAX_QUEUED_PER_EVENT + 1 + late
    && o <= 1 + late
    && (s.phase.Up? && !mem.stopping ==> o <= 1)
    && (s.phase.Up? && mem.stopping && s.armed ==> o <= 1)
    && (event in mem.specs ==> mem.specs[event].policy.PolicyQueue?)
  }

  /** A run of event starts beside one that is in progress or interrupted. */
  predicate SecondStart(s: State, l: Label, event: string) {
    && l.Start? && IsQueued(s.w.db, l.id) && s.w.db.rows[l.id].event == event && CountCutOff(s.w.db, event) == 1
  }

  // What inserts do

  lemma InsertWithin(db: Db, f: Firing, maxQueued: nat, now: int, event: string)
    requires f.event == event ==> maxQueued == MAX_QUEUED_PER_EVENT
    ensures var d := Insert(db, f, maxQueued, now);
            && (CountQueued(d, event) <= CountQueued(db, event) || CountQueued(d, event) <= MAX_QUEUED_PER_EVENT)
            && CountCutOff(d, event) == CountCutOff(db, event)
  {
    var row := Insert(db, f, maxQueued, now).rows[db.nextId];
    SumPush(db.rows, db.nextId, IsQueuedOf(event), row);
    SumPush(db.rows, db.nextId, CutOffOf(event), row);
  }

  lemma {:induction false} InsertAllWithin(db: Db, fs: seq<Firing>, maxQueued: seq<nat>, now: int, event: string)
    requires |fs| == |maxQueued|
    requires forall i | 0 <= i < |fs| && fs[i].event == event :: maxQueued[i] == MAX_QUEUED_PER_EVENT
    ensures var d := InsertAll(db, fs, maxQueued, now);
            && (CountQueued(d, event) <= CountQueued(db, event) || CountQueued(d, event) <= MAX_QUEUED_PER_EVENT)
            && CountCutOff(d, event) == CountCutOff(db, event)
    decreases |fs|
  {
    if fs != [] {
      InsertWithin(db, fs[0], maxQueued[0], now, event);
      InsertAllWithin(Insert(db, fs[0], maxQueued[0], now), fs[1..], maxQueued[1..], now, event);
    }
  }

  lemma {:induction false} FiredConfigured(followers: seq<Follower>, specs: map<string, Spec>, status: Status)
    ensures forall e | e in Fired(followers, specs, status) :: e in specs
  {
    if followers != [] && !status.Retried? {
      FiredConfigured(followers[..|followers| - 1], specs, status);
    }
  }

  lemma HandWithin(w: World, run: Run, now: int, event: string)
    requires Numbered(w.db) && run.id in w.db.rows
    requires event in w.mem.specs ==> w.mem.specs[event].policy.PolicyQueue?
    ensures var d := Handed(w, run, now).db;
            && (CountQueued(d, event) <= CountQueued(w.db, event) || CountQueued(d, event) <= MAX_QUEUED_PER_EVENT)
            && CountCutOff(d, event) == CountCutOff(w.db, event)
  {
    var events := FiredBy(w.mem, run.row);
    var fs, max := AfterFirings(events, run.id), Limits(events, w.mem.specs);
    FiredConfigured(Followers(w.mem.follows, run.row.event), w.mem.specs, run.row.status);
    forall i | 0 <= i < |fs| && fs[i].event == event ensures max[i] == MAX_QUEUED_PER_EVENT {
      assert events[i] in events;
    }
    var d := InsertAll(w.db, fs, max, now);
    InsertAllWithin(w.db, fs, max, now, event);
    InsertAllMeaning(w.db, fs, max, now);
    SumPut(d.rows, d.nextId, IsQueuedOf(event), run.id, d.rows[run.id].(followed := true));
    SumPut(d.rows, d.nextId, CutOffOf(event), run.id, d.rows[run.id].(followed := true));
  }

  // What the other steps do

  /** A step that neither starts nor recovers a run puts no row back into the backlog. */
  lemma QuietRow(s: State, l: Label, id: nat)
    requires Inv(s) && Enabled(s, l) && !l.Start? && !l.RecoverOne?
    requires id < s.w.db.nextId && id in Apply(s, l).w.db.rows
    ensures id in s.w.db.rows && NoLonger(s.w.db.rows[id], Apply(s, l).w.db.rows[id])
  {
    StepExtends(s, l);
    if SetsAside(l) {
      StepAside(s, l);
    } else {
      QuietFinish(s, l, id);
    }
  }

  predicate NoLonger(r: Row, r': Row) {
    r.event == r'.event && (r'.status.Queued? ==> r.status.Queued?) && (CutOff()(r') ==> CutOff()(r))
  }

  lemma QuietFinish(s: State, l: Label, id: nat)
    requires Inv(s) && Enabled(s, l) && (l.CancelOne? || l.FinishRow?) && id in s.w.db.rows
    ensures id in Apply(s, l).w.db.rows && NoLonger(s.w.db.rows[id], Apply(s, l).w.db.rows[id])
  {
    if l.CancelOne? {
      QuietCancel(s, l.id, id);
    } else {
      assert OwnedRow(s, l.id);
      KeptByFinish(s.w.db, l.id, Outcome(l.res), l.res.reason, s.now, id);
    }
  }

  lemma QuietCancel(s: State, run: nat, id: nat)
    requires Enabled(s, CancelOne(run)) && id in s.w.db.rows
    ensures id in Apply(s, CancelOne(run)).w.db.rows && NoLonger(s.w.db.rows[id], Apply(s, CancelOne(run)).w.db.rows[id])
  {
    KeptByFinish(s.w.db, run, Canceled, "canceled_by_user", s.now, id);
  }

  lemma QuietWithin(s: State, l: Label, event: string)
    requires Inv(s) && Enabled(s, l) && !l.Start? && !l.RecoverOne? && Apply(s, l).w.db.nextId == s.w.db.nextId
    ensures CountQueued(Apply(s, l).w.db, event) <= CountQueued(s.w.db, event)
    ensures CountCutOff(Apply(s, l).w.db, event) <= CountCutOff(s.w.db, event)
  {
    var rows, rows', n := s.w.db.rows, Apply(s, l).w.db.rows, s.w.db.nextId;
    forall id: nat | id < n
      ensures Term(rows', id, IsQueuedOf(event)) <= Term(rows, id, IsQueuedOf(event))
      ensures Term(rows', id, CutOffOf(event)) <= Term(rows, id, CutOffOf(event))
    {
      if id in rows' { QuietRow(s, l, id); }
    }
    SumLe(rows', rows, n, IsQueuedOf(event), IsQueuedOf(event));
    SumLe(rows', rows, n, CutOffOf(event), CutOffOf(event));
  }

  lemma SettledOne(rows: map<nat, Row>, n: nat, id: nat, row: Row, event: string)
    requires id in rows && id < n && row.event == rows[id].event && CutOff()(rows[id]) && Final(row.status)
    ensures Sum(rows[id := row], n, IsQueuedOf(event)) == Sum(rows, n, IsQueuedOf(event))
    ensures Sum(rows[id := row], n, CutOffOf(event)) <= Sum(rows, n, CutOffOf(event))
    ensures rows[id].event == event ==> Sum(rows[id := row], n, CutOffOf(event)) == Sum(rows, n, CutOffOf(event)) - 1
  {
    SumPut(rows, n, IsQueuedOf(event), id, row);
    SumPut(rows, n, CutOffOf(event), id, row);
  }

  lemma RetriedWithin(rows: map<nat, Row>, n: nat, child: Row, id: nat, parent: Row, event: string)
    requires id in rows && id < n && CutOff()(rows[id]) && Final(parent.status) && child.status.Queued?
    requires child.event == parent.event == rows[id].event
    ensures var rows' := rows[n := child][id := parent];
            && Sum(rows', n + 1, IsQueuedOf(event)) + Sum(rows', n + 1, CutOffOf(event))
               == Sum(rows, n, IsQueuedOf(event)) + Sum(rows, n, CutOffOf(event))
            && Sum(rows', n + 1, CutOffOf(event)) <= Sum(rows, n, CutOffOf(event))
  {
    SumPushPut(rows, n, IsQueuedOf(event), child, id, parent);
    SumPushPut(rows, n, CutOffOf(event), child, id, parent);
  }

  /** Settling an interrupted run never makes the backlog longer: a rerun replaces its run. */
  lemma RecoverWithin(db: Db, specs: map<string, Spec>, run: Run, now: int, event: string)
    requires Numbered(db) && run.id in db.rows && CutOff()(db.rows[run.id]) && SameFiring(db.rows[run.id], run.row)
    ensures var d := RecoverRow(db, specs, run, now);
            && CountQueued(d, event) + CountCutOff(d, event) <= CountQueued(db, event) + CountCutOff(db, event)
            && CountCutOff(d, event) <= CountCutOff(db, event)
  {
    var d := RecoverRow(db, specs, run, now);
    if Judge(specs, run.row).RunAgain? {
      assert d.rows == db.rows[db.nextId := d.rows[db.nextId]][run.id := d.rows[run.id]];
      RetriedWithin(db.rows, db.nextId, d.rows[db.nextId], run.id, d.rows[run.id], event);
    } else {
      SettledOne(db.rows, db.nextId, run.id, d.rows[run.id], event);
    }
  }

  lemma StartWithin(db: Db, id: nat, event: string)
    requires Numbered(db) && IsQueued(db, id)
    ensures var d, n := StartRun(db, id), if db.rows[id].event == event then 1 else 0;
            && CountQueued(d, event) == CountQueued(db, event) - n
            && CountCutOff(d, event) == CountCutOff(db, event) + n
  {
    SumPut(db.rows, db.nextId, IsQueuedOf(event), id, db.rows[id].(status := Running));
    SumPut(db.rows, db.nextId, CutOffOf(event), id, db.rows[id].(status := Running));
  }

  /** A start finds no row of its event running, and none interrupted unless the agent is stopping. */
  lemma StartFindsNone(s: State, id: nat)
    requires Inv(s) && Enabled(s, Start(id)) && s.w.mem.specs[s.w.db.rows[id].event].policy.PolicyQueue? && !s.w.mem.stopping
    ensures CountCutOff(s.w.db, s.w.db.rows[id].event) == 0
  {
    var event := s.w.db.rows[id].event;
    forall x: nat | x < s.w.db.nextId ensures Term(s.w.db.rows, x, CutOffOf(event)) == 0 {
      if x in s.w.db.rows && s.w.db.rows[x].event == event {
        StartsAlone(s, id, x);
        assert OwnedRow(s, x);
      }
    }
    SumZero(s.w.db.rows, s.w.db.nextId, CutOffOf(event));
  }

  lemma SumZero(rows: map<nat, Row>, hi: nat, f: Row -> int)
    requires forall id: nat | id < hi :: Term(rows, id, f) == 0
    ensures Sum(rows, hi, f) == 0
  {
    if hi > 0 {
      SumZero(rows, hi - 1, f);
    }
  }

  lemma LoopStartsEmpty(s: State, event: string)
    requires Inv(s) && Enabled(s, EnterLoop)
    ensures CountCutOff(s.w.db, event) == 0
  {
    forall x: nat | x < s.w.db.nextId ensures Term(s.w.db.rows, x, CutOffOf(event)) == 0 {
      if x in s.w.db.rows { LoopStartsClean(s, x); }
    }
    SumZero(s.w.db.rows, s.w.db.nextId, CutOffOf(event));
  }

  // The bound

  /** Firings and restarts stop at the limit. */
  lemma InsertStepWithin(s: State, l: Label, event: string)
    requires Inv(s) && Enabled(s, l) && KeepsQueue(l, event) && !l.Hand? && !l.RecoverOne?
    requires Apply(s, l).w.db.nextId != s.w.db.nextId
    requires event in s.w.mem.specs ==> s.w.mem.specs[event].policy.PolicyQueue?
    ensures var q, q' := CountQueued(s.w.db, event), CountQueued(Apply(s, l).w.db, event);
            (q' <= q || q' <= MAX_QUEUED_PER_EVENT) && CountCutOff(Apply(s, l).w.db, event) == CountCutOff(s.w.db, event)
  {
    var db, mem := s.w.db, s.w.mem;
    OnlyInsertsGrow(s, l);
    if l.CliEnqueue? {
      InsertWithin(db, Firing(l.event, Outside, 0, l.readable, None), l.maxQueued, s.now, event);
    } else if l.Submit? {
      InsertWithin(db, Firing(l.event, Outside, 0, l.readable, None), MaxQueued(mem.specs[l.event]), s.now, event);
    } else {
      RestartWithin(s.w, l.event, l.status, l.ran, s.now, event);
    }
  }

  lemma RestartWithin(w: World, e: string, status: Status, ran: nat, now: int, event: string)
    requires event in w.mem.specs ==> w.mem.specs[event].policy.PolicyQueue?
    ensures var d := Restarted(w, e, status, ran, now).db;
            && (CountQueued(d, event) <= CountQueued(w.db, event) || CountQueued(d, event) <= MAX_QUEUED_PER_EVENT)
            && CountCutOff(d, event) == CountCutOff(w.db, event)
  {
    if Restarts(w.mem, e, status) {
      var spec := w.mem.specs[e];
      var delay := NextDelay(spec, w.mem.restartDelays, e, ran);
      InsertWithin(w.db, Firing(e, Restart, 0, true, Some(Ms(now + delay))), MaxQueued(spec), now, event);
    }
  }

  /** How a step that starts no run moves the two counts. */
  lemma StepCounts(s: State, l: Label, event: string)
    requires Inv(s) && Enabled(s, l) && KeepsQueue(l, event) && !l.Start?
    requires event in s.w.mem.specs ==> s.w.mem.specs[event].policy.PolicyQueue?
    ensures var q, o := CountQueued(s.w.db, event), CountCutOff(s.w.db, event);
            var q', o' := CountQueued(Apply(s, l).w.db, event), CountCutOff(Apply(s, l).w.db, event);
            && o' <= o && (q' + o' <= q + o || q' <= MAX_QUEUED_PER_EVENT)
            && (!l.RecoverOne? ==> q' <= q || q' <= MAX_QUEUED_PER_EVENT)
  {
    if l.Hand? {
      HandWithin(s.w, Run(l.id, s.w.db.rows[l.id]), s.now, event);
    } else if l.RecoverOne? {
      ToRecover(s);
      RecoverWithin(s.w.db, s.w.mem.specs, s.phase.todo[0], s.now, event);
    } else if Apply(s, l).w.db.nextId == s.w.db.nextId {
      QuietWithin(s, l, event);
    } else {
      InsertStepWithin(s, l, event);
    }
  }

  lemma StartStep(s: State, id: nat, event: string, late: nat)
    requires Inv(s) && Enabled(s, Start(id)) && Within(s, event, late) && (late == 0 ==> !SecondStart(s, Start(id), event))
    ensures Within(Apply(s, Start(id)), event, late)
  {
    if IsQueued(s.w.db, id) {
      StartWithin(s.w.db, id, event);
      CutOffNonNegative(s.w.db, event);
      if s.w.db.rows[id].event == event && !s.w.mem.stopping {
        StartFindsNone(s, id);
      }
    }
  }

  lemma CutOffNonNegative(db: Db, event: string)
    ensures CountCutOff(db, event) >= 0
  {
    SumNonNegative(db.rows, db.nextId, CutOffOf(event));
  }

  /** A step brings a queue-policy event to two runs in progress or interrupted if and only if it is such a
      start, and it can only be one after the agent began to stop. */
  lemma StepSecondStart(s: State, l: Label, event: string)
    requires Inv(s) && Enabled(s, l) && KeepsQueue(l, event) && CountCutOff(s.w.db, event) <= 1
    requires event in s.w.mem.specs ==> s.w.mem.specs[event].policy.PolicyQueue?
    ensures CountCutOff(Apply(s, l).w.db, event) > 1 <==> SecondStart(s, l, event)
    ensures SecondStart(s, l, event) ==> s.w.mem.stopping
  {
    if l.Start? {
      if IsQueued(s.w.db, l.id) {
        StartWithin(s.w.db, l.id, event);
        if s.w.db.rows[l.id].event == event && !s.w.mem.stopping {
          StartFindsNone(s, l.id);
        }
      }
    } else {
      StepCounts(s, l, event);
    }
  }

  lemma StepWithin(s: State, l: Label, event: string, late: nat)
    requires Inv(s) && Enabled(s, l) && KeepsQueue(l, event) && Within(s, event, late)
    requires SecondStart(s, l, event) ==> late > 0
    ensures Within(Apply(s, l), event, late)
  {
    if l.Start? {
      StartStep(s, l.id, event, late);
    } else {
      StepCounts(s, l, event);
      if l.EnterLoop? { LoopStartsEmpty(s, event); }
      if !l.Boot? && !l.Configure? && !l.Crash? { StepSameSpecs(s, l); }
      StepPhase(s, l);
    }
  }

  lemma StepPhase(s: State, l: Label)
    requires Inv(s) && Enabled(s, l) && !l.Start?
    ensures var s' := Apply(s, l);
            && (s'.phase.Up? ==> s.phase.Up? || (l.EnterLoop? && s'.w.mem.stopping == s.w.mem.stopping))
            && (s'.phase.Up? && s.phase.Up? && s.w.mem.stopping ==> s'.w.mem.stopping && (s'.armed ==> s.armed))
            && (s'.phase.Up? && s.phase.Up? && !s.w.mem.stopping && s'.w.mem.stopping ==> l.Stop?)
  {
  }

  ghost predicate NeverSecondStart(s: State, ls: seq<Label>, event: string)
    requires Runs(s, ls)
    decreases |ls|
  {
    ls == [] || (!SecondStart(s, ls[0], event) && NeverSecondStart(Apply(s, ls[0]), ls[1..], event))
  }

  /** Whatever is enqueued, started, canceled, interrupted and recovered: the queued, running and
      interrupted rows of a queue-policy event never exceed MAX_QUEUED_PER_EVENT + 1 in runs where no run of
      the event starts beside another, and MAX_QUEUED_PER_EVENT + 2 in any run. */
  lemma {:induction false} BacklogBounded(s: State, ls: seq<Label>, event: string, late: nat)
    requires Inv(s) && Runs(s, ls) && Within(s, event, late)
    requires forall l | l in ls :: KeepsQueue(l, event)
    requires late <= 1 && (late == 1 || NeverSecondStart(s, ls, event))
    ensures Within(Exec(s, ls), event, late)
    ensures CountQueued(Exec(s, ls).w.db, event) + CountCutOff(Exec(s, ls).w.db, event) <= MAX_QUEUED_PER_EVENT + 1 + late
    decreases |ls|
  {
    if ls != [] {
      StepInv(s, ls[0]);
      StepWithin(s, ls[0], event, late);
      BacklogBounded(Apply(s, ls[0]), ls[1..], event, late);
    }
  }

  /** And wherever such a start has happened, kickd event alone brings them to MAX_QUEUED_PER_EVENT + 2. */
  lemma {:induction false} SecondStartExceeds(s: State, event: string, k: nat) returns (ls: seq<Label>)
    requires Inv(s) && CountCutOff(s.w.db, event) == 2 && CountQueued(s.w.db, event) + k == MAX_QUEUED_PER_EVENT
    ensures Runs(s, ls) && forall l | l in ls :: l == CliEnqueue(event, true, MAX_QUEUED_PER_EVENT)
    ensures CountQueued(Exec(s, ls).w.db, event) + CountCutOff(Exec(s, ls).w.db, event) == MAX_QUEUED_PER_EVENT + 2
    decreases k
  {
    if k == 0 {
      ls := [];
    } else {
      var l := CliEnqueue(event, true, MAX_QUEUED_PER_EVENT);
      OneMoreQueued(s.w.db, event, s.now);
      StepInv(s, l);
      var rest := SecondStartExceeds(Apply(s, l), event, k - 1);
      ls := [l] + rest;
      assert ls[1..] == rest;
    }
  }

  lemma OneMoreQueued(db: Db, event: string, now: int)
    requires CountQueued(db, event) < MAX_QUEUED_PER_EVENT
    ensures var d := Insert(db, Firing(event, Outside, 0, true, None), MAX_QUEUED_PER_EVENT, now);
            CountQueued(d, event) == CountQueued(db, event) + 1 && CountCutOff(d, event) == CountCutOff(db, event)
  {
    var row := Insert(db, Firing(event, Outside, 0, true, None), MAX_QUEUED_PER_EVENT, now).rows[db.nextId];
    SumPush(db.rows, db.nextId, IsQueuedOf(event), row);
    SumPush(db.rows, db.nextId, CutOffOf(event), row);
  }

  // The limit of the queued rows alone

  lemma RecoverQueued(db: Db, specs: map<string, Spec>, run: Run, now: int, event: string)
    requires Numbered(db) && run.id in db.rows && CutOff()(db.rows[run.id]) && SameFiring(db.rows[run.id], run.row)
    ensures CountQueued(RecoverRow(db, specs, run, now), event)
         == CountQueued(db, event) + (if run.row.event == event && Repeatable(specs, run.row) then 1 else 0)
  {
    var d, n := RecoverRow(db, specs, run, now), db.nextId;
    if Repeatable(specs, run.row) {
      assert d.rows == db.rows[n := d.rows[n]][run.id := d.rows[run.id]];
      SumPushPut(db.rows, n, IsQueuedOf(event), d.rows[n], run.id, d.rows[run.id]);
    } else {
      SettledOne(db.rows, n, run.id, d.rows[run.id], event);
    }
  }

  /** A start repeats a run of event, which was cut off, while the queue of event is full. */
  predicate RerunsAtLimit(s: State, l: Label, event: string) {
    && l.RecoverOne? && s.phase.Recovering? && s.phase.todo != [] && s.phase.todo[0].row.event == event
    && Repeatable(s.w.mem.specs, s.phase.todo[0].row) && CountQueued(s.w.db, event) == MAX_QUEUED_PER_EVENT
  }

  /** A step takes a queue-policy event over its limit of waiting runs if and only if it repeats a run of
      the event at the limit. */
  lemma StepExceedsLimit(s: State, l: Label, event: string)
    requires Inv(s) && Enabled(s, l) && KeepsQueue(l, event) && CountQueued(s.w.db, event) <= MAX_QUEUED_PER_EVENT
    requires event in s.w.mem.specs ==> s.w.mem.specs[event].policy.PolicyQueue?
    ensures CountQueued(Apply(s, l).w.db, event) > MAX_QUEUED_PER_EVENT <==> RerunsAtLimit(s, l, event)
  {
    if l.RecoverOne? {
      ToRecover(s);
      RecoverQueued(s.w.db, s.w.mem.specs, s.phase.todo[0], s.now, event);
    } else if l.Start? {
      if IsQueued(s.w.db, l.id) { StartWithin(s.w.db, l.id, event); }
    } else {
      StepCounts(s, l, event);
    }
  }

  ghost predicate NeverRerunsAtLimit(s: State, ls: seq<Label>, event: string)
    requires Runs(s, ls)
    decreases |ls|
  {
    ls == [] || (!RerunsAtLimit(s, ls[0], event) && NeverRerunsAtLimit(Apply(s, ls[0]), ls[1..], event))
  }

  /** So the limit holds over every run without such a rerun. */
  lemma {:induction false} LimitKept(s: State, ls: seq<Label>, event: string)
    requires Inv(s) && Runs(s, ls) && CountQueued(s.w.db, event) <= MAX_QUEUED_PER_EVENT && NeverRerunsAtLimit(s, ls, event)
    requires event in s.w.mem.specs ==> s.w.mem.specs[event].policy.PolicyQueue?
    requires forall l | l in ls :: KeepsQueue(l, event)
    ensures CountQueued(Exec(s, ls).w.db, event) <= MAX_QUEUED_PER_EVENT
    decreases |ls|
  {
    if ls != [] {
      var l := ls[0];
      StepInv(s, l);
      StepExceedsLimit(s, l, event);
      if !l.Boot? && !l.Configure? && !l.Crash? { StepSameSpecs(s, l); }
      LimitKept(Apply(s, l), ls[1..], event);
    }
  }
}
