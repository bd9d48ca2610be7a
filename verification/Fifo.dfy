/** Under the queue policy, waiting runs start in the order of their firings. A scan does not look again
    at a row that it left queued, so the order is lost exactly where a run starts while the scan has an
    older one of its event behind it; and that takes a run of the event that ends within the scan. */
module Fifo {
  import opened Queue
  import opened Dispatch
  import opened Protocol
  import opened Safety
  import opened Chains
  import opened Backlog
  import opened Refinement
  import opened Looping

  /** Runs of event that never wait for a time of their own. */
  predicate Plain(s: State, event: string, id: nat) {
    id in s.born && s.born[id].event == event && s.born[id].notBefore.None?
  }

  predicate Waiter(s: State, event: string, id: nat) {
    IsQueued(s.w.db, id) && Plain(s, event, id)
  }

  predicate QueueOnly(mem: Mem, event: string) {
    event in mem.specs ==> mem.specs[event].policy.PolicyQueue?
  }

  /** The plain runs of event started in the order of their ids, and every one that still waits is
      younger than all of them. */
  ghost predicate InOrder(s: State, event: string) {
    && (forall i | 0 <= i < |s.starts| :: s.starts[i] < s.w.db.nextId)
    && (forall i, j | 0 <= i < j < |s.starts| && Plain(s, event, s.starts[i]) && Plain(s, event, s.starts[j]) ::
          s.starts[i] < s.starts[j])
    && (forall i, q: nat | 0 <= i < |s.starts| && Plain(s, event, s.starts[i]) && Waiter(s, event, q) :: s.starts[i] < q)
  }

  // Steps never put a row back into the queue

  lemma StepQueuedBack(s: State, l: Label, q: nat)
    requires Inv(s) && Enabled(s, l) && IsQueued(Apply(s, l).w.db, q)
    ensures IsQueued(s.w.db, q) || q >= s.w.db.nextId
  {
    StepExtends(s, l);
    if q < s.w.db.nextId {
      if l.RecoverOne? {
        ToRecover(s);
        RecoverRowMeaning(s.w.db, s.w.mem.specs, s.phase.todo[0], s.now);
      } else if !l.Start? {
        QuietRow(s, l, q);
      }
    }
  }

  lemma WaiterBack(s: State, l: Label, event: string, q: nat)
    requires Inv(s) && Enabled(s, l) && q < s.w.db.nextId && Waiter(Apply(s, l), event, q)
    ensures Waiter(s, event, q)
  {
    StepQueuedBack(s, l, q);
    StepBornRow(s, l, q);
  }

  lemma SameStarts(s: State, l: Label)
    requires Enabled(s, l) && !l.Start?
    ensures Apply(s, l).starts == s.starts
  {
  }

  lemma SamePlain(s: State, l: Label, event: string, id: nat)
    requires Inv(s) && Enabled(s, l) && id < s.w.db.nextId
    ensures Plain(Apply(s, l), event, id) <==> Plain(s, event, id)
    ensures s.w.db.nextId <= Apply(s, l).w.db.nextId
  {
    StepRecords(s, l);
    StepBornRow(s, l, id);
  }

  lemma OtherInOrder(s: State, l: Label, event: string)
    requires Inv(s) && Enabled(s, l) && !l.Start? && InOrder(s, event)
    ensures InOrder(Apply(s, l), event)
  {
    var s' := Apply(s, l);
    SameStarts(s, l);
    forall i | 0 <= i < |s'.starts|
      ensures s'.starts[i] < s'.w.db.nextId && (Plain(s', event, s'.starts[i]) <==> Plain(s, event, s'.starts[i]))
    {
      SamePlain(s, l, event, s'.starts[i]);
    }
    forall i, q: nat | 0 <= i < |s'.starts| && Plain(s', event, s'.starts[i]) && Waiter(s', event, q)
      ensures s'.starts[i] < q
    {
      if q < s.w.db.nextId { WaiterBack(s, l, event, q); }
    }
  }

  lemma SpecsStay(s: State, l: Label, event: string)
    requires Enabled(s, l) && KeepsPolicy(l, event) && QueueOnly(s.w.mem, event)
    ensures QueueOnly(Apply(s, l).w.mem, event)
  {
    if !l.Boot? && !l.Configure? && !l.Crash? { StepSameSpecs(s, l); }
  }

  // The rows of a scan

  function Ahead(at: Place): seq<Run> {
    match at
    case Reading(runs) => runs
    case Scanning(rest, _, _, _) => rest
    case _ => []
  }

  function Behind(at: Place): set<nat> {
    if at.Scanning? then at.held else {}
  }

  /** Of the rows of event that wait, those older than a row ahead are ahead, too, or were left behind. */
  ghost predicate InScan(s: State, runs: seq<Run>, held: set<nat>, event: string) {
    && Ascending(runs) && AsRead(s.w.db, runs)
    && (forall q, r | q in held && r in runs :: q < r.id)
    && (forall q | q in held :: q < s.w.db.nextId)
    && (forall q: nat, r | r in runs && r.row.event == event && Waiter(s, event, q) && q < r.id ::
          q in TodoIds(runs) || q in held)
  }

  lemma ScanStays(s: State, l: Label, runs: seq<Run>, held: set<nat>, event: string)
    requires Inv(s) && Enabled(s, l) && InScan(s, runs, held, event)
    ensures InScan(Apply(s, l), runs, held, event)
  {
    StepExtends(s, l);
    forall q: nat, r | r in runs && r.row.event == event && Waiter(Apply(s, l), event, q) && q < r.id
      ensures q in TodoIds(runs) || q in held
    {
      WaiterBack(s, l, event, q);
    }
  }

  lemma RestIds(runs: seq<Run>, q: nat)
    requires runs != [] && q in TodoIds(runs) && q != runs[0].id
    ensures q in TodoIds(runs[1..])
  {
    var x :| x in runs && x.id == q;
    assert runs == [runs[0]] + runs[1..];
  }

  /** The head does not wait any more, or is left behind. */
  lemma ScanGoesOn(s: State, runs: seq<Run>, held: set<nat>, held': set<nat>, event: string)
    requires InScan(s, runs, held, event) && runs != []
    requires held' == held || held' == held + {runs[0].id}
    requires Waiter(s, event, runs[0].id) ==> runs[0].id in held'
    ensures InScan(s, runs[1..], held', event)
  {
    assert forall i | 0 <= i < |runs[1..]| :: runs[1..][i] == runs[i + 1] && runs[i + 1] in runs;
    assert runs[0] in runs;
    assert forall r | r in runs[1..] :: r in runs && runs[0].id < r.id;
    forall q: nat, r | r in runs[1..] && r.row.event == event && Waiter(s, event, q) && q < r.id
      ensures q in TodoIds(runs[1..]) || q in held'
    {
      if q != runs[0].id && q !in held { RestIds(runs, q); }
    }
  }

  lemma QueryInScan(s: State, waiting: set<string>, batch: nat, event: string)
    requires Inv(s)
    ensures InScan(s, QueuedRuns(s.w.db, batch, waiting, s.now), {}, event)
  {
    var runs := QueuedRuns(s.w.db, batch, waiting, s.now);
    SelectMeaning(s.w.db.rows, 0, s.w.db.nextId, DueOutside(s.now, waiting), batch);
    forall q: nat, r | r in runs && r.row.event == event && Waiter(s, event, q) && q < r.id
      ensures q in TodoIds(runs)
    {
      assert DueOutside(s.now, waiting)(s.w.db.rows[q]);
      assert Run(q, s.w.db.rows[q]) in runs;
    }
  }

  // One move

  ghost predicate Ordered(n: Node, event: string) {
    && Inv(n.s) && QueueOnly(n.s.w.mem, event) && InOrder(n.s, event)
    && InScan(n.s, Ahead(n.at), Behind(n.at), event)
    && (n.at.Away? || n.s.phase.Up?)
    && (n.at.Scanning? && n.at.rest != [] && (n.at.stage.Skipping? || n.at.stage.Counting?) ==> n.at.rest[0].row.event != event)
  }

  /** A row of event waits behind the scan. */
  ghost predicate LeftBehind(n: Node, event: string) {
    exists q :: q in Behind(n.at) && Waiter(n.s, event, q)
  }

  /** The start of a plain run of event keeps the order if and only if the scan has left no row of event
      behind that still waits. */
  lemma StartKeepsOrder(n: Node, id: nat, event: string)
    requires Ordered(n, event) && Permits(n, Step(Start(id))) && Waiter(n.s, event, id)
    ensures InOrder(Go(n, Step(Start(id))).s, event) <==> !LeftBehind(n, event)
  {
    var s, s' := n.s, Apply(n.s, Start(id));
    HeadStarts(n, id, event);
    SamePlains(s, Start(id), event);
    if LeftBehind(n, event) {
      var q :| q in Behind(n.at) && Waiter(s, event, q);
      assert q < id && Waiter(s', event, q);
      assert s'.starts[|s.starts|] == id;
    } else {
      forall i, q: nat | 0 <= i < |s'.starts| && Plain(s', event, s'.starts[i]) && Waiter(s', event, q)
        ensures s'.starts[i] < q
      {
        if q < s.w.db.nextId {
          WaiterBack(s, Start(id), event, q);
          if i == |s.starts| { OldestAhead(n, id, event, q); }
        }
      }
    }
  }

  lemma HeadStarts(n: Node, id: nat, event: string)
    requires Ordered(n, event) && Permits(n, Step(Start(id))) && Waiter(n.s, event, id)
    ensures n.at.rest[0].id == id && n.at.rest[0].row.event == event && n.at.rest[0] in n.at.rest && id < n.s.w.db.nextId
    ensures var s' := Apply(n.s, Start(id));
            && s'.starts == n.s.starts + [id] && !IsQueued(s'.w.db, id)
            && (forall q: nat | q != id :: IsQueued(s'.w.db, q) <==> IsQueued(n.s.w.db, q))
    ensures Count(n.s.w.mem, event) == 0
  {
    StartApplied(n.s, id);
    assert n.at.rest[0] in n.at.rest;
  }

  lemma OldestAhead(n: Node, id: nat, event: string, q: nat)
    requires Ordered(n, event) && n.at.Scanning? && n.at.rest != [] && n.at.rest[0].id == id && n.at.rest[0].row.event == event
    requires Waiter(n.s, event, q) && !LeftBehind(n, event)
    ensures q >= id
  {
    assert n.at.rest[0] in n.at.rest;
    if q in TodoIds(n.at.rest) { AheadIsYounger(n.at.rest, q); }
  }

  lemma AheadIsYounger(runs: seq<Run>, q: nat)
    requires runs != [] && Ascending(runs) && q in TodoIds(runs)
    ensures q >= runs[0].id
  {
    var x :| x in runs && x.id == q;
  }

  /** A run of event ends, other than in the scan itself, while the scan has a waiting row of event behind
      it. */
  ghost predicate EndsBehind(n: Node, m: Move, event: string) {
    && m.Step? && m.l.FinishMaps? && m.l.id in n.s.w.mem.runInfo && n.s.w.mem.runInfo[m.l.id] == event
    && !(n.at.Scanning? && n.at.stage == Failing(m.l.id))
    && LeftBehind(n, event)
  }

  /** While a row of event waits behind the scan, event is running, and not with a run that the scan is
      about to end. */
  ghost predicate Busy(n: Node, event: string) {
    LeftBehind(n, event) ==>
      && Count(n.s.w.mem, event) > 0
      && (n.at.stage.Failing? && n.at.stage.id in n.s.w.mem.runInfo ==> n.s.w.mem.runInfo[n.at.stage.id] != event)
  }

  lemma CountStays(s: State, l: Label, event: string)
    requires Inv(s) && Enabled(s, l) && !l.Boot? && !l.Crash?
    requires l.FinishMaps? && l.id in s.w.mem.runInfo ==> s.w.mem.runInfo[l.id] != event
    ensures Count(Apply(s, l).w.mem, event) >= Count(s.w.mem, event)
  {
    if !l.Start? && !l.FinishMaps? { StepSameRuns(s, l); }
  }

  lemma InfoStays(s: State, l: Label, x: nat, event: string)
    requires Inv(s) && Enabled(s, l) && !l.Start? && !l.Boot? && !l.Crash?
    requires x in Apply(s, l).w.mem.runInfo
    ensures x in s.w.mem.runInfo && Apply(s, l).w.mem.runInfo[x] == s.w.mem.runInfo[x]
  {
    if !l.FinishMaps? { StepSameRuns(s, l); }
  }

  predicate MoveKeeps(m: Move, event: string) {
    m.Step? ==> KeepsPolicy(m.l, event)
  }

  lemma PhaseKept(s: State, l: Label)
    requires Enabled(s, l) && s.phase.Up? && !l.Crash?
    ensures Apply(s, l).phase.Up?
  {
  }

  lemma SettledHead(s: State, id: nat, status: Status, reason: string)
    requires Enabled(s, SettleRow(id, status, reason))
    ensures !IsQueued(Apply(s, SettleRow(id, status, reason)).w.db, id)
  {
  }

  lemma StartedHead(s: State, id: nat)
    requires Enabled(s, Start(id))
    ensures !IsQueued(Apply(s, Start(id)).w.db, id)
  {
  }

  /** What the scan has before and behind it after a step of the protocol. */
  lemma StepInScan(n: Node, l: Label, event: string)
    requires Ordered(n, event) && Permits(n, Step(l)) && KeepsPolicy(l, event)
    ensures InScan(Apply(n.s, l), Ahead(PlaceAfter(n, l)), Behind(PlaceAfter(n, l)), event)
  {
    var s', runs, held := Apply(n.s, l), Ahead(n.at), Behind(n.at);
    ScanStays(n.s, l, runs, held, event);
    if l.SettleRow? {
      SettledHead(n.s, l.id, l.status, l.reason);
      ScanGoesOn(s', runs, held, held, event);
    } else if l.Start? {
      StartedHead(n.s, l.id);
      ScanGoesOn(s', runs, held, held, event);
    } else if l.CountSkip? || l.AskReplace? {
      HeadOfOther(n, l, event);
      ScanGoesOn(s', runs, held, held, event);
    }
  }

  /** Only rows of other events are skipped, or ask for a replacement. */
  lemma HeadOfOther(n: Node, l: Label, event: string)
    requires Ordered(n, event) && Permits(n, Step(l)) && (l.CountSkip? || l.AskReplace?)
    ensures !Waiter(Apply(n.s, l), event, n.at.rest[0].id)
  {
    var r := n.at.rest[0];
    assert r in n.at.rest;
    if Waiter(Apply(n.s, l), event, r.id) {
      WaiterBack(n.s, l, event, r.id);
    }
  }

  lemma StepPlace(n: Node, l: Label, event: string)
    requires Ordered(n, event) && Permits(n, Step(l))
    ensures var n' := Go(n, Step(l));
            && (n'.at.Away? || n'.s.phase.Up?)
            && (n'.at.Scanning? && n'.at.rest != [] && (n'.at.stage.Skipping? || n'.at.stage.Counting?) ==>
                  n'.at.rest[0].row.event != event)
  {
    if n.s.phase.Up? && !l.Crash? { PhaseKept(n.s, l); }
  }

  lemma StepOrdered(n: Node, l: Label, event: string)
    requires Ordered(n, event) && Permits(n, Step(l)) && KeepsPolicy(l, event)
    requires l.Start? && Waiter(n.s, event, l.id) ==> !LeftBehind(n, event)
    ensures Ordered(Go(n, Step(l)), event)
  {
    StepInv(n.s, l);
    SpecsStay(n.s, l, event);
    StepInScan(n, l, event);
    StepPlace(n, l, event);
    if l.Start? {
      if Waiter(n.s, event, l.id) {
        StartKeepsOrder(n, l.id, event);
      } else {
        OtherStart(n.s, l.id, event);
      }
    } else {
      OtherInOrder(n.s, l, event);
    }
  }

  lemma OtherStart(s: State, id: nat, event: string)
    requires Inv(s) && Enabled(s, Start(id)) && InOrder(s, event) && !Waiter(s, event, id)
    ensures InOrder(Apply(s, Start(id)), event)
  {
    var s' := Apply(s, Start(id));
    StartsOf(s, id);
    SamePlains(s, Start(id), event);
    forall i, q: nat | 0 <= i < |s'.starts| && Plain(s', event, s'.starts[i]) && Waiter(s', event, q)
      ensures s'.starts[i] < q
    {
      if q < s.w.db.nextId { WaiterBack(s, Start(id), event, q); }
    }
  }

  lemma StartsOf(s: State, id: nat)
    requires Inv(s) && Enabled(s, Start(id))
    ensures id < s.w.db.nextId
    ensures Apply(s, Start(id)).starts == if IsQueued(s.w.db, id) then s.starts + [id] else s.starts
  {
  }

  lemma SamePlains(s: State, l: Label, event: string)
    requires Inv(s) && Enabled(s, l)
    ensures s.w.db.nextId <= Apply(s, l).w.db.nextId
    ensures forall x: nat | x < s.w.db.nextId :: Plain(Apply(s, l), event, x) <==> Plain(s, event, x)
  {
    StepRecords(s, l);
    forall x: nat | x < s.w.db.nextId ensures Plain(Apply(s, l), event, x) <==> Plain(s, event, x) {
      SamePlain(s, l, event, x);
    }
  }

  lemma BehindBack(n: Node, l: Label, event: string)
    requires Ordered(n, event) && Permits(n, Step(l)) && LeftBehind(Go(n, Step(l)), event)
    ensures LeftBehind(n, event) && n.at.Scanning? && !l.Crash? && !l.Boot?
  {
    var n' := Go(n, Step(l));
    var q :| q in Behind(n'.at) && Waiter(n'.s, event, q);
    assert q in Behind(n.at);
    WaiterBack(n.s, l, event, q);
  }

  lemma StepBusy(n: Node, l: Label, event: string)
    requires Ordered(n, event) && Busy(n, event) && Permits(n, Step(l)) && !EndsBehind(n, Step(l), event)
    ensures Busy(Go(n, Step(l)), event)
  {
    var n' := Go(n, Step(l));
    if LeftBehind(n', event) {
      BehindBack(n, l, event);
      CountStays(n.s, l, event);
      if n'.at.stage.Failing? && n'.at.stage.id in n'.s.w.mem.runInfo {
        if l.Start? { FailingStart(n, l.id, event); } else { InfoStays(n.s, l, n'.at.stage.id, event); }
      }
    }
  }

  /** The scan starts a run of event only while event is not running. */
  lemma FailingStart(n: Node, id: nat, event: string)
    requires Ordered(n, event) && Permits(n, Step(Start(id))) && Count(n.s.w.mem, event) > 0
    requires Go(n, Step(Start(id))).at.stage.Failing?
    ensures var n' := Go(n, Step(Start(id)));
            n'.at.stage.id == id && (id in n'.s.w.mem.runInfo ==> n'.s.w.mem.runInfo[id] != event)
  {
    StartApplied(n.s, id);
    assert n.at.rest[0] in n.at.rest;
  }

  lemma InnerOrdered(n: Node, m: Move, event: string)
    requires Ordered(n, event) && Busy(n, event) && Permits(n, m) && !m.Step? && !m.RestartOf?
    ensures Ordered(Go(n, m), event) && Busy(Go(n, m), event)
  {
    if m.Query? {
      QueryInScan(n.s, n.at.waiting, m.batch, event);
    } else if m.Decide? {
      DecideOrdered(n, event);
    }
  }

  lemma DecideOrdered(n: Node, event: string)
    requires Ordered(n, event) && Busy(n, event) && Permits(n, Decide)
    ensures Ordered(Go(n, Decide), event) && Busy(Go(n, Decide), event)
  {
    var r, v, n' := n.at.rest[0], VerdictOn(n.s.w.mem, n.at.rest[0].row), Go(n, Decide);
    assert r in n.at.rest;
    if v.HoldRow? {
      ScanGoesOn(n.s, n.at.rest, n.at.held, n.at.held + {r.id}, event);
      if LeftBehind(n', event) && !LeftBehind(n, event) {
        assert Waiter(n.s, event, r.id);
      }
    } else {
      assert Behind(n'.at) == Behind(n.at);
      assert LeftBehind(n', event) ==> LeftBehind(n, event);
    }
  }

  lemma RestartOrdered(n: Node, id: nat, event: string)
    requires Ordered(n, event) && Busy(n, event) && Permits(n, RestartOf(id))
    ensures Ordered(Go(n, RestartOf(id)), event) && Busy(Go(n, RestartOf(id)), event)
  {
    var e := n.ends[id];
    RestartInOrder(n, RestartEvent(e.event, e.status, e.ran), event);
    RestartBusy(n, RestartEvent(e.event, e.status, e.ran), event);
    RestartPlace(n, id);
  }

  lemma RestartPlace(n: Node, id: nat)
    requires Permits(n, RestartOf(id))
    ensures var n', e := Go(n, RestartOf(id)), n.ends[id];
            && n'.s == Apply(n.s, RestartEvent(e.event, e.status, e.ran))
            && (n'.at == n.at || (n.at.Scanning? && n.at.stage.Failing? && n'.at == n.at.(stage := Looking)))
  {
  }

  lemma RestartInOrder(n: Node, l: Label, event: string)
    requires Ordered(n, event) && Enabled(n.s, l) && l.RestartEvent?
    ensures var s' := Apply(n.s, l);
            Inv(s') && QueueOnly(s'.w.mem, event) && InOrder(s', event) && s'.phase.Up? && InScan(s', Ahead(n.at), Behind(n.at), event)
  {
    StepInv(n.s, l);
    SpecsStay(n.s, l, event);
    ScanStays(n.s, l, Ahead(n.at), Behind(n.at), event);
    OtherInOrder(n.s, l, event);
    PhaseKept(n.s, l);
  }

  lemma RestartBusy(n: Node, l: Label, event: string)
    requires Ordered(n, event) && Busy(n, event) && Enabled(n.s, l) && l.RestartEvent?
    ensures Busy(n.(s := Apply(n.s, l)), event)
  {
    var n' := n.(s := Apply(n.s, l));
    if LeftBehind(n', event) {
      var q :| q in Behind(n'.at) && Waiter(n'.s, event, q);
      WaiterBack(n.s, l, event, q);
      CountStays(n.s, l, event);
      if n'.at.stage.Failing? && n'.at.stage.id in n'.s.w.mem.runInfo { InfoStays(n.s, l, n'.at.stage.id, event); }
    }
  }

  lemma MoveOrdered(n: Node, m: Move, event: string)
    requires Ordered(n, event) && Busy(n, event) && Permits(n, m) && MoveKeeps(m, event) && !EndsBehind(n, m, event)
    ensures Ordered(Go(n, m), event) && Busy(Go(n, m), event)
  {
    if m.Step? {
      if m.l.Start? && Waiter(n.s, event, m.l.id) { HeadStarts(n, m.l.id, event); }
      StepOrdered(n, m.l, event);
      StepBusy(n, m.l, event);
    } else if m.RestartOf? {
      RestartOrdered(n, m.id, event);
    } else {
      InnerOrdered(n, m, event);
    }
  }

  // Whole runs

  ghost predicate NeverEndsBehind(n: Node, ms: seq<Move>, event: string)
    requires Course(n, ms)
    decreases |ms|
  {
    ms == [] || (!EndsBehind(n, ms[0], event) && NeverEndsBehind(Go(n, ms[0]), ms[1..], event))
  }

  /** Over any interleaving of the loop with crashes, cancels, firings, reloads and runs that end, the plain
      runs of event start in the order of their ids, unless a run of event ends while the scan has a waiting
      one behind it. */
  lemma {:induction false} StartsInOrder(n: Node, ms: seq<Move>, event: string)
    requires Ordered(n, event) && Busy(n, event) && Course(n, ms) && NeverEndsBehind(n, ms, event)
    requires forall m | m in ms :: MoveKeeps(m, event)
    ensures Ordered(Reach(n, ms), event) && Busy(Reach(n, ms), event)
    decreases |ms|
  {
    if ms != [] {
      MoveOrdered(n, ms[0], event);
      StartsInOrder(Go(n, ms[0]), ms[1..], event);
    }
  }

  /** No run ends within a scan, but those that the scan ends. */
  ghost predicate AloneInScans(n: Node, ms: seq<Move>)
    requires Course(n, ms)
    decreases |ms|
  {
    ms != [] ==>
      && (n.at.Scanning? && ms[0].Step? && ms[0].l.FinishMaps? ==> n.at.stage == Failing(ms[0].l.id))
      && AloneInScans(Go(n, ms[0]), ms[1..])
  }

  /** In particular where no run ends within a scan, other than one that the scan itself ends. */
  lemma {:induction false} AloneNeverEndsBehind(n: Node, ms: seq<Move>, event: string)
    requires Course(n, ms) && AloneInScans(n, ms)
    ensures NeverEndsBehind(n, ms, event)
    decreases |ms|
  {
    if ms != [] {
      AloneNeverEndsBehind(Go(n, ms[0]), ms[1..], event);
    }
  }

  /** And it is lost when such an end frees the event for the next row of the scan. */
  lemma FinishThenOvertake(n: Node, x: nat, event: string)
    requires Ordered(n, event) && LeftBehind(n, event) && AtRow(n.at, Looking) && n.s.phase.Up? && !n.s.w.mem.stopping
    requires x in n.s.finishing && x in n.s.w.mem.runInfo && n.s.w.mem.runInfo[x] == event && Count(n.s.w.mem, event) == 1
    requires HeadMayStart(n, event)
    ensures var ms := [Step(FinishMaps(x)), Step(Check), Step(Start(n.at.rest[0].id))];
            Course(n, ms) && !InOrder(Reach(n, ms).s, event)
  {
    var n1 := Go(n, Step(FinishMaps(x)));
    StepOrdered(n, FinishMaps(x), event);
    FreedFor(n, x, event);
    ThenStarts(n1, event);
    ThreeMoves(n, Step(FinishMaps(x)), Step(Check), Step(Start(n.at.rest[0].id)));
  }

  /** Nothing but a run in progress keeps the head of the scan from starting. */
  predicate HeadMayStart(n: Node, event: string)
    requires n.at.Scanning? && n.at.rest != []
  {
    var r, specs := n.at.rest[0], n.s.w.mem.specs;
    && Waiter(n.s, event, r.id) && !Outdated(n.at.newest, r) && event in specs
    && !(r.row.kind.Restart? && specs[event].restart.RestartNever?)
  }

  lemma ThenStarts(n: Node, event: string)
    requires Ordered(n, event) && LeftBehind(n, event) && AtRow(n.at, Looking) && n.s.phase.Up? && !n.s.w.mem.stopping
    requires HeadMayStart(n, event) && Count(n.s.w.mem, event) == 0
    ensures Permits(n, Step(Check)) && Permits(Go(n, Step(Check)), Step(Start(n.at.rest[0].id)))
    ensures !InOrder(Go(Go(n, Step(Check)), Step(Start(n.at.rest[0].id))).s, event)
  {
    CheckKeeps(n);
    StepOrdered(n, Check, event);
    StartsBehind(Go(n, Step(Check)), event);
  }

  lemma StartsBehind(n: Node, event: string)
    requires Ordered(n, event) && LeftBehind(n, event) && AtRow(n.at, Deciding) && n.s.phase.Up? && n.s.armed
    requires HeadMayStart(n, event) && Count(n.s.w.mem, event) == 0
    ensures Permits(n, Step(Start(n.at.rest[0].id)))
    ensures !InOrder(Go(n, Step(Start(n.at.rest[0].id))).s, event)
  {
    assert n.at.rest[0] in n.at.rest && n.at.rest[0].row.event == event;
    StartKeepsOrder(n, n.at.rest[0].id, event);
  }

  lemma CheckKeeps(n: Node)
    requires Permits(n, Step(Check))
    ensures var n' := Go(n, Step(Check));
            && n'.s == n.s.(armed := true) && n'.at == n.at.(stage := Deciding) && n'.at.held == n.at.held
  {
  }

  lemma FreedFor(n: Node, x: nat, event: string)
    requires Permits(n, Step(FinishMaps(x))) && LeftBehind(n, event) && n.at.Scanning?
    requires x in n.s.w.mem.runInfo && n.s.w.mem.runInfo[x] == event && Count(n.s.w.mem, event) == 1
    ensures var n1 := Go(n, Step(FinishMaps(x)));
            && n1.at == n.at && n1.s.w.db == n.s.w.db && n1.s.born == n.s.born && LeftBehind(n1, event) && n1.s.phase == n.s.phase
            && Count(n1.s.w.mem, event) == 0 && n1.s.w.mem.specs == n.s.w.mem.specs && n1.s.w.mem.stopping == n.s.w.mem.stopping
  {
    var n1 := Go(n, Step(FinishMaps(x)));
    var q :| q in Behind(n.at) && Waiter(n.s, event, q);
    assert Waiter(n1.s, event, q);
  }

  lemma ThreeMoves(n: Node, a: Move, b: Move, c: Move)
    requires Permits(n, a) && Permits(Go(n, a), b) && Permits(Go(Go(n, a), b), c)
    ensures Course(n, [a, b, c]) && Reach(n, [a, b, c]) == Go(Go(Go(n, a), b), c)
  {
    assert Course(n, []) && Reach(n, []) == n;
    OneMoreMove(n, [], a);
    assert [] + [a] == [a];
    OneMoreMove(n, [a], b);
    OneMoreMove(n, [a] + [b], c);
    assert [a] + [b] + [c] == [a, b, c];
  }
}
