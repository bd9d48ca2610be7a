/** What holds over every run of the protocol from an empty table: whatever the command line enqueues
    and cancels, and whenever the agent starts, reloads, stops or crashes. */
module Guarantees {
  import opened Tally
  import opened Queue
  import opened Dispatch
  import opened AfterWeights
  import opened Protocol
  import opened Safety
  import opened Chains
  import opened AfterOnce
  import opened AfterRoots
  import opened AfterFires
  import opened Backlog
  import opened Refinement
  import opened Looping
  import opened Fifo
  import Scans
  import Cancels
  import Replacing
  import Endings
  import Delays
  import Dispatching
  import Config

  /** The indexes agree with the table, reruns form chains, and every ended run fires its followers
      once: in every state that a run reaches. */
  lemma EveryRun(now: int, ls: seq<Label>)
    requires Runs(Initial(now), ls)
    ensures var s := Exec(Initial(now), ls); Inv(s) && Chained(s) && AllFireOnce(s)
  {
    InitialInv(now);
    RunChained(Initial(now), ls);
    InitialFiresOnce(now);
    RunFiresOnce(Initial(now), ls);
  }

  lemma InitialFiresOnce(now: int)
    ensures AllFireOnce(Initial(now))
  {
    forall p ensures FiresOnce(Initial(now), p) {
      NoChildren(map[], 0, 1, p);
    }
  }

  /** While an event is never parallel, at most one of its runs is in progress. */
  lemma OneRunAtATime(now: int, ls: seq<Label>, event: string, a: nat, b: nat)
    requires Runs(Initial(now), ls) && forall l | l in ls :: NeverParallel(l, event)
    requires var s := Exec(Initial(now), ls);
             && s.phase.Up? && {a, b} <= s.w.db.rows.Keys
             && s.w.db.rows[a].event == s.w.db.rows[b].event == event
             && s.w.db.rows[a].status.Running? && s.w.db.rows[b].status.Running?
    ensures a == b
  {
    InitialInv(now);
    AtMostOneRunning(Initial(now), ls, event, a, b);
  }

  /** The backlog of a queue-policy event, with its runs in progress and interrupted. */
  lemma BacklogOfEveryRun(now: int, ls: seq<Label>, event: string)
    requires Runs(Initial(now), ls) && forall l | l in ls :: KeepsQueue(l, event)
    ensures var db := Exec(Initial(now), ls).w.db;
            && CountQueued(db, event) + CountCutOff(db, event) <= MAX_QUEUED_PER_EVENT + 2
            && (NeverSecondStart(Initial(now), ls, event) ==>
                  CountQueued(db, event) + CountCutOff(db, event) <= MAX_QUEUED_PER_EVENT + 1)
  {
    var s := Initial(now);
    InitialInv(now);
    assert CountQueued(s.w.db, event) == 0 && CountCutOff(s.w.db, event) == 0 by {
      assert s.w.db.nextId == 1;
      assert Sum(s.w.db.rows, 0, IsQueuedOf(event)) == 0 && Sum(s.w.db.rows, 0, CutOffOf(event)) == 0;
    }
    BacklogBounded(s, ls, event, 1);
    if NeverSecondStart(s, ls, event) {
      BacklogBounded(s, ls, event, 0);
    }
  }

  /** At most MAX_QUEUED_PER_EVENT runs of a queue-policy event wait, unless the agent, at its start, queues
      a run again that finds that many waiting. */
  lemma LimitOfEveryRun(now: int, ls: seq<Label>, event: string)
    requires Runs(Initial(now), ls) && forall l | l in ls :: KeepsQueue(l, event)
    requires NeverRerunsAtLimit(Initial(now), ls, event)
    ensures CountQueued(Exec(Initial(now), ls).w.db, event) <= MAX_QUEUED_PER_EVENT
  {
    InitialInv(now);
    assert CountQueued(Initial(now).w.db, event) == 0 by {
      assert Sum(Initial(now).w.db.rows, 0, IsQueuedOf(event)) == 0;
    }
    LimitKept(Initial(now), ls, event);
  }

  /** No firing has more attempts than the largest max_attempts of its event. */
  lemma AttemptsOfEveryRun(now: int, ls: seq<Label>, ids: seq<nat>, most: nat)
    requires Runs(Initial(now), ls) && most >= 1 && Chain(Exec(Initial(now), ls), ids)
    requires forall l | l in ls :: LabelAllows(l, Exec(Initial(now), ls).born[ids[0]].event, most)
    ensures |ids| <= most
  {
    var s := Exec(Initial(now), ls);
    var event := s.born[ids[0]].event;
    EveryRun(now, ls);
    InitialInv(now);
    RunAttempts(Initial(now), ls, event, most);
    ChainCounts(s, ids, |ids| - 1);
  }

  /** The runs of a queue-policy event that no restart delays start in the order of their ids, over every
      course of the loop in which no run of the event ends while the scan has a waiting one behind it. */
  lemma OrderOfEveryRun(now: int, ms: seq<Move>, event: string, i: nat, j: nat)
    requires Course(Outset(now), ms) && NeverEndsBehind(Outset(now), ms, event)
    requires forall m | m in ms :: MoveKeeps(m, event)
    requires var s := Reach(Outset(now), ms).s;
             i < j < |s.starts| && Plain(s, event, s.starts[i]) && Plain(s, event, s.starts[j])
    ensures var s := Reach(Outset(now), ms).s; s.starts[i] < s.starts[j]
  {
    InitialInv(now);
    StartsInOrder(Outset(now), ms, event);
  }

  /** After triggers fire at most w(e) - 1 runs because of any one row of an event e, directly or through
      the runs that they fire, and reruns included: w are weights of the configs that the agent reads. */
  lemma SpreadOfEveryRun(now: int, ls: seq<Label>, w: string -> nat, root: nat)
    requires Runs(Initial(now), ls) && forall l | l in ls :: WeighedLabel(l, w)
    requires root in Exec(Initial(now), ls).born
    ensures var s := Exec(Initial(now), ls); |Caused(s, root)| <= Beyond(w)(s.born[root].event)
  {
    InitialInv(now);
    InitialFiresOnce(now);
    RunInv(Initial(now), ls);
    RunBudget(Initial(now), ls, w);
    assert WithinBudget(Exec(Initial(now), ls), w, root);
    CausedWithin(Exec(Initial(now), ls), w, root);
  }

  /** A rerun goes back to the root of the run that it repeats, and a row that an after trigger fired to the
      root of the run that set it off; every other row is a root. */
  lemma RootsOfEveryRun(now: int, ls: seq<Label>, id: nat)
    requires Runs(Initial(now), ls) && id in Exec(Initial(now), ls).born
    ensures var born := Exec(Initial(now), ls).born;
            Root(born, id) == if Parent(born[id]) == 0 then id else Root(born, Parent(born[id]))
    ensures var born := Exec(Initial(now), ls).born;
            Parent(born[id]) == 0 <==> born[id].retryOf == 0 && !born[id].kind.After?
  {
    EveryRun(now, ls);
    InitialInv(now);
    RunCauses(Initial(now), ls);
    RootFollowsParent(Exec(Initial(now), ls), id);
  }

  /** When the agent hands on a run, it runs under a config that was accepted; from then on each event of
      that config whose after trigger lists the run's event and status has exactly one row for the run, and no
      other event has one. */
  lemma FollowersOfEveryRun(now: int, ls: seq<Label>, id: nat, rest: seq<Label>)
    requires Runs(Initial(now), ls) && forall l | l in ls :: ReadsAccepted(l)
    requires var s := Exec(Initial(now), ls); Enabled(s, Hand(id)) && Runs(Apply(s, Hand(id)), rest)
    ensures var s := Exec(Initial(now), ls);
            var r, born := s.w.db.rows[id], Exec(Apply(s, Hand(id)), rest).born;
            exists events :: Under(s.w.mem, events) && forall e :: OneRowExactly(events, r, born, id, e)
  {
    var s := Exec(Initial(now), ls);
    EveryRun(now, ls);
    RunConfig(Initial(now), ls);
    var events :| Under(s.w.mem, events);
    forall e ensures OneRowExactly(events, s.w.db.rows[id], Exec(Apply(s, Hand(id)), rest).born, id, e) {
      OneRowForEachFollower(s, events, id, rest, e);
    }
  }

  /** Over any continuation, a run that has ended is handed on before a Prune takes it, and keeps exactly what
      it fired then; or is pruned first, and never fires; or still waits to be handed on. */
  lemma HandedOrLostOfEveryRun(now: int, ls: seq<Label>, rest: seq<Label>, id: nat)
    requires Runs(Initial(now), ls) && Runs(Exec(Initial(now), ls), rest)
    requires var rows := Exec(Initial(now), ls).w.db.rows; id in rows && EndedUnfollowed()(rows[id])
    ensures var s := Exec(Initial(now), ls);
            var t := Exec(s, rest);
            && (id in t.handed <==> HandedFirst(s, rest, id))
            && (id !in t.handed && id !in t.w.db.rows <==> PrunedFirst(s, rest, id))
            && FiredFor(t, id) == (if id in t.handed then t.handed[id] else [])
            && (!HandedFirst(s, rest, id) && !PrunedFirst(s, rest, id) ==> ToHand(t, id))
  {
    EveryRun(now, ls);
    var s := Exec(Initial(now), ls);
    assert FiresOnce(s, id);
    HandedOrLost(s, rest, id);
  }

  /** Where two runs of a queue-policy event are in progress or interrupted, its rows can come to
      MAX_QUEUED_PER_EVENT + 2. */
  lemma BacklogExceeded(now: int, ls: seq<Label>, event: string) returns (more: seq<Label>)
    requires Runs(Initial(now), ls) && (forall l | l in ls :: KeepsQueue(l, event))
    requires CountCutOff(Exec(Initial(now), ls).w.db, event) == 2
    ensures Runs(Initial(now), ls + more) && forall l | l in ls + more :: KeepsQueue(l, event)
    ensures var db := Exec(Initial(now), ls + more).w.db;
            CountQueued(db, event) + CountCutOff(db, event) == MAX_QUEUED_PER_EVENT + 2
  {
    var s := Exec(Initial(now), ls);
    EveryRun(now, ls);
    BacklogOfEveryRun(now, ls, event);
    more := SecondStartExceeds(s, event, MAX_QUEUED_PER_EVENT - CountQueued(s.w.db, event));
    ExecConcat(Initial(now), ls, more);
  }

  /** A full batch of the running agent wakes the next scan, and lowers the number of queued rows if and only
      if, before the scan, some row of it is neither held nor one that a restart would replace. */
  lemma BatchOfEveryRun(now: int, ls: seq<Label>, batch: nat)
    requires Runs(Initial(now), ls)
    requires var s := Exec(Initial(now), ls);
             && s.phase.Up? && !s.w.mem.stopping && |Scans.RunningReplaced(s.w.mem)| < batch
             && |Batch(s.w, batch, s.now)| == batch
    ensures var s := Exec(Initial(now), ls);
            var runs := Batch(s.w, batch, s.now);
            && Wakes(s.w, batch, s.now)
            && (Scans.CountWaiting(Scan(s.w, batch, s.now).w.db) < Scans.CountWaiting(s.w.db)
                <==> exists r :: r in runs && Scans.Leaves(s.w, r, Newest(s.w.mem, runs)))
  {
    EveryRun(now, ls);
    var s := Exec(Initial(now), ls);
    Scans.FullBatchProgresses(s.w, batch, s.now);
  }

  /** The row waits, and for no time of its own that is still to come. */
  predicate MayStartAt(r: Row, now: int) {
    r.status.Queued? && (r.notBefore.Some? ==> r.notBefore.value <= now / 1_000_000)
  }

  /** A scan of the running agent that does not wake the next one leaves no row that may start now but those
      of events that are running under the queue or the replace policy. */
  lemma ScanOfEveryRun(now: int, ls: seq<Label>, batch: nat, id: nat)
    requires Runs(Initial(now), ls)
    requires var s := Exec(Initial(now), ls);
             && s.phase.Up? && !s.w.mem.stopping && |Scans.RunningReplaced(s.w.mem)| < batch && !Wakes(s.w, batch, s.now)
             && var d := Scan(s.w, batch, s.now).w.db; id in d.rows && MayStartAt(d.rows[id], s.now)
    ensures var s := Exec(Initial(now), ls);
            var t := Scan(s.w, batch, s.now).w;
            var e := t.db.rows[id].event;
            e in t.mem.specs && Count(t.mem, e) > 0 && (t.mem.specs[e].policy.PolicyQueue? || t.mem.specs[e].policy.PolicyReplace?)
  {
    EveryRun(now, ls);
    var s := Exec(Initial(now), ls);
    Scans.NothingHidden(s.w, batch, s.now, id);
  }

  /** If the row that such a scan leaves is under the replace policy, the active run of its event is to be
      replaced, and its command was told to stop. */
  lemma ReplacedOfEveryRun(now: int, ls: seq<Label>, batch: nat, id: nat)
    requires Runs(Initial(now), ls)
    requires var s := Exec(Initial(now), ls);
             && s.phase.Up? && !s.w.mem.stopping && |Scans.RunningReplaced(s.w.mem)| < batch && !Wakes(s.w, batch, s.now)
             && var d := Scan(s.w, batch, s.now).w.db; id in d.rows && MayStartAt(d.rows[id], s.now)
    ensures var s := Exec(Initial(now), ls);
            var t := Scan(s.w, batch, s.now).w;
            var e := t.db.rows[id].event;
            e in t.mem.specs && t.mem.specs[e].policy.PolicyReplace? && e in t.mem.active ==>
              && t.mem.active[e].replacing
              && t.mem.active[e].runId in t.mem.cancels && t.mem.cancels[t.mem.active[e].runId].Some?
  {
    var s := Exec(Initial(now), ls);
    var t := Scan(s.w, batch, s.now).w;
    var e := t.db.rows[id].event;
    EveryRun(now, ls);
    ScanOfEveryRun(now, ls, batch, id);
    CancelsOfEveryRun(now, ls);
    if e in t.mem.specs && t.mem.specs[e].policy.PolicyReplace? && e in t.mem.active {
      Replacing.DueRowsAsk(s.w, batch, s.now, id);
      ScheduleIsRun(s, batch);
      Cancels.RunTells(s, ScheduleLabels(s, batch));
      assert Cancels.ReplacedIsTold(t.mem, e);
    }
  }

  /** Every run that is marked as asked to stop, and every active run to be replaced, was told to. */
  lemma CancelsOfEveryRun(now: int, ls: seq<Label>)
    requires Runs(Initial(now), ls)
    ensures var mem := Exec(Initial(now), ls).w.mem;
            && (forall id | id in mem.cancelSent :: id in mem.cancels && mem.cancels[id].Some?)
            && (forall e | e in mem.active && mem.active[e].replacing ::
                  mem.active[e].runId in mem.cancels && mem.cancels[mem.active[e].runId].Some?)
            && Cancels.AskedAreTold(mem)
  {
    InitialInv(now);
    Cancels.RunTells(Initial(now), ls);
    var mem := Exec(Initial(now), ls).w.mem;
    forall e | e in mem.active && mem.active[e].replacing ensures Cancels.Told(mem, mem.active[e].runId) {
      assert Cancels.ReplacedIsTold(mem, e);
    }
  }

  /** In every reachable state, processCancels tells every run of the agent that is running and marked in the
      table to stop, by the user if nobody told it before, and no other. */
  lemma RequestsOfEveryRun(now: int, ls: seq<Label>, id: nat)
    requires Runs(Initial(now), ls)
    requires id in Exec(Initial(now), ls).w.mem.cancels
    ensures var s := Exec(Initial(now), ls);
            var m := Dispatching.CancelledAll(s.w, CancelRequests(s.w.db), s.now).mem;
            id in m.cancels
            && m.cancels[id] == if s.w.mem.cancels[id].Some? then s.w.mem.cancels[id]
                                else if id in s.w.db.rows && s.w.db.rows[id].status.Running? && s.w.db.rows[id].cancelRequested
                                then Some(ByUser) else None
  {
    EveryRun(now, ls);
    CancelsOfEveryRun(now, ls);
    var s := Exec(Initial(now), ls);
    Cancels.RequestsReachCommands(s.w, s.now);
  }

  /** While an event is never parallel, its run in progress is the active one. */
  lemma ActiveOfEveryRun(now: int, ls: seq<Label>, event: string)
    requires Runs(Initial(now), ls) && forall l | l in ls :: NeverParallel(l, event)
    ensures var mem := Exec(Initial(now), ls).w.mem; Count(mem, event) <= 1 && (Count(mem, event) > 0 ==> event in mem.active)
  {
    InitialInv(now);
    Replacing.RunActive(Initial(now), ls, event);
  }

  /** Wherever a run ends, its row gets the status that its result stands for. */
  lemma EndingOfEveryRun(now: int, ls: seq<Label>, id: nat, res: Result)
    requires Runs(Initial(now), ls) && Enabled(Exec(Initial(now), ls), FinishRow(id, res))
    ensures var s := Exec(Initial(now), ls);
            var d := Apply(s, FinishRow(id, res)).w.db;
            id in s.w.db.rows && id in d.rows && s.w.db.rows[id].status.Running? && Endings.StatusFits(d.rows[id].status, res)
  {
    EveryRun(now, ls);
    var s := Exec(Initial(now), ls);
    assert OwnedRow(s, id);
    Endings.OutcomeFits(res);
  }

  /** No row starts before its time, over every course of the loop. */
  lemma DelaysOfEveryRun(now: int, ms: seq<Move>, id: nat)
    requires Course(Outset(now), ms) && Permits(Reach(Outset(now), ms), Step(Start(id)))
    requires IsQueued(Reach(Outset(now), ms).s.w.db, id)
    ensures var s := Reach(Outset(now), ms).s;
            s.w.db.rows[id].notBefore.Some? ==> s.w.db.rows[id].notBefore.value <= s.now / 1_000_000
  {
    InitialInv(now);
    Delays.CourseMayStart(Outset(now), ms);
    Delays.StartsInTime(Reach(Outset(now), ms), id);
  }

  /** Under one accepted config, all that after triggers fire stays within the sum of w(e) - 1 over the
      firings of an event e from outside and by a restart. */
  lemma AfterRunsOfEveryRun(now: int, ls: seq<Label>, events: seq<Config.Event>, w: string -> nat)
    requires Runs(Initial(now), ls) && Weighs(FollowMap(Config.Specs(events)), w)
    requires forall l | l in ls && (l.Boot? || l.Configure?) :: l.specs == Config.Specs(events)
    ensures var s := Exec(Initial(now), ls); Sum(s.born, s.w.db.nextId, ByAfter()) <= Budget(w, ls)
  {
    var s := Initial(now);
    InitialInv(now);
    InitialFiresOnce(now);
    assert Spread(s, w) == 0 by {
      assert s.w.db.nextId == 1;
      assert Sum(s.born, 0, ByAfter()) == 0 && Sum(s.w.db.rows, 0, Potential(w)) == 0;
    }
    AfterRunsBounded(s, ls, w);
  }
}
