/** A request to stop a run reaches its command: the context of the run is canceled, with a cause that
    stays until the run has ended. */
module Cancels {
  import opened Queue
  import opened Dispatch
  import opened Dispatching
  import opened Protocol

  /** The command of run id was told to stop. */
  predicate Told(mem: Mem, id: nat) {
    id in mem.cancels && mem.cancels[id].Some?
  }

  /** Every run marked as asked, and every active run to be replaced, was told. */
  ghost predicate AskedAreTold(mem: Mem) {
    (forall id | id in mem.cancelSent :: Told(mem, id)) && (forall e | e in mem.active :: ReplacedIsTold(mem, e))
  }

  predicate ReplacedIsTold(mem: Mem, e: string)
    requires e in mem.active
  {
    mem.active[e].replacing ==> Told(mem, mem.active[e].runId)
  }

  /** A run that was told keeps the cause for as long as it is in progress. */
  ghost predicate CausesStay(mem: Mem, mem': Mem) {
    forall id | Told(mem, id) && id in mem'.cancels :: mem'.cancels[id] == mem.cancels[id]
  }

  /** The same runs are in progress, and all that were told still are. */
  ghost predicate MoreTold(mem: Mem, mem': Mem) {
    mem'.cancels.Keys == mem.cancels.Keys && CausesStay(mem, mem')
  }

  // One request

  /** Telling a run to stop changes the cause of that run, and only if it has none. */
  lemma AskTells(mem: Mem, id: nat, cause: Cause)
    ensures var m := AskToStop(mem, id, cause);
            && m == mem.(cancels := m.cancels) && MoreTold(mem, m)
            && (id in mem.cancels ==> m.cancels[id] == if mem.cancels[id].Some? then mem.cancels[id] else Some(cause))
            && (forall x | x in mem.cancels && x != id :: m.cancels[x] == mem.cancels[x])
  {
  }

  lemma StillTold(mem: Mem, m: Mem)
    requires AskedAreTold(mem) && MoreTold(mem, m) && m.active == mem.active
    requires forall id | id in m.cancelSent :: id in mem.cancelSent || Told(m, id)
    ensures AskedAreTold(m)
  {
    forall id | Told(mem, id) ensures Told(m, id) {
    }
    forall e | e in m.active ensures ReplacedIsTold(m, e) {
      assert ReplacedIsTold(mem, e);
    }
  }

  lemma HandledTells(w: World, id: nat, now: int)
    requires AskedAreTold(w.mem)
    ensures var mem, m := w.mem, CancelHandled(w, id, now).mem;
            && MoreTold(mem, m) && AskedAreTold(m)
            && (id in mem.cancels ==> m.cancels[id] == if mem.cancels[id].Some? then mem.cancels[id] else Some(ByUser))
            && (forall x | x in mem.cancels && x != id :: m.cancels[x] == mem.cancels[x])
            && m.running == mem.running && m.active == mem.active && m.runInfo == mem.runInfo
  {
    if id in w.mem.cancels && id !in w.mem.cancelSent {
      var asked := w.mem.(cancelSent := w.mem.cancelSent + {id});
      AskTells(asked, id, ByUser);
      StillTold(w.mem, AskToStop(asked, id, ByUser));
    }
  }

  lemma HandledRow(w: World, id: nat, now: int)
    ensures var d := CancelHandled(w, id, now).db;
            && d.nextId == w.db.nextId && d.rows.Keys == w.db.rows.Keys
            && (forall x | x in w.db.rows && (x != id || id in w.mem.cancels) :: d.rows[x] == w.db.rows[x])
            && (id in w.db.rows && id !in w.mem.cancels ==>
                  d.rows[id] == w.db.rows[id].(status := Canceled, reason := "canceled_by_user",
                                               finishedAt := Some(now / 1_000_000), cancelRequested := false))
  {
  }

  /** After the requests runs, each run of the dispatcher among them was told, by the user if by nobody before,
      and nobody else was told anything; the other runs among them are canceled in the table. */
  lemma {:induction false} AllHandledTell(w: World, runs: seq<Run>, now: int)
    requires AskedAreTold(w.mem) && Ascending(runs) && forall r | r in runs :: r.id in w.db.rows
    ensures var mem, w' := w.mem, CancelledAll(w, runs, now);
            && w'.mem.cancels.Keys == mem.cancels.Keys && AskedAreTold(w'.mem)
            && (forall id | id in mem.cancels ::
                  w'.mem.cancels[id] == if mem.cancels[id].None? && Asked(runs, id) then Some(ByUser) else mem.cancels[id])
            && w'.db.rows.Keys == w.db.rows.Keys
            && (forall id | id in w.db.rows ::
                  w'.db.rows[id] == if Asked(runs, id) && id !in mem.cancels
                                    then w.db.rows[id].(status := Canceled, reason := "canceled_by_user",
                                                        finishedAt := Some(now / 1_000_000), cancelRequested := false)
                                    else w.db.rows[id])
    decreases |runs|
  {
    if runs != [] {
      var id, w1 := runs[0].id, CancelHandled(w, runs[0].id, now);
      assert runs[0] in runs && forall r | r in runs[1..] :: r in runs;
      HandledTells(w, id, now);
      HandledRow(w, id, now);
      AllHandledTell(w1, runs[1..], now);
      AskedFirst(runs);
    }
  }

  ghost predicate Asked(runs: seq<Run>, id: nat) {
    exists r :: r in runs && r.id == id
  }

  lemma AskedFirst(runs: seq<Run>)
    requires runs != [] && Ascending(runs)
    ensures forall id :: Asked(runs, id) <==> id == runs[0].id || Asked(runs[1..], id)
    ensures !Asked(runs[1..], runs[0].id)
  {
    assert runs == [runs[0]] + runs[1..];
    forall r | r in runs[1..] ensures r.id != runs[0].id {
      var i :| 0 <= i < |runs[1..]| && runs[1..][i] == r;
      assert runs[i + 1] == r;
    }
  }

  /** The requests are those of the running rows that are marked. */
  lemma RequestsAre(db: Db)
    requires Numbered(db)
    ensures var runs := CancelRequests(db);
            && Ascending(runs) && (forall r | r in runs :: r.id in db.rows)
            && forall id :: Asked(runs, id) <==> id in db.rows && db.rows[id].status.Running? && db.rows[id].cancelRequested
  {
    var runs := CancelRequests(db);
    SelectMeaning(db.rows, 0, db.nextId, AskedToStop(), db.nextId);
    SelectAll(db.rows, 0, db.nextId, AskedToStop(), db.nextId);
    forall id ensures Asked(runs, id) <==> id in db.rows && db.rows[id].status.Running? && db.rows[id].cancelRequested {
      if id in db.rows && db.rows[id].status.Running? && db.rows[id].cancelRequested {
        assert Run(id, db.rows[id]) in runs;
      }
    }
  }

  /** processCancels: every run of the dispatcher that is running and marked in the table is told to stop, by
      the user if nobody told it before; no other run is. */
  lemma RequestsReachCommands(w: World, now: int)
    requires Numbered(w.db) && AskedAreTold(w.mem)
    ensures var mem, w' := w.mem, CancelledAll(w, CancelRequests(w.db), now);
            && w'.mem.cancels.Keys == mem.cancels.Keys && AskedAreTold(w'.mem)
            && forall id | id in mem.cancels ::
                 w'.mem.cancels[id] == if mem.cancels[id].Some? then mem.cancels[id]
                                       else if id in w.db.rows && w.db.rows[id].status.Running? && w.db.rows[id].cancelRequested
                                       then Some(ByUser) else None
  {
    RequestsAre(w.db);
    AllHandledTell(w, CancelRequests(w.db), now);
  }

  /** And the marked runs that are not the dispatcher's are canceled in the table, and no other row is touched. */
  lemma OtherRequestsCancel(w: World, now: int)
    requires Numbered(w.db) && AskedAreTold(w.mem)
    ensures var d := CancelledAll(w, CancelRequests(w.db), now).db;
            && d.rows.Keys == w.db.rows.Keys
            && forall id | id in w.db.rows ::
                 d.rows[id] == if w.db.rows[id].status.Running? && w.db.rows[id].cancelRequested && id !in w.mem.cancels
                               then w.db.rows[id].(status := Canceled, reason := "canceled_by_user",
                                                   finishedAt := Some(now / 1_000_000), cancelRequested := false)
                               else w.db.rows[id]
  {
    RequestsAre(w.db);
    AllHandledTell(w, CancelRequests(w.db), now);
  }

  // Over every run

  /** A start enters a run that nobody told anything. */
  lemma StartTells(mem: Mem, id: nat, event: string, policy: Policy)
    requires AskedAreTold(mem) && id !in mem.cancels && mem.cancelSent <= mem.cancels.Keys
    requires policy.PolicyParallel? || Count(mem, event) == 0
    ensures var m := Registered(mem, id, event, policy);
            && AskedAreTold(m) && CausesStay(mem, m) && m.cancels == mem.cancels[id := None]
            && (forall e :: Count(m, e) == if e == event then Count(mem, e) + 1 else Count(mem, e))
            && m.runInfo == mem.runInfo[id := event]
            && m.active == (if policy.PolicyParallel? then mem.active else mem.active[event := Active(id, 0, false)])
            && m.cancelSent == mem.cancelSent && m.specs == mem.specs && m.restartDelays == mem.restartDelays
  {
  }

  lemma FinishTells(mem: Mem, id: nat, event: string)
    requires AskedAreTold(mem) && forall e | e in mem.active && e != event :: mem.active[e].runId != id
    ensures var m := MapsFinished(mem, id, event); AskedAreTold(m) && CausesStay(mem, m)
  {
  }

  /** A run that is to be replaced is told so, unless it was told something before; nothing else changes. */
  lemma ReplaceTells(mem: Mem, event: string)
    requires AskedAreTold(mem) && event in mem.active && mem.active[event].runId in mem.cancels
    ensures var id, m := mem.active[event].runId, ReplaceAsked(mem, event);
            && m == mem.(active := mem.active[event := mem.active[event].(replacing := true)], cancels := m.cancels)
            && MoreTold(mem, m) && Told(m, id)
            && (m.cancels[id] == if mem.cancels[id].Some? then mem.cancels[id] else Some(Replaced))
            && (forall x | x in mem.cancels && x != id :: m.cancels[x] == mem.cancels[x])
  {
    var id, a := mem.active[event].runId, mem.active[event];
    if a.replacing {
      assert ReplacedIsTold(mem, event);
      assert mem.active[event := a] == mem.active;
    } else {
      AskTells(mem.(active := mem.active[event := a.(replacing := true)]), id, Replaced);
    }
  }

  lemma ReplaceKeepsTold(mem: Mem, event: string)
    requires AskedAreTold(mem) && (event in mem.active ==> mem.active[event].runId in mem.cancels)
    ensures var m := ReplaceAsked(mem, event); AskedAreTold(m) && MoreTold(mem, m)
  {
    if event in mem.active {
      var m := ReplaceAsked(mem, event);
      ReplaceTells(mem, event);
      forall id | Told(mem, id) ensures Told(m, id) {
      }
      forall e | e in m.active ensures ReplacedIsTold(m, e) {
        assert ReplacedIsTold(mem, e);
      }
    }
  }

  lemma SkipTells(w: World, event: string, run: nat)
    requires AskedAreTold(w.mem)
    ensures var m := CountedOn(w, event, run).mem; AskedAreTold(m) && CausesStay(w.mem, m)
  {
  }

  lemma StepTells(s: State, l: Label)
    requires Inv(s) && Enabled(s, l) && AskedAreTold(s.w.mem)
    ensures AskedAreTold(Apply(s, l).w.mem) && CausesStay(s.w.mem, Apply(s, l).w.mem)
  {
    var mem := s.w.mem;
    if l.CancelOne? {
      HandledTells(s.w, l.id, s.now);
    } else if l.AskReplace? {
      ActiveIsOwn(s, l.event);
      ReplaceKeepsTold(mem, l.event);
    } else if l.CountSkip? {
      SkipTells(s.w, l.event, l.run);
    } else if l.Start? {
      if IsQueued(s.w.db, l.id) {
        assert OwnedRow(s, l.id);
        var event := s.w.db.rows[l.id].event;
        StartTells(mem, l.id, event, mem.specs[event].policy);
      }
    } else if l.FinishMaps? {
      if l.id in mem.runInfo {
        OthersAreActive(s, l.id);
        FinishTells(mem, l.id, mem.runInfo[l.id]);
      }
    } else {
      OtherTells(s, l);
    }
  }

  /** A request that is handled while its run is in progress tells the run, whatever happened since it was read. */
  lemma RequestIsTold(s: State, id: nat)
    requires Enabled(s, CancelOne(id)) && AskedAreTold(s.w.mem) && id in s.w.mem.cancels
    ensures var m := Apply(s, CancelOne(id)).w.mem;
            id in m.cancels && m.cancels[id] == if s.w.mem.cancels[id].Some? then s.w.mem.cancels[id] else Some(ByUser)
  {
    HandledTells(s.w, id, s.now);
  }

  lemma ActiveIsOwn(s: State, event: string)
    requires Inv(s)
    ensures event in s.w.mem.active ==> s.w.mem.active[event].runId in s.w.mem.cancels
  {
  }

  lemma OthersAreActive(s: State, id: nat)
    requires Inv(s) && id in s.w.mem.runInfo
    ensures forall e | e in s.w.mem.active && e != s.w.mem.runInfo[id] :: s.w.mem.active[e].runId != id
  {
    forall e | e in s.w.mem.active && e != s.w.mem.runInfo[id] ensures s.w.mem.active[e].runId != id {
      assert s.w.mem.active[e].runId in Of(s.w.mem, e);
    }
  }

  lemma OtherTells(s: State, l: Label)
    requires Enabled(s, l) && AskedAreTold(s.w.mem)
    requires !l.CancelOne? && !l.AskReplace? && !l.CountSkip? && !l.Start? && !l.FinishMaps?
    ensures AskedAreTold(Apply(s, l).w.mem) && CausesStay(s.w.mem, Apply(s, l).w.mem)
  {
  }

  lemma {:induction false} RunTells(s: State, ls: seq<Label>)
    requires Inv(s) && Runs(s, ls) && AskedAreTold(s.w.mem)
    ensures AskedAreTold(Exec(s, ls).w.mem)
    decreases |ls|
  {
    if ls != [] {
      StepInv(s, ls[0]);
      StepTells(s, ls[0]);
      RunTells(Apply(s, ls[0]), ls[1..]);
    }
  }
}
