/** Reruns after an interruption: the rows of one firing form a chain along retry_of, and only its
    last row can end with an outcome. */
module Chains {
  import opened Queue
  import opened Dispatch
  import opened Dispatching
  import opened Protocol
  import opened Safety

  /** What is known about the row c and the run that it repeats. */
  ghost predicate Linked(s: State, c: nat) {
    c in s.born ==>
      var b, rows := s.born[c], s.w.db.rows;
      if b.retryOf == 0 then b.attempt == 1
      else
        && b.retryOf < c && b.retryOf in s.born
        && b.attempt == s.born[b.retryOf].attempt + 1 && b.event == s.born[b.retryOf].event
        && (b.retryOf in rows ==>
              && rows[b.retryOf].status.Retried? && rows[b.retryOf].finishedAt.Some?
              && c in rows
              && (rows[c].finishedAt.Some? ==> rows[b.retryOf].finishedAt.value <= rows[c].finishedAt.value))
  }

  ghost predicate Repeated(s: State, p: nat) {
    exists c :: c in s.born && s.born[c].retryOf == p
  }

  /** A row in the status retried has its rerun; a final row has a finish time, which is not in the
      future. */
  ghost predicate Timed(s: State, id: nat) {
    id in s.w.db.rows ==>
      var r := s.w.db.rows[id];
      && (r.status.Retried? ==> Repeated(s, id))
      && (Final(r.status) ==> r.finishedAt.Some?)
      && (r.finishedAt.Some? ==> r.finishedAt.value <= Ms(s.now))
  }

  ghost predicate OneChild(s: State) {
    forall c, d | c in s.born && d in s.born && s.born[c].retryOf == s.born[d].retryOf != 0 :: c == d
  }

  ghost predicate Chained(s: State) {
    (forall c :: Linked(s, c)) && (forall id :: Timed(s, id)) && OneChild(s)
  }

  // One step, row by row

  /** How a step can change a row that it keeps. */
  ghost predicate RowStep(s: State, l: Label, r: Row, r': Row) {
    && (r'.finishedAt == r.finishedAt || r'.finishedAt == Some(Ms(s.now)))
    && (r.status.Retried? ==> r'.status.Retried? && r'.finishedAt == r.finishedAt)
    && (r'.status.Retried? && !r.status.Retried? ==> l.RecoverOne?)
    && (Final(r'.status) && (Final(r.status) ==> r.finishedAt.Some?) ==> r'.finishedAt.Some?)
  }

  lemma KeptRow(s: State, l: Label, id: nat)
    requires Inv(s) && Enabled(s, l) && id in s.w.db.rows && id in Apply(s, l).w.db.rows
    ensures RowStep(s, l, s.w.db.rows[id], Apply(s, l).w.db.rows[id])
  {
    if l.Hand? {
      KeptByHand(s, l.id, id);
    } else if l.RecoverOne? {
      KeptByRecover(s, id);
    } else {
      assert OwnedRow(s, id);
      KeptRowPlain(s, l, id);
    }
  }

  lemma KeptByHand(s: State, run: nat, id: nat)
    requires Numbered(s.w.db) && Enabled(s, Hand(run)) && id in s.w.db.rows && id in Apply(s, Hand(run)).w.db.rows
    ensures RowStep(s, Hand(run), s.w.db.rows[id], Apply(s, Hand(run)).w.db.rows[id])
  {
    HandedMeaning(s.w, Run(run, s.w.db.rows[run]), s.now);
  }

  lemma KeptByRecover(s: State, id: nat)
    requires Inv(s) && Enabled(s, RecoverOne) && id in s.w.db.rows && id in Apply(s, RecoverOne).w.db.rows
    ensures RowStep(s, RecoverOne, s.w.db.rows[id], Apply(s, RecoverOne).w.db.rows[id])
  {
    var run := s.phase.todo[0];
    ToRecover(s);
    if id == run.id {
      RecoveredRow(s.w.db, s.w.mem.specs, run, s.now);
    } else {
      RecoverRowMeaning(s.w.db, s.w.mem.specs, run, s.now);
    }
  }

  lemma RecoveredRow(db: Db, specs: map<string, Spec>, run: Run, now: int)
    requires Numbered(db) && run.id in db.rows
    ensures run.id in RecoverRow(db, specs, run, now).rows
    ensures var r := RecoverRow(db, specs, run, now).rows[run.id];
            (r.status.Retried? || r.status.Abandoned?) && r.finishedAt == FirstFinish(db.rows[run.id], now)
  {
  }

  lemma KeptRowPlain(s: State, l: Label, id: nat)
    requires Numbered(s.w.db) && s.w.mem.cancels.Keys == s.w.mem.runInfo.Keys && OwnedRow(s, id) && Enabled(s, l)
    requires !l.Hand? && !l.RecoverOne?
    requires id in s.w.db.rows && id in Apply(s, l).w.db.rows
    ensures RowStep(s, l, s.w.db.rows[id], Apply(s, l).w.db.rows[id])
  {
    if l.CancelOne? {
      KeptByFinish(s.w.db, l.id, Canceled, "canceled_by_user", s.now, id);
    } else if l.FinishRow? {
      KeptByFinish(s.w.db, l.id, Outcome(l.res), l.res.reason, s.now, id);
    } else if l.RestartEvent? || l.Submit? || l.CliEnqueue? {
      KeptByInsert(s, l, id);
    } else if l.Start? || l.SettleRow? || l.CliCancel? || l.CliCancelEvent? || l.CountSkip? || l.Prune? {
      KeptByRest(s, l, id);
    } else {
      assert Apply(s, l).w.db == s.w.db;
    }
  }

  lemma KeptByFinish(db: Db, x: nat, status: Status, reason: string, now: int, id: nat)
    requires id in db.rows
    ensures var r := FinishRun(db, x, status, reason, now).rows[id];
            if id == x then r == db.rows[id].(status := status, reason := reason, finishedAt := Some(Ms(now)), cancelRequested := false)
            else r == db.rows[id]
  {
  }

  lemma KeptByInsert(s: State, l: Label, id: nat)
    requires Numbered(s.w.db) && Enabled(s, l) && (l.RestartEvent? || l.Submit? || l.CliEnqueue?) && id in s.w.db.rows
    ensures id in Apply(s, l).w.db.rows && Apply(s, l).w.db.rows[id] == s.w.db.rows[id]
  {
  }

  lemma KeptByRest(s: State, l: Label, id: nat)
    requires Enabled(s, l)
    requires l.Start? || l.SettleRow? || l.CliCancel? || l.CliCancelEvent? || l.CountSkip? || l.Prune?
    requires id in s.w.db.rows && id in Apply(s, l).w.db.rows
    ensures RowStep(s, l, s.w.db.rows[id], Apply(s, l).w.db.rows[id])
  {
  }

  /** How a step can add a row. */
  ghost predicate FreshStep(s: State, l: Label, r: Row) {
    && (r.finishedAt.Some? ==> r.finishedAt.value == Ms(s.now))
    && !r.status.Retried? && (Final(r.status) ==> r.finishedAt.Some?)
    && (if l.RecoverOne?
        then s.phase.Recovering? && s.phase.todo != [] && var run := s.phase.todo[0];
             r.retryOf == run.id != 0 && r.attempt == run.row.attempt + 1 && r.event == run.row.event && r.finishedAt.None?
        else r.retryOf == 0 && r.attempt == 1)
  }

  lemma AddedRow(s: State, l: Label, id: nat)
    requires Inv(s) && Enabled(s, l) && id !in s.w.db.rows && id in Apply(s, l).w.db.rows
    ensures id >= s.w.db.nextId && FreshStep(s, l, Apply(s, l).w.db.rows[id])
  {
    StepExtends(s, l);
    if l.Hand? {
      AddedByHand(s, l.id, id);
    } else if l.RecoverOne? {
      AddedByRecover(s, id);
    } else if l.RestartEvent? || l.Submit? || l.CliEnqueue? {
      AddedByInsert(s, l, id);
    } else {
      NothingAdded(s, l);
    }
  }

  lemma AddedByHand(s: State, run: nat, id: nat)
    requires Numbered(s.w.db) && Enabled(s, Hand(run)) && id !in s.w.db.rows && id in Apply(s, Hand(run)).w.db.rows
    ensures FreshStep(s, Hand(run), Apply(s, Hand(run)).w.db.rows[id])
  {
    HandedMeaning(s.w, Run(run, s.w.db.rows[run]), s.now);
  }

  lemma AddedByRecover(s: State, id: nat)
    requires Inv(s) && Enabled(s, RecoverOne) && id !in s.w.db.rows && id in Apply(s, RecoverOne).w.db.rows
    ensures FreshStep(s, RecoverOne, Apply(s, RecoverOne).w.db.rows[id])
  {
    var run := s.phase.todo[0];
    assert run in s.phase.todo && Waits(s.w.db, run);
  }

  lemma AddedByInsert(s: State, l: Label, id: nat)
    requires Enabled(s, l) && (l.RestartEvent? || l.Submit? || l.CliEnqueue?)
    requires id !in s.w.db.rows && id in Apply(s, l).w.db.rows
    ensures FreshStep(s, l, Apply(s, l).w.db.rows[id])
  {
  }

  lemma NothingAdded(s: State, l: Label)
    requires Enabled(s, l) && !l.Hand? && !l.RecoverOne? && !l.RestartEvent? && !l.Submit? && !l.CliEnqueue?
    ensures Apply(s, l).w.db.rows.Keys <= s.w.db.rows.Keys
  {
    if l.CancelOne? || l.FinishRow? || l.Start? || l.SettleRow? || l.CliCancel? {
    } else if l.CliCancelEvent? || l.CountSkip? || l.Prune? {
    } else {
      assert Apply(s, l).w.db == s.w.db;
    }
  }

  /** A step removes a row only by pruning it. */
  lemma RemovedRow(s: State, l: Label, id: nat)
    requires Inv(s) && Enabled(s, l) && id in s.w.db.rows && id !in Apply(s, l).w.db.rows
    ensures l.Prune? && Prunable(s.w.db.rows[id], l.before)
  {
    if l.Hand? {
      HandedMeaning(s.w, Run(l.id, s.w.db.rows[l.id]), s.now);
    } else if l.RestartEvent? || l.Submit? || l.CliEnqueue? {
      KeptByInsert(s, l, id);
    } else if l.RecoverOne? {
      KeptByRecovery(s, id);
    } else {
      RemovedByRest(s, l, id);
    }
  }

  lemma KeptByRecovery(s: State, id: nat)
    requires Numbered(s.w.db) && Enabled(s, RecoverOne) && id in s.w.db.rows
    ensures id in Apply(s, RecoverOne).w.db.rows
  {
  }

  lemma RemovedByRest(s: State, l: Label, id: nat)
    requires Enabled(s, l) && id in s.w.db.rows
    requires !l.Hand? && !l.RestartEvent? && !l.Submit? && !l.CliEnqueue? && !l.RecoverOne?
    ensures id !in Apply(s, l).w.db.rows ==> l.Prune? && Prunable(s.w.db.rows[id], l.before)
  {
    if !l.CancelOne? && !l.FinishRow? && !l.Start? && !l.SettleRow? && !l.CliCancel? && !l.CliCancelEvent? && !l.CountSkip?
       && !l.Prune? {
      assert Apply(s, l).w.db == s.w.db;
    }
  }

  lemma StepBornRow(s: State, l: Label, id: nat)
    requires Inv(s) && Enabled(s, l)
    ensures var s' := Apply(s, l);
            if id in s.born then id in s'.born && s'.born[id] == s.born[id]
            else id in s'.born ==> id in s'.w.db.rows && id !in s.w.db.rows && s'.born[id] == s'.w.db.rows[id]
  {
    StepBorn(s, l);
  }

  lemma StepLinkedOld(s: State, l: Label, c: nat)
    requires Inv(s) && Chained(s) && Enabled(s, l) && c in s.born
    ensures Linked(Apply(s, l), c)
  {
    var s', p := Apply(s, l), s.born[c].retryOf;
    StepBornRow(s, l, c);
    assert Linked(s, c);
    if p != 0 {
      StepBornRow(s, l, p);
      if p in s'.w.db.rows { RetriedKept(s, l, p, c); }
    }
  }

  /** A repeated run that a step keeps is still linked to its rerun, which is not pruned before it. */
  lemma RetriedKept(s: State, l: Label, p: nat, c: nat)
    requires Inv(s) && Linked(s, c) && c in s.born && s.born[c].retryOf == p != 0 && Timed(s, p) && Enabled(s, l)
    requires p in Apply(s, l).w.db.rows
    ensures Linked(Apply(s, l), c)
  {
    StepBornRow(s, l, p);
    StepBornRow(s, l, c);
    StepExtends(s, l);
    KeptRow(s, l, p);
    RerunKept(s, l, p, c);
    KeptRow(s, l, c);
  }

  lemma RerunKept(s: State, l: Label, p: nat, c: nat)
    requires Inv(s) && Enabled(s, l) && {p, c} <= s.w.db.rows.Keys && p in Apply(s, l).w.db.rows
    requires var r, r' := s.w.db.rows[p], s.w.db.rows[c];
             r.status.Retried? && r.finishedAt.Some? && (r'.finishedAt.Some? ==> r.finishedAt.value <= r'.finishedAt.value)
    ensures c in Apply(s, l).w.db.rows
  {
    if c !in Apply(s, l).w.db.rows {
      RemovedRow(s, l, c);
    }
  }

  lemma StepLinked(s: State, l: Label, c: nat)
    requires Inv(s) && Chained(s) && Enabled(s, l)
    ensures Linked(Apply(s, l), c)
  {
    StepBornRow(s, l, c);
    if c in s.born {
      StepLinkedOld(s, l, c);
    } else if c in Apply(s, l).born {
      AddedRow(s, l, c);
      if l.RecoverOne? {
        FirstRerun(s, c);
        StepBornRow(s, l, s.phase.todo[0].id);
      }
    }
  }

  /** The rerun that RecoverOne inserts. */
  lemma FirstRerun(s: State, c: nat)
    requires Inv(s) && Chained(s) && Enabled(s, RecoverOne) && c !in s.w.db.rows && c in Apply(s, RecoverOne).w.db.rows
    ensures var s', run := Apply(s, RecoverOne), s.phase.todo[0];
            && run.id < c && run.id in s.born && run.id in s'.w.db.rows
            && s'.w.db.rows[run.id].status.Retried? && s'.w.db.rows[run.id].finishedAt.Some?
            && run.row.attempt == s.born[run.id].attempt && run.row.event == s.born[run.id].event
            && (forall d | d in s.born :: s.born[d].retryOf != run.id)
  {
    var run := s.phase.todo[0];
    ToRecover(s);
    RecoverRowMeaning(s.w.db, s.w.mem.specs, run, s.now);
    RecoveredRow(s.w.db, s.w.mem.specs, run, s.now);
    NotYetRepeated(s, run.id);
  }

  lemma NotYetRepeated(s: State, id: nat)
    requires Chained(s) && id in s.w.db.rows && id != 0 && !s.w.db.rows[id].status.Retried?
    ensures forall d | d in s.born :: s.born[d].retryOf != id
  {
    forall d | d in s.born ensures s.born[d].retryOf != id {
      assert Linked(s, d);
    }
  }

  lemma StepTimed(s: State, l: Label, id: nat)
    requires Inv(s) && Chained(s) && Enabled(s, l)
    ensures Timed(Apply(s, l), id)
  {
    var s' := Apply(s, l);
    StepClock(s, l);
    if id in s'.w.db.rows {
      if id in s.w.db.rows {
        assert Timed(s, id);
        KeptRow(s, l, id);
        if s'.w.db.rows[id].status.Retried? {
          if s.w.db.rows[id].status.Retried? {
            var c :| c in s.born && s.born[c].retryOf == id;
            StepBornRow(s, l, c);
          } else {
            NewlyRetried(s, id);
          }
        }
      } else {
        AddedRow(s, l, id);
      }
    }
  }

  lemma StepClock(s: State, l: Label)
    requires Enabled(s, l)
    ensures Ms(s.now) <= Ms(Apply(s, l).now)
  {
  }

  lemma NewlyRetried(s: State, id: nat)
    requires Inv(s) && Enabled(s, RecoverOne) && id in s.w.db.rows && id in Apply(s, RecoverOne).w.db.rows
    requires !s.w.db.rows[id].status.Retried? && Apply(s, RecoverOne).w.db.rows[id].status.Retried?
    ensures Repeated(Apply(s, RecoverOne), id)
  {
    var run, s' := s.phase.todo[0], Apply(s, RecoverOne);
    ToRecover(s);
    RecoverRowMeaning(s.w.db, s.w.mem.specs, run, s.now);
    assert s'.born[s.w.db.nextId].retryOf == id;
  }

  lemma StepOneChild(s: State, l: Label, c: nat, d: nat)
    requires Inv(s) && Chained(s) && Enabled(s, l)
    requires var b := Apply(s, l).born; c in b && d in b && b[c].retryOf == b[d].retryOf != 0
    ensures c == d
  {
    StepBornRow(s, l, c);
    StepBornRow(s, l, d);
    if c !in s.born { AddedRow(s, l, c); FirstRerun(s, c); OnlyOneAdded(s, c); }
    if d !in s.born { AddedRow(s, l, d); FirstRerun(s, d); OnlyOneAdded(s, d); }
  }

  lemma OnlyOneAdded(s: State, c: nat)
    requires Inv(s) && Enabled(s, RecoverOne) && c !in s.w.db.rows && c in Apply(s, RecoverOne).w.db.rows
    ensures c == s.w.db.nextId
  {
  }

  lemma StepChained(s: State, l: Label)
    requires Inv(s) && Chained(s) && Enabled(s, l)
    ensures Chained(Apply(s, l))
  {
    forall c ensures Linked(Apply(s, l), c) { StepLinked(s, l, c); }
    forall id ensures Timed(Apply(s, l), id) { StepTimed(s, l, id); }
    forall c, d | c in Apply(s, l).born && d in Apply(s, l).born && Apply(s, l).born[c].retryOf == Apply(s, l).born[d].retryOf != 0
      ensures c == d
    {
      StepOneChild(s, l, c, d);
    }
  }

  lemma {:induction false} RunChained(s: State, ls: seq<Label>)
    requires Inv(s) && Chained(s) && Runs(s, ls)
    ensures Inv(Exec(s, ls)) && Chained(Exec(s, ls))
    decreases |ls|
  {
    if ls != [] {
      StepInv(s, ls[0]);
      StepChained(s, ls[0]);
      RunChained(Apply(s, ls[0]), ls[1..]);
    }
  }

  // Whole chains

  /** The attempts of one firing, from its first row on. */
  ghost predicate Chain(s: State, ids: seq<nat>) {
    && ids != [] && (forall i | 0 <= i < |ids| :: ids[i] in s.born)
    && s.born[ids[0]].retryOf == 0
    && (forall i, j | 0 <= i < j < |ids| && j == i + 1 :: ids[i] != 0 && s.born[ids[j]].retryOf == ids[i])
  }

  /** Along a chain the ids grow, the attempts count 1, 2, 3, ..., and every row before the last one
      is retried. */
  lemma {:induction false} ChainCounts(s: State, ids: seq<nat>, i: nat)
    requires Inv(s) && Chained(s) && Chain(s, ids) && i < |ids|
    ensures s.born[ids[i]].attempt == i + 1 && s.born[ids[i]].event == s.born[ids[0]].event
    ensures i > 0 ==> ids[i - 1] < ids[i]
    ensures i + 1 < |ids| && ids[i] in s.w.db.rows ==> s.w.db.rows[ids[i]].status.Retried?
  {
    assert Linked(s, ids[i]);
    if i > 0 {
      ChainCounts(s, ids, i - 1);
    }
    if i + 1 < |ids| {
      assert s.born[ids[i + 1]].retryOf == ids[i];
      assert Linked(s, ids[i + 1]);
    }
  }

  /** Two chains of one firing agree as far as both go. */
  lemma {:induction false} ChainsAgree(s: State, a: seq<nat>, b: seq<nat>, i: nat)
    requires Inv(s) && Chained(s) && Chain(s, a) && Chain(s, b) && a[0] == b[0] && i < |a| && i < |b|
    ensures a[i] == b[i]
  {
    if i > 0 {
      ChainsAgree(s, a, b, i - 1);
      assert s.born[a[i]].retryOf == s.born[b[i]].retryOf;
    }
  }

  /** One firing has at most one row whose status is not retried, over any number of crashes. */
  lemma OneOutcome(s: State, a: seq<nat>, b: seq<nat>)
    requires Inv(s) && Chained(s) && Chain(s, a) && Chain(s, b) && a[0] == b[0]
    requires var x, y := a[|a| - 1], b[|b| - 1];
             && x in s.w.db.rows && !s.w.db.rows[x].status.Retried?
             && y in s.w.db.rows && !s.w.db.rows[y].status.Retried?
    ensures a == b
  {
    var n := if |a| <= |b| then |a| else |b|;
    forall i | 0 <= i < n ensures a[i] == b[i] {
      ChainsAgree(s, a, b, i);
    }
    if |a| < |b| {
      ChainCounts(s, b, |a| - 1);
    } else if |b| < |a| {
      ChainCounts(s, a, |b| - 1);
    }
  }

  // max_attempts

  predicate AllowsAttempts(specs: map<string, Spec>, event: string, most: nat) {
    event in specs ==> specs[event].maxAttempts <= most
  }

  predicate LabelAllows(l: Label, event: string, most: nat) {
    (l.Boot? || l.Configure?) ==> AllowsAttempts(SpecMap(l.specs), event, most)
  }

  ghost predicate AttemptsWithin(s: State, event: string, most: nat) {
    && AllowsAttempts(s.w.mem.specs, event, most)
    && (forall id | id in s.born && s.born[id].event == event :: s.born[id].attempt <= most)
  }

  lemma StepAttempts(s: State, l: Label, event: string, most: nat)
    requires Inv(s) && Enabled(s, l) && LabelAllows(l, event, most) && AttemptsWithin(s, event, most) && most >= 1
    ensures AttemptsWithin(Apply(s, l), event, most)
  {
    var s' := Apply(s, l);
    if !l.Boot? && !l.Configure? && !l.Crash? {
      StepSameSpecs(s, l);
    }
    forall id | id in s'.born && s'.born[id].event == event ensures s'.born[id].attempt <= most {
      StepBornRow(s, l, id);
      if id !in s.born {
        AddedRow(s, l, id);
        if l.RecoverOne? {
          assert s.phase.todo[0] in s.phase.todo && Waits(s.w.db, s.phase.todo[0]);
          assert Judge(s.w.mem.specs, s.phase.todo[0].row).RunAgain?;
        }
      }
    }
  }

  /** No firing of event runs more often than the largest max_attempts that any config ever gave it. */
  lemma {:induction false} RunAttempts(s: State, ls: seq<Label>, event: string, most: nat)
    requires Inv(s) && Runs(s, ls) && (forall l | l in ls :: LabelAllows(l, event, most))
    requires AttemptsWithin(s, event, most) && most >= 1
    ensures AttemptsWithin(Exec(s, ls), event, most)
    decreases |ls|
  {
    if ls != [] {
      StepInv(s, ls[0]);
      StepAttempts(s, ls[0], event, most);
      RunAttempts(Apply(s, ls[0]), ls[1..], event, most);
    }
  }
}
