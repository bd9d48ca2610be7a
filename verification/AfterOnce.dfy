/** After triggers over every run of the protocol: each ended run that is handed on fires exactly
    what the config lists for it, once, whatever crashes. */
module AfterOnce {
  import opened Tally
  import opened Queue
  import opened Dispatch
  import opened Dispatching
  import opened AfterWeights
  import opened Protocol
  import opened Safety
  import opened Chains

  /** An after trigger fired this row; a rerun of such a row is not another firing. */
  predicate FiredAfter(r: Row, cause: nat) {
    r.kind.After? && r.retryOf == 0 && r.cause == cause
  }

  /** The events of the rows with lo <= id < hi that after triggers ever inserted for the run cause. */
  function Children(born: map<nat, Row>, lo: nat, hi: nat, cause: nat): seq<string>
    decreases hi
  {
    if hi <= lo then []
    else Children(born, lo, hi - 1, cause)
         + (if hi - 1 in born && FiredAfter(born[hi - 1], cause) then [born[hi - 1].event] else [])
  }

  lemma {:induction false} ChildrenSplit(born: map<nat, Row>, born': map<nat, Row>, lo: nat, hi: nat, cause: nat)
    requires lo <= hi && forall id: nat | id < lo :: (id in born <==> id in born') && (id in born ==> born[id] == born'[id])
    ensures Children(born', 0, hi, cause) == Children(born, 0, lo, cause) + Children(born', lo, hi, cause)
    decreases hi
  {
    if hi == lo {
      ChildrenSame(born, born', lo, cause);
    } else {
      ChildrenSplit(born, born', lo, hi - 1, cause);
    }
  }

  lemma {:induction false} ChildrenSame(born: map<nat, Row>, born': map<nat, Row>, hi: nat, cause: nat)
    requires forall id: nat | id < hi :: (id in born <==> id in born') && (id in born ==> born[id] == born'[id])
    ensures Children(born', 0, hi, cause) == Children(born, 0, hi, cause)
  {
    if hi > 0 {
      ChildrenSame(born, born', hi - 1, cause);
    }
  }

  lemma {:induction false} NoChildren(born: map<nat, Row>, lo: nat, hi: nat, cause: nat)
    requires forall id | lo <= id < hi && id in born :: !FiredAfter(born[id], cause)
    ensures Children(born, lo, hi, cause) == []
    decreases hi
  {
    if lo < hi {
      NoChildren(born, lo, hi - 1, cause);
    }
  }

  lemma {:induction false} AllChildren(born: map<nat, Row>, lo: nat, hi: nat, cause: nat, events: seq<string>)
    requires lo <= hi && hi - lo <= |events|
    requires forall id | lo <= id < hi :: id in born && FiredAfter(born[id], cause) && born[id].event == events[id - lo]
    ensures Children(born, lo, hi, cause) == events[..hi - lo]
    decreases hi
  {
    if lo < hi {
      AllChildren(born, lo, hi - 1, cause, events);
      assert events[..hi - lo] == events[..hi - 1 - lo] + [events[hi - 1 - lo]];
    }
  }

  function FiredFor(s: State, p: nat): seq<string> {
    Children(s.born, 0, s.w.db.nextId, p)
  }

  ghost predicate FiresOnce(s: State, p: nat) {
    && (p != 0 ==> FiredFor(s, p) == if p in s.handed then s.handed[p] else [])
    && (p in s.handed ==> p < s.w.db.nextId)
    && (p in s.w.db.rows ==> (s.w.db.rows[p].followed <==> p in s.handed))
    && (p in s.w.db.rows && s.w.db.rows[p].followed ==> Final(s.w.db.rows[p].status))
  }

  ghost predicate AllFireOnce(s: State) {
    forall p :: FiresOnce(s, p)
  }

  // One step

  lemma PlainAdded(s: State, l: Label, id: nat)
    requires Inv(s) && Enabled(s, l) && !l.Hand? && id !in s.w.db.rows && id in Apply(s, l).w.db.rows
    ensures PlainRow(Apply(s, l).w.db.rows[id])
  {
    AddedRow(s, l, id);
    if l.RecoverOne? {
      PlainRerun(s, id);
    } else if l.RestartEvent? || l.Submit? || l.CliEnqueue? {
      PlainFiring(s, l, id);
    } else {
      NothingAdded(s, l);
    }
  }

  /** No after trigger fired it, and nothing is handed on yet. */
  predicate PlainRow(r: Row) {
    !(r.kind.After? && r.retryOf == 0) && !r.followed
  }

  lemma PlainFiring(s: State, l: Label, id: nat)
    requires Enabled(s, l) && (l.RestartEvent? || l.Submit? || l.CliEnqueue?) && id !in s.w.db.rows && id in Apply(s, l).w.db.rows
    ensures PlainRow(Apply(s, l).w.db.rows[id])
  {
  }

  lemma PlainRerun(s: State, id: nat)
    requires Inv(s) && Enabled(s, RecoverOne) && id !in s.w.db.rows && id in Apply(s, RecoverOne).w.db.rows
    ensures PlainRow(Apply(s, RecoverOne).w.db.rows[id])
  {
    AddedByRecover(s, id);
  }

  lemma KeptFollowed(s: State, l: Label, id: nat)
    requires Inv(s) && Enabled(s, l) && !l.Hand? && id in s.w.db.rows && id in Apply(s, l).w.db.rows
    ensures Apply(s, l).w.db.rows[id].followed == s.w.db.rows[id].followed
  {
    if l.RestartEvent? || l.Submit? || l.CliEnqueue? {
      KeptByInsert(s, l, id);
    } else if l.CancelOne? {
      KeptByFinish(s.w.db, l.id, Canceled, "canceled_by_user", s.now, id);
    } else if l.FinishRow? {
      KeptByFinish(s.w.db, l.id, Outcome(l.res), l.res.reason, s.now, id);
    } else if l.RecoverOne? {
      RecoverKeepsFollowed(s.w.db, s.w.mem.specs, s.phase.todo[0], s.now, id);
    } else {
      RestKeepsFollowed(s, l, id);
    }
  }

  lemma RecoverKeepsFollowed(db: Db, specs: map<string, Spec>, run: Run, now: int, id: nat)
    requires Numbered(db) && id in db.rows
    ensures var d := RecoverRow(db, specs, run, now); id in d.rows && d.rows[id].followed == db.rows[id].followed
  {
  }

  lemma RestKeepsFollowed(s: State, l: Label, id: nat)
    requires Enabled(s, l) && id in s.w.db.rows && id in Apply(s, l).w.db.rows
    requires !l.RestartEvent? && !l.Submit? && !l.CliEnqueue? && !l.CancelOne? && !l.FinishRow? && !l.RecoverOne? && !l.Hand?
    ensures Apply(s, l).w.db.rows[id].followed == s.w.db.rows[id].followed
  {
    if l.Start? || l.SettleRow? || l.CliCancel? || l.CliCancelEvent? || l.CountSkip? || l.Prune? {
    } else {
      assert Apply(s, l).w.db == s.w.db;
    }
  }

  lemma StepFiresOnce(s: State, l: Label, p: nat)
    requires Inv(s) && AllFireOnce(s) && Enabled(s, l) && !l.Hand?
    ensures FiresOnce(Apply(s, l), p)
  {
    var s' := Apply(s, l);
    assert FiresOnce(s, p);
    StepRecords(s, l);
    StepHanded(s, l);
    forall id | s.w.db.nextId <= id < s'.w.db.nextId && id in s'.born ensures !FiredAfter(s'.born[id], p) {
      StepBornRow(s, l, id);
      PlainAdded(s, l, id);
    }
    SameBorn(s, l);
    ChildrenSplit(s.born, s'.born, s.w.db.nextId, s'.w.db.nextId, p);
    NoChildren(s'.born, s.w.db.nextId, s'.w.db.nextId, p);
    if p in s'.w.db.rows {
      if p in s.w.db.rows {
        KeptFollowed(s, l, p);
        if s.w.db.rows[p].followed { FinalStays(s, l, p); }
      } else {
        PlainAdded(s, l, p);
        AddedRow(s, l, p);
      }
    }
  }

  ghost predicate AgreeBelow(born: map<nat, Row>, born': map<nat, Row>, n: nat) {
    forall id: nat | id < n :: (id in born <==> id in born') && (id in born ==> born[id] == born'[id])
  }

  lemma SameBorn(s: State, l: Label)
    requires Inv(s) && Enabled(s, l)
    ensures AgreeBelow(s.born, Apply(s, l).born, s.w.db.nextId)
  {
    StepRecords(s, l);
    forall id: nat | id < s.w.db.nextId
      ensures (id in s.born <==> id in Apply(s, l).born) && (id in s.born ==> s.born[id] == Apply(s, l).born[id])
    {
      StepBornRow(s, l, id);
    }
  }

  lemma StepHanded(s: State, l: Label)
    requires Enabled(s, l) && !l.Hand?
    ensures Apply(s, l).handed == s.handed
  {
  }

  /** Even a stale cancellation leaves a final row final. */
  lemma FinalStays(s: State, l: Label, id: nat)
    requires Inv(s) && Enabled(s, l) && id in s.w.db.rows && id in Apply(s, l).w.db.rows && Final(s.w.db.rows[id].status)
    ensures Final(Apply(s, l).w.db.rows[id].status)
  {
    StatusesMoveExactly(s, l);
    if Overwrites(s, l) {
      KeptByFinish(s.w.db, l.id, Canceled, "canceled_by_user", s.now, id);
    }
  }

  lemma HandedRow(w: World, run: Run, now: int, x: nat)
    requires Numbered(w.db) && run.id in w.db.rows && w.db.nextId <= x < Handed(w, run, now).db.nextId
    ensures var d, events := Handed(w, run, now).db, FiredBy(w.mem, run.row);
            && x - w.db.nextId < |events| && x in d.rows
            && FiredAfter(d.rows[x], run.id) && d.rows[x].event == events[x - w.db.nextId]
  {
    HandedMeaning(w, run, now);
    assert InsertedAs(Handed(w, run, now).db.rows[x], AfterFirings(FiredBy(w.mem, run.row), run.id)[x - w.db.nextId]);
  }

  lemma HandApplied(s: State, id: nat)
    requires Enabled(s, Hand(id))
    ensures var s', w := Apply(s, Hand(id)), Handed(s.w, Run(id, s.w.db.rows[id]), s.now);
            s'.w == w && s'.born == s.born + NewRows(s.w.db, w.db)
  {
  }

  lemma HandedBorn(w: World, run: Run, now: int, born: map<nat, Row>)
    requires Numbered(w.db) && run.id in w.db.rows
    ensures var d, events := Handed(w, run, now).db, FiredBy(w.mem, run.row);
            && d.nextId == w.db.nextId + |events|
            && (forall x | w.db.nextId <= x < d.nextId ::
                  var all := born + NewRows(w.db, d);
                  x in all && FiredAfter(all[x], run.id) && all[x].event == events[x - w.db.nextId])
  {
    HandedMeaning(w, run, now);
    var d := Handed(w, run, now).db;
    forall x | w.db.nextId <= x < d.nextId
      ensures var all := born + NewRows(w.db, d);
              x in all && FiredAfter(all[x], run.id) && all[x].event == FiredBy(w.mem, run.row)[x - w.db.nextId]
    {
      HandedRow(w, run, now, x);
      assert x in NewRows(w.db, d);
    }
  }

  /** The rows that a Hand adds are the firings of that run, in order. */
  lemma HandBorn(s: State, id: nat)
    requires Inv(s) && Enabled(s, Hand(id))
    ensures var n, s', events := s.w.db.nextId, Apply(s, Hand(id)), FiredBy(s.w.mem, s.w.db.rows[id]);
            && s'.w.db.nextId == n + |events|
            && (forall x | n <= x < s'.w.db.nextId ::
                  x in s'.born && FiredAfter(s'.born[x], id) && s'.born[x].event == events[x - n])
  {
    HandApplied(s, id);
    HandedBorn(s.w, Run(id, s.w.db.rows[id]), s.now, s.born);
  }

  lemma HandFired(s: State, id: nat, p: nat)
    requires Inv(s) && Enabled(s, Hand(id))
    ensures FiredFor(Apply(s, Hand(id)), p)
         == FiredFor(s, p) + (if p == id then FiredBy(s.w.mem, s.w.db.rows[id]) else [])
  {
    var s', n, events := Apply(s, Hand(id)), s.w.db.nextId, FiredBy(s.w.mem, s.w.db.rows[id]);
    HandBorn(s, id);
    SameBorn(s, Hand(id));
    ChildrenSplit(s.born, s'.born, n, s'.w.db.nextId, p);
    HandChildren(s'.born, n, s'.w.db.nextId, id, p, events);
  }

  lemma HandChildren(born: map<nat, Row>, n: nat, hi: nat, id: nat, p: nat, events: seq<string>)
    requires hi == n + |events|
    requires forall x | n <= x < hi :: x in born && FiredAfter(born[x], id) && born[x].event == events[x - n]
    ensures Children(born, n, hi, p) == if p == id then events else []
  {
    if p == id {
      AllChildren(born, n, hi, id, events);
      assert events[..|events|] == events;
    } else {
      NoChildren(born, n, hi, p);
    }
  }

  lemma HandFiresOnce(s: State, id: nat, p: nat)
    requires Inv(s) && AllFireOnce(s) && Enabled(s, Hand(id))
    ensures FiresOnce(Apply(s, Hand(id)), p)
  {
    assert FiresOnce(s, p) && FiresOnce(s, id);
    HandFired(s, id, p);
    HandRecords(s, id);
    HandRow(s, id, p);
  }

  lemma HandRow(s: State, id: nat, p: nat)
    requires Numbered(s.w.db) && Enabled(s, Hand(id))
    ensures var db, s' := s.w.db, Apply(s, Hand(id));
            && db.nextId <= s'.w.db.nextId && s'.handed.Keys == s.handed.Keys + {id}
            && (p in s.handed && p != id ==> s'.handed[p] == s.handed[p])
            && (p in s'.w.db.rows ==>
                  if p in db.rows then s'.w.db.rows[p].status == db.rows[p].status
                                       && s'.w.db.rows[p].followed == (p == id || db.rows[p].followed)
                  else p >= db.nextId && !s'.w.db.rows[p].followed)
  {
    HandApplied(s, id);
    HandRecords(s, id);
    HandedOldRow(s.w, Run(id, s.w.db.rows[id]), s.now, p);
  }

  lemma HandedOldRow(w: World, run: Run, now: int, p: nat)
    requires Numbered(w.db) && run.id in w.db.rows
    ensures var db, d := w.db, Handed(w, run, now).db;
            && db.nextId <= d.nextId
            && (p in d.rows ==>
                  if p in db.rows then d.rows[p].status == db.rows[p].status
                                       && d.rows[p].followed == (p == run.id || db.rows[p].followed)
                  else p >= db.nextId && !d.rows[p].followed)
  {
    HandedMeaning(w, run, now);
  }

  lemma StepAllFireOnce(s: State, l: Label)
    requires Inv(s) && AllFireOnce(s) && Enabled(s, l)
    ensures AllFireOnce(Apply(s, l))
    ensures forall p | p in s.handed :: p in Apply(s, l).handed && Apply(s, l).handed[p] == s.handed[p]
  {
    forall p ensures FiresOnce(Apply(s, l), p) {
      if l.Hand? { HandFiresOnce(s, l.id, p); } else { StepFiresOnce(s, l, p); }
    }
    if l.Hand? { assert FiresOnce(s, l.id); } else { StepHanded(s, l); }
  }

  lemma {:induction false} RunFiresOnce(s: State, ls: seq<Label>)
    requires Inv(s) && AllFireOnce(s) && Runs(s, ls)
    ensures Inv(Exec(s, ls)) && AllFireOnce(Exec(s, ls))
    ensures forall p | p in s.handed :: p in Exec(s, ls).handed && Exec(s, ls).handed[p] == s.handed[p]
    decreases |ls|
  {
    if ls != [] {
      StepInv(s, ls[0]);
      StepAllFireOnce(s, ls[0]);
      RunFiresOnce(Apply(s, ls[0]), ls[1..]);
    }
  }

  /** Before a run is handed on, after triggers have fired nothing for it. Once it is, they have
      fired what the config of that moment lists for its event and status, each entry once, and
      they never fire anything else for it, in any continuation and over any number of crashes. */
  lemma FiredExactlyOnce(s: State, id: nat, ls: seq<Label>)
    requires Inv(s) && AllFireOnce(s) && Enabled(s, Hand(id)) && Runs(Apply(s, Hand(id)), ls)
    ensures FiredFor(s, id) == []
    ensures FiredFor(Exec(Apply(s, Hand(id)), ls), id) == FiredBy(s.w.mem, s.w.db.rows[id])
    ensures s.w.db.rows[id].status.Retried? ==> FiredBy(s.w.mem, s.w.db.rows[id]) == []
  {
    NotYetFired(s, id);
    StepInv(s, Hand(id));
    StepAllFireOnce(s, Hand(id));
    HandRecords(s, id);
    RunFiresOnce(Apply(s, Hand(id)), ls);
    FiredAsHanded(Exec(Apply(s, Hand(id)), ls), id);
  }

  lemma NotYetFired(s: State, id: nat)
    requires Numbered(s.w.db) && AllFireOnce(s) && Enabled(s, Hand(id))
    ensures FiredFor(s, id) == []
  {
    assert FiresOnce(s, id);
  }

  lemma HandRecords(s: State, id: nat)
    requires Enabled(s, Hand(id))
    ensures id in Apply(s, Hand(id)).handed && Apply(s, Hand(id)).handed[id] == FiredBy(s.w.mem, s.w.db.rows[id])
  {
  }

  lemma FiredAsHanded(s: State, id: nat)
    requires AllFireOnce(s) && id != 0 && id in s.handed
    ensures FiredFor(s, id) == s.handed[id]
  {
    assert FiresOnce(s, id);
  }

  /** A run that Prune deletes before it is handed on never fires anything. */
  lemma {:induction false} PrunedUnhandedIsLost(s: State, id: nat, ls: seq<Label>)
    requires Inv(s) && AllFireOnce(s) && Runs(s, ls)
    requires 0 < id < s.w.db.nextId && id !in s.w.db.rows && id !in s.handed
    ensures FiredFor(Exec(s, ls), id) == []
    ensures id !in Exec(s, ls).w.db.rows && id !in Exec(s, ls).handed
    decreases |ls|
  {
    assert FiresOnce(s, id);
    if ls != [] {
      StepInv(s, ls[0]);
      StepAllFireOnce(s, ls[0]);
      StepRecords(s, ls[0]);
      StillUnhanded(s, ls[0], id);
      PrunedUnhandedIsLost(Apply(s, ls[0]), id, ls[1..]);
    }
  }

  lemma StillUnhanded(s: State, l: Label, id: nat)
    requires Enabled(s, l) && id !in s.handed && l != Hand(id)
    ensures id !in Apply(s, l).handed
  {
    if !l.Hand? { StepHanded(s, l); }
  }

  /** A run that has ended and is still to be handed on. */
  predicate ToHand(s: State, id: nat) {
    id in s.w.db.rows && EndedUnfollowed()(s.w.db.rows[id]) && id !in s.handed
  }

  predicate PrunesRow(s: State, l: Label, id: nat) {
    l.Prune? && id in s.w.db.rows && Prunable(s.w.db.rows[id], l.before)
  }

  /** In one step it is handed on, or pruned, or still to be handed on. */
  lemma StepToHand(s: State, l: Label, id: nat)
    requires Inv(s) && AllFireOnce(s) && Enabled(s, l) && ToHand(s, id)
    ensures var s' := Apply(s, l);
            if l == Hand(id) then id in s'.handed
            else if PrunesRow(s, l, id) then id !in s'.w.db.rows && id !in s'.handed
            else ToHand(s', id)
  {
    if l == Hand(id) {
      HandRecords(s, id);
    } else {
      StillUnhanded(s, l, id);
      if PrunesRow(s, l, id) {
        PruneRemoves(s, l, id);
      } else {
        StillToHand(s, l, id);
      }
    }
  }

  lemma PruneRemoves(s: State, l: Label, id: nat)
    requires Enabled(s, l) && PrunesRow(s, l, id)
    ensures id !in Apply(s, l).w.db.rows
  {
  }

  lemma StillToHand(s: State, l: Label, id: nat)
    requires Inv(s) && Enabled(s, l) && ToHand(s, id) && l != Hand(id) && !PrunesRow(s, l, id)
    ensures var rows := Apply(s, l).w.db.rows; id in rows && EndedUnfollowed()(rows[id])
  {
    if id !in Apply(s, l).w.db.rows { RemovedRow(s, l, id); }
    FinalStays(s, l, id);
    if l.Hand? { HandRow(s, l.id, id); } else { KeptFollowed(s, l, id); }
  }

  /** The run is handed on before a Prune takes its row. */
  ghost predicate HandedFirst(s: State, ls: seq<Label>, id: nat)
    requires Runs(s, ls)
    decreases |ls|
  {
    ls != [] && (ls[0] == Hand(id) || (!PrunesRow(s, ls[0], id) && HandedFirst(Apply(s, ls[0]), ls[1..], id)))
  }

  /** A Prune takes its row before it is handed on. */
  ghost predicate PrunedFirst(s: State, ls: seq<Label>, id: nat)
    requires Runs(s, ls)
    decreases |ls|
  {
    ls != [] && (PrunesRow(s, ls[0], id) || (ls[0] != Hand(id) && PrunedFirst(Apply(s, ls[0]), ls[1..], id)))
  }

  /** A run that has ended is handed on, and then has what it fired at that moment, once; or it is pruned
      before that, and never fires anything; or it waits to be handed on, and has fired nothing yet. */
  lemma {:induction false} HandedOrLost(s: State, ls: seq<Label>, id: nat)
    requires Inv(s) && AllFireOnce(s) && Runs(s, ls) && ToHand(s, id)
    ensures var s' := Exec(s, ls);
            && (id in s'.handed <==> HandedFirst(s, ls, id))
            && (id !in s'.handed && id !in s'.w.db.rows <==> PrunedFirst(s, ls, id))
            && FiredFor(s', id) == (if id in s'.handed then s'.handed[id] else [])
            && (!HandedFirst(s, ls, id) && !PrunedFirst(s, ls, id) ==> ToHand(s', id))
    decreases |ls|
  {
    assert FiresOnce(s, id);
    if ls != [] {
      var l, s1 := ls[0], Apply(s, ls[0]);
      StepInv(s, l);
      StepAllFireOnce(s, l);
      StepToHand(s, l, id);
      if l == Hand(id) {
        RunFiresOnce(s1, ls[1..]);
        FiredAsHanded(Exec(s1, ls[1..]), id);
      } else if PrunesRow(s, l, id) {
        StepRecords(s, l);
        PrunedUnhandedIsLost(s1, id, ls[1..]);
      } else {
        HandedOrLost(s1, ls[1..], id);
      }
    }
  }

  // How far one firing can spread

  /** What a row can still set off: the weight of its event beyond its own run. */
  function Potential(w: string -> nat): Row -> int {
    (r: Row) => if r.followed || r.status.Retried? || w(r.event) == 0 then 0 else w(r.event) - 1
  }

  function ByAfter(): Row -> int {
    (r: Row) => if r.kind.After? && r.retryOf == 0 then 1 else 0
  }

  /** The runs that after triggers have ever fired, and those that the table can still set off. */
  ghost function Spread(s: State, w: string -> nat): int {
    Sum(s.born, s.w.db.nextId, ByAfter()) + Sum(s.w.db.rows, s.w.db.nextId, Potential(w))
  }

  function Budget(w: string -> nat, ls: seq<Label>): nat {
    if ls == [] then 0
    else (if (ls[0].CliEnqueue? || ls[0].Submit? || ls[0].RestartEvent?) && w(ls[0].event) > 0 then w(ls[0].event) - 1 else 0)
         + Budget(w, ls[1..])
  }

  ghost predicate WeighedLabel(l: Label, w: string -> nat) {
    l.Boot? || l.Configure? ==> Weighs(FollowMap(l.specs), w)
  }

  ghost predicate Weighed(s: State, w: string -> nat) {
    !s.phase.Down? ==> Weighs(s.w.mem.follows, w)
  }

  lemma BornStays(s: State, l: Label)
    requires Inv(s) && Enabled(s, l) && Apply(s, l).w.db.nextId == s.w.db.nextId
    ensures Sum(Apply(s, l).born, s.w.db.nextId, ByAfter()) == Sum(s.born, s.w.db.nextId, ByAfter())
  {
    SameBorn(s, l);
    SumSame(s.born, Apply(s, l).born, s.w.db.nextId, ByAfter());
  }

  /** Only a Hand and a rerun change what a row can set off, and they lower it. */
  lemma QuietTerm(s: State, l: Label, w: string -> nat, id: nat)
    requires Inv(s) && Enabled(s, l) && !l.Hand? && id < s.w.db.nextId
    ensures Term(Apply(s, l).w.db.rows, id, Potential(w)) <= Term(s.w.db.rows, id, Potential(w))
  {
    StepExtends(s, l);
    if id in Apply(s, l).w.db.rows {
      KeptFollowed(s, l, id);
      KeptRow(s, l, id);
    }
  }

  /** A step that adds no row sets off nothing new. */
  lemma SpreadQuiet(s: State, l: Label, w: string -> nat)
    requires Inv(s) && Enabled(s, l) && Apply(s, l).w.db.nextId == s.w.db.nextId && !l.Hand?
    ensures Spread(Apply(s, l), w) <= Spread(s, w)
  {
    BornStays(s, l);
    forall id: nat | id < s.w.db.nextId
      ensures Term(Apply(s, l).w.db.rows, id, Potential(w)) <= Term(s.w.db.rows, id, Potential(w))
    {
      QuietTerm(s, l, w, id);
    }
    SumLe(Apply(s, l).w.db.rows, s.w.db.rows, s.w.db.nextId, Potential(w), Potential(w));
  }

  lemma PlainBorn(s: State, l: Label, id: nat)
    requires Inv(s) && Enabled(s, l) && !l.Hand? && id !in s.w.db.rows && id !in s.born
    requires id in Apply(s, l).w.db.rows
    ensures id in Apply(s, l).born ==> ByAfter()(Apply(s, l).born[id]) == 0
  {
    PlainAdded(s, l, id);
    StepBornRow(s, l, id);
  }

  lemma SumStays(rows: map<nat, Row>, rows': map<nat, Row>, n: nat, f: Row -> int)
    requires AgreeBelow(rows, rows', n)
    requires n in rows' ==> f(rows'[n]) == 0
    ensures Sum(rows', n + 1, f) == Sum(rows, n, f)
  {
    SumSame(rows, rows', n, f);
  }

  lemma BornGrows(s: State, l: Label)
    requires Inv(s) && Enabled(s, l) && !l.Hand? && Apply(s, l).w.db.nextId == s.w.db.nextId + 1
    requires s.w.db.nextId in Apply(s, l).w.db.rows
    ensures Sum(Apply(s, l).born, s.w.db.nextId + 1, ByAfter()) == Sum(s.born, s.w.db.nextId, ByAfter())
  {
    BornNothing(s, l, Apply(s, l).born);
  }

  lemma BornNothing(s: State, l: Label, born': map<nat, Row>)
    requires Inv(s) && Enabled(s, l) && !l.Hand? && s.w.db.nextId in Apply(s, l).w.db.rows && born' == Apply(s, l).born
    ensures Sum(born', s.w.db.nextId + 1, ByAfter()) == Sum(s.born, s.w.db.nextId, ByAfter())
  {
    PlainBorn(s, l, s.w.db.nextId);
    SameBorn(s, l);
    SumStays(s.born, born', s.w.db.nextId, ByAfter());
  }

  /** One row more, which no after trigger fired. */
  lemma SpreadInsert(s: State, l: Label, w: string -> nat)
    requires Inv(s) && Enabled(s, l) && (l.CliEnqueue? || l.Submit? || l.RestartEvent?)
    requires Apply(s, l).w.db.nextId != s.w.db.nextId
    ensures Spread(Apply(s, l), w) <= Spread(s, w) + (if w(l.event) > 0 then w(l.event) - 1 else 0)
  {
    InsertedOne(s, l);
    BornGrows(s, l);
    SpreadInsertRows(s, Apply(s, l), l.event, w);
  }

  lemma SpreadInsertRows(s: State, s': State, event: string, w: string -> nat)
    requires var rows, rows', n := s.w.db.rows, s'.w.db.rows, s.w.db.nextId;
             && s'.w.db.nextId == n + 1 && n in rows' && n !in rows && rows' == rows[n := rows'[n]] && rows'[n].event == event
    requires Sum(s'.born, s.w.db.nextId + 1, ByAfter()) == Sum(s.born, s.w.db.nextId, ByAfter())
    ensures Spread(s', w) <= Spread(s, w) + (if w(event) > 0 then w(event) - 1 else 0)
  {
    var n := s.w.db.nextId;
    SumPush(s.w.db.rows, n, Potential(w), s'.w.db.rows[n]);
    assert Potential(w)(s'.w.db.rows[n]) <= if w(event) > 0 then w(event) - 1 else 0;
  }

  lemma InsertedOne(s: State, l: Label)
    requires Inv(s) && Enabled(s, l) && (l.CliEnqueue? || l.Submit? || l.RestartEvent?)
    requires Apply(s, l).w.db.nextId != s.w.db.nextId
    ensures var db, db' := s.w.db, Apply(s, l).w.db;
            && db'.nextId == db.nextId + 1 && db.nextId in db'.rows && db.nextId !in db.rows
            && db'.rows == db.rows[db.nextId := db'.rows[db.nextId]] && db'.rows[db.nextId].event == l.event
  {
  }

  /** What RecoverOne writes when it queues the run again. */
  lemma RetriedRows(s: State)
    requires Inv(s) && Enabled(s, RecoverOne) && Apply(s, RecoverOne).w.db.nextId != s.w.db.nextId
    ensures var db, s', n, id := s.w.db, Apply(s, RecoverOne), s.w.db.nextId, s.phase.todo[0].id;
            && s'.w.db.nextId == n + 1 && id in db.rows && id < n && n in s'.w.db.rows && id in s'.w.db.rows
            && s'.w.db.rows == db.rows[n := s'.w.db.rows[n]][id := s'.w.db.rows[id]]
            && s'.w.db.rows[n].event == db.rows[id].event && s'.w.db.rows[id].status.Retried?
            && CutOff()(db.rows[id])
  {
    var run := s.phase.todo[0];
    assert run in s.phase.todo && Waits(s.w.db, run);
    assert OwnedRow(s, run.id) && run.id in TodoIds(s.phase.todo);
  }

  lemma SumPushPut(rows: map<nat, Row>, n: nat, f: Row -> int, child: Row, id: nat, parent: Row)
    requires id in rows && id < n
    ensures Sum(rows[n := child][id := parent], n + 1, f) == Sum(rows, n, f) + f(child) - f(rows[id]) + f(parent)
  {
    SumPush(rows, n, f, child);
    SumPut(rows[n := child], n + 1, f, id, parent);
  }

  lemma RetryPotential(rows: map<nat, Row>, n: nat, child: Row, id: nat, parent: Row, w: string -> nat)
    requires id in rows && id < n && child.event == rows[id].event && parent.status.Retried?
    requires !rows[id].followed && !rows[id].status.Retried?
    ensures Sum(rows[n := child][id := parent], n + 1, Potential(w)) <= Sum(rows, n, Potential(w))
  {
    SumPushPut(rows, n, Potential(w), child, id, parent);
  }

  /** The rerun takes over what the run that it repeats could set off. */
  lemma SpreadRetry(s: State, w: string -> nat)
    requires Inv(s) && AllFireOnce(s) && Enabled(s, RecoverOne) && Apply(s, RecoverOne).w.db.nextId != s.w.db.nextId
    ensures Spread(Apply(s, RecoverOne), w) <= Spread(s, w)
  {
    RetriedRows(s);
    BornGrows(s, RecoverOne);
    CutOffUnfollowed(s, s.phase.todo[0].id);
    SpreadRetryRows(s, Apply(s, RecoverOne), s.phase.todo[0].id, w);
  }

  lemma SpreadRetryRows(s: State, s': State, id: nat, w: string -> nat)
    requires var rows, rows', n := s.w.db.rows, s'.w.db.rows, s.w.db.nextId;
             && s'.w.db.nextId == n + 1 && id in rows && id < n && n in rows' && id in rows'
             && rows' == rows[n := rows'[n]][id := rows'[id]]
             && rows'[n].event == rows[id].event && rows'[id].status.Retried?
             && !rows[id].followed && !rows[id].status.Retried?
    requires Sum(s'.born, s.w.db.nextId + 1, ByAfter()) == Sum(s.born, s.w.db.nextId, ByAfter())
    ensures Spread(s', w) <= Spread(s, w)
  {
    RetryPotential(s.w.db.rows, s.w.db.nextId, s'.w.db.rows[s.w.db.nextId], id, s'.w.db.rows[id], w);
  }

  lemma CutOffUnfollowed(s: State, id: nat)
    requires AllFireOnce(s) && id in s.w.db.rows && CutOff()(s.w.db.rows[id])
    ensures !s.w.db.rows[id].followed
  {
    assert FiresOnce(s, id);
  }

  lemma {:induction false} CountAllAfter(born: map<nat, Row>, born': map<nat, Row>, lo: nat, hi: nat)
    requires lo <= hi && AgreeBelow(born, born', lo)
    requires forall id | lo <= id < hi :: id in born' && born'[id].kind.After? && born'[id].retryOf == 0
    ensures Sum(born', hi, ByAfter()) == Sum(born, lo, ByAfter()) + hi - lo
    decreases hi
  {
    if lo == hi {
      SumSame(born, born', lo, ByAfter());
    } else {
      CountAllAfter(born, born', lo, hi - 1);
    }
  }

  function Beyond(w: string -> nat): string -> nat {
    (e: string) => if w(e) > 0 then w(e) - 1 else 0
  }

  lemma {:induction false} LoadBeyond(w: string -> nat, events: seq<string>)
    requires forall e :: w(e) > 0
    ensures Load(Beyond(w), events) + |events| == Load(w, events)
  {
    if events != [] {
      LoadBeyond(w, events[..|events| - 1]);
    }
  }

  /** The table side of a Hand: what the fired runs can set off is paid for by the run itself. */
  lemma PotentialHand(w0: World, run: Run, now: int, w: string -> nat)
    requires Numbered(w0.db) && Weighs(w0.mem.follows, w)
    requires run.id in w0.db.rows && w0.db.rows[run.id] == run.row && EndedUnfollowed()(run.row)
    ensures var d := Handed(w0, run, now).db;
            Sum(d.rows, d.nextId, Potential(w)) + |FiredBy(w0.mem, run.row)| <= Sum(w0.db.rows, w0.db.nextId, Potential(w))
  {
    var events := FiredBy(w0.mem, run.row);
    var fs, max := AfterFirings(events, run.id), Limits(events, w0.mem.specs);
    var d := InsertAll(w0.db, fs, max, now);
    InsertAllMeaning(w0.db, fs, max, now);
    InsertAllSum(w0.db, fs, max, now, Potential(w), Beyond(w), events);
    SumPut(d.rows, d.nextId, Potential(w), run.id, d.rows[run.id].(followed := true));
    FiredLoad(Followers(w0.mem.follows, run.row.event), w0.mem.specs, run.row.status, w);
    LoadBeyond(w, events);
    if run.row.status.Retried? { assert events == []; }
  }

  /** What a handed run fires is paid for by what the run itself could set off. */
  lemma SpreadHand(s: State, id: nat, w: string -> nat)
    requires Inv(s) && Enabled(s, Hand(id)) && Weighs(s.w.mem.follows, w)
    ensures Spread(Apply(s, Hand(id)), w) <= Spread(s, w)
  {
    PotentialHand(s.w, Run(id, s.w.db.rows[id]), s.now, w);
    HandBorn(s, id);
    SameBorn(s, Hand(id));
    CountAllAfter(s.born, Apply(s, Hand(id)).born, s.w.db.nextId, Apply(s, Hand(id)).w.db.nextId);
  }

  lemma StepSpread(s: State, l: Label, w: string -> nat)
    requires Inv(s) && AllFireOnce(s) && Enabled(s, l) && Weighed(s, w) && WeighedLabel(l, w)
    ensures Weighed(Apply(s, l), w)
    ensures Spread(Apply(s, l), w) <= Spread(s, w) + Budget(w, [l])
  {
    assert Budget(w, [l]) == Budget(w, [l][1..]) + Budget(w, [l]) && [l][1..] == [];
    if !l.Boot? && !l.Configure? && !l.Crash? { StepSameSpecs(s, l); StepStaysUp(s, l); }
    if l.Hand? {
      SpreadHand(s, l.id, w);
    } else if Apply(s, l).w.db.nextId == s.w.db.nextId {
      SpreadQuiet(s, l, w);
    } else if l.RecoverOne? {
      SpreadRetry(s, w);
    } else {
      OnlyInsertsGrow(s, l);
      SpreadInsert(s, l, w);
    }
  }

  lemma StepStaysUp(s: State, l: Label)
    requires Enabled(s, l) && !l.Boot? && !l.Crash?
    ensures Apply(s, l).phase.Down? <==> s.phase.Down?
  {
  }

  lemma OnlyInsertsGrow(s: State, l: Label)
    requires Inv(s) && Enabled(s, l) && !l.Hand? && !l.RecoverOne? && Apply(s, l).w.db.nextId != s.w.db.nextId
    ensures l.CliEnqueue? || l.Submit? || l.RestartEvent?
  {
    if l.CancelOne? || l.FinishRow? || l.Start? || l.SettleRow? || l.CliCancel? {
    } else if l.CliCancelEvent? || l.CountSkip? || l.Prune? {
    }
  }

  /** With after triggers that weigh w, firings from outside and restarts of the events e1, e2, ...
      set off at most w(e1) - 1 + w(e2) - 1 + ... runs through after triggers, over any run of the
      protocol, reruns and crashes included. */
  lemma {:induction false} AfterRunsBounded(s: State, ls: seq<Label>, w: string -> nat)
    requires Inv(s) && AllFireOnce(s) && Runs(s, ls) && Weighed(s, w) && forall l | l in ls :: WeighedLabel(l, w)
    ensures Spread(Exec(s, ls), w) <= Spread(s, w) + Budget(w, ls)
    ensures Sum(Exec(s, ls).born, Exec(s, ls).w.db.nextId, ByAfter()) <= Spread(s, w) + Budget(w, ls)
    decreases |ls|
  {
    if ls == [] {
      forall id: nat | id < s.w.db.nextId ensures Term(s.w.db.rows, id, Potential(w)) >= 0 {
        if id in s.w.db.rows { assert Potential(w)(s.w.db.rows[id]) >= 0; }
      }
      SumNonNegative(s.w.db.rows, s.w.db.nextId, Potential(w));
    } else {
      StepInv(s, ls[0]);
      StepAllFireOnce(s, ls[0]);
      StepSpread(s, ls[0], w);
      AfterRunsBounded(Apply(s, ls[0]), ls[1..], w);
      assert [ls[0]][1..] == [];
    }
  }
}
