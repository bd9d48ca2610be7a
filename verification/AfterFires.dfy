/** After triggers from the config to the rows: over every run under accepted configs, an ended run that is
    handed on gets one row for each event whose trigger lists its status, and no other. */
module AfterFires {
  import opened Queue
  import opened Dispatch
  import opened Protocol
  import opened Safety
  import opened AfterOnce
  import opened Config

  /** The dispatcher runs under the config. */
  ghost predicate Under(mem: Mem, events: seq<Event>) {
    Accepted(events) && mem.specs == SpecMap(Specs(events)) && mem.follows == FollowMap(Specs(events))
  }

  ghost predicate ReadsAccepted(l: Label) {
    l.Boot? || l.Configure? ==> exists events :: Accepted(events) && l.specs == Specs(events)
  }

  ghost predicate HasConfig(s: State) {
    !s.phase.Down? ==> exists events :: Under(s.w.mem, events)
  }

  lemma StepConfig(s: State, l: Label)
    requires Enabled(s, l) && HasConfig(s) && ReadsAccepted(l)
    ensures HasConfig(Apply(s, l))
  {
    if l.Boot? || l.Configure? {
      var events :| Accepted(events) && l.specs == Specs(events);
      ReadConfig(s, l);
      assert Under(Apply(s, l).w.mem, events);
    } else if !l.Crash? {
      StepSameSpecs(s, l);
      StepStaysUp(s, l);
      if !s.phase.Down? {
        var events :| Under(s.w.mem, events);
        assert Under(Apply(s, l).w.mem, events);
      }
    }
  }

  lemma ReadConfig(s: State, l: Label)
    requires Enabled(s, l) && (l.Boot? || l.Configure?)
    ensures var mem := Apply(s, l).w.mem; mem.specs == SpecMap(l.specs) && mem.follows == FollowMap(l.specs)
  {
  }

  /** The agent always runs under a config that was accepted. */
  lemma {:induction false} RunConfig(s: State, ls: seq<Label>)
    requires Runs(s, ls) && HasConfig(s) && forall l | l in ls :: ReadsAccepted(l)
    ensures HasConfig(Exec(s, ls))
    decreases |ls|
  {
    if ls != [] {
      StepConfig(s, ls[0]);
      RunConfig(Apply(s, ls[0]), ls[1..]);
    }
  }

  /** An after trigger fired row c of event e for the run p. */
  predicate FiredRow(born: map<nat, Row>, c: nat, p: nat, e: string) {
    c in born && FiredAfter(born[c], p) && born[c].event == e
  }

  lemma {:induction false} ChildrenAreRows(born: map<nat, Row>, hi: nat, p: nat, e: string)
    ensures e in Children(born, 0, hi, p) <==> exists c: nat :: c < hi && FiredRow(born, c, p, e)
  {
    if hi > 0 {
      ChildrenAreRows(born, hi - 1, p, e);
      if hi - 1 in born && FiredAfter(born[hi - 1], p) && born[hi - 1].event == e {
        assert FiredRow(born, hi - 1, p, e);
      }
    }
  }

  lemma {:induction false} DistinctRows(born: map<nat, Row>, hi: nat, p: nat, e: string, c: nat, d: nat)
    requires Distinct(Children(born, 0, hi, p)) && c < hi && d < hi && FiredRow(born, c, p, e) && FiredRow(born, d, p, e)
    ensures c == d
  {
    if c < hi - 1 && d < hi - 1 {
      DistinctInit(Children(born, 0, hi, p), Children(born, 0, hi - 1, p));
      DistinctRows(born, hi - 1, p, e, c, d);
    } else if c != d {
      ChildrenAreRows(born, hi - 1, p, e);
      DistinctLast(Children(born, 0, hi - 1, p), e);
    }
  }

  lemma DistinctLast(s: seq<string>, e: string)
    ensures Distinct(s + [e]) ==> e !in s
  {
    if e in s {
      var i :| 0 <= i < |s| && s[i] == e;
      assert (s + [e])[i] == (s + [e])[|s|];
    }
  }

  lemma DistinctInit(s: seq<string>, init: seq<string>)
    requires Distinct(s) && |init| <= |s| && s[..|init|] == init
    ensures Distinct(init)
  {
    assert forall i | 0 <= i < |init| :: init[i] == s[i];
  }

  /** Event e has a row for the run id, which ended as row r, if and only if an after trigger of it lists the
      run's event and status; and it has no second one. */
  ghost predicate OneRowExactly(events: seq<Event>, r: Row, born: map<nat, Row>, id: nat, e: string) {
    && ((exists c :: FiredRow(born, c, id, e)) <==>
        !r.status.Retried? && exists x | x in events :: x.name == e && LooksAt(x, r.event, r.status))
    && (forall c, d :: FiredRow(born, c, id, e) && FiredRow(born, d, id, e) ==> c == d)
  }

  /** Once a run is handed on under an accepted config, each event whose after trigger lists its event and
      status has exactly one row for it, and no other event has one, in every continuation. */
  lemma OneRowForEachFollower(s: State, events: seq<Event>, id: nat, ls: seq<Label>, e: string)
    requires Inv(s) && AllFireOnce(s) && Under(s.w.mem, events) && Enabled(s, Hand(id)) && Runs(Apply(s, Hand(id)), ls)
    ensures OneRowExactly(events, s.w.db.rows[id], Exec(Apply(s, Hand(id)), ls).born, id, e)
  {
    var r, s' := s.w.db.rows[id], Exec(Apply(s, Hand(id)), ls);
    StepInv(s, Hand(id));
    RunInv(Apply(s, Hand(id)), ls);
    FiredExactlyOnce(s, id, ls);
    FiresEachFollowerOnce(events, r.event, r.status, e);
    ChildrenAreRows(s'.born, s'.w.db.nextId, id, e);
    forall c, d | FiredRow(s'.born, c, id, e) && FiredRow(s'.born, d, id, e) ensures c == d {
      DistinctRows(s'.born, s'.w.db.nextId, id, e, c, d);
    }
  }
}
