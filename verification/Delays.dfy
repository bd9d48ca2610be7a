/** A row with a time of its own, such as a restart, never starts before it: over every course of the loop,
    with all that happens between the query of a scan and the start. */
module Delays {
  import opened Queue
  import opened Protocol
  import opened Refinement
  import opened Looping
  import opened Fifo

  /** The time of the row has come. */
  predicate TimeHasCome(r: Row, now: int) {
    r.notBefore.Some? ==> r.notBefore.value <= now / 1_000_000
  }

  /** The rows that the scan has before it are as they were read, and their time has come. */
  ghost predicate AheadMayStart(n: Node) {
    Inv(n.s) && AsRead(n.s.w.db, Ahead(n.at)) && forall r | r in Ahead(n.at) :: TimeHasCome(r.row, n.s.now)
  }

  lemma StepTime(s: State, l: Label, runs: seq<Run>)
    requires Inv(s) && Enabled(s, l) && AsRead(s.w.db, runs) && forall r | r in runs :: TimeHasCome(r.row, s.now)
    ensures AsRead(Apply(s, l).w.db, runs) && forall r | r in runs :: TimeHasCome(r.row, Apply(s, l).now)
  {
    StepExtends(s, l);
    ClockGoesOn(s, l);
  }

  lemma ClockGoesOn(s: State, l: Label)
    requires Enabled(s, l)
    ensures s.now <= Apply(s, l).now
  {
  }

  /** A step leaves the scan no rows but those that it had. */
  lemma AheadShrinks(n: Node, l: Label)
    requires Permits(n, Step(l))
    ensures forall r | r in Ahead(PlaceAfter(n, l)) :: r in Ahead(n.at)
  {
    if n.at.Scanning? && n.at.rest != [] {
      assert forall r | r in n.at.rest[1..] :: r in n.at.rest;
    }
  }

  lemma StepMayStart(n: Node, l: Label)
    requires AheadMayStart(n) && Permits(n, Step(l))
    ensures AheadMayStart(Go(n, Step(l)))
  {
    StepInv(n.s, l);
    StepTime(n.s, l, Ahead(n.at));
    AheadShrinks(n, l);
  }

  lemma RestartMayStart(n: Node, id: nat)
    requires AheadMayStart(n) && Permits(n, RestartOf(id))
    ensures AheadMayStart(Go(n, RestartOf(id)))
  {
    var e := n.ends[id];
    StepInv(n.s, RestartEvent(e.event, e.status, e.ran));
    StepTime(n.s, RestartEvent(e.event, e.status, e.ran), Ahead(n.at));
    RestartPlace(n, id);
  }

  lemma QueryMayStart(n: Node, batch: nat)
    requires AheadMayStart(n) && Permits(n, Query(batch))
    ensures AheadMayStart(Go(n, Query(batch)))
  {
    SelectMeaning(n.s.w.db.rows, 0, n.s.w.db.nextId, DueOutside(n.s.now, n.at.waiting), batch);
  }

  lemma DecideShrinks(n: Node)
    requires Permits(n, Decide)
    ensures Go(n, Decide).s == n.s && forall r | r in Ahead(Go(n, Decide).at) :: r in Ahead(n.at)
  {
    assert forall r | r in n.at.rest[1..] :: r in n.at.rest;
  }

  lemma MoveMayStart(n: Node, m: Move)
    requires AheadMayStart(n) && Permits(n, m)
    ensures AheadMayStart(Go(n, m))
  {
    if m.Step? {
      StepMayStart(n, m.l);
    } else if m.RestartOf? {
      RestartMayStart(n, m.id);
    } else if m.Query? {
      QueryMayStart(n, m.batch);
    } else if m.Decide? {
      DecideShrinks(n);
    }
  }

  lemma {:induction false} CourseMayStart(n: Node, ms: seq<Move>)
    requires AheadMayStart(n) && Course(n, ms)
    ensures AheadMayStart(Reach(n, ms))
    decreases |ms|
  {
    if ms != [] {
      MoveMayStart(n, ms[0]);
      CourseMayStart(Go(n, ms[0]), ms[1..]);
    }
  }

  /** A start finds the time of its row come. */
  lemma StartsInTime(n: Node, id: nat)
    requires AheadMayStart(n) && Permits(n, Step(Start(id))) && IsQueued(n.s.w.db, id)
    ensures TimeHasCome(n.s.w.db.rows[id], n.s.now)
  {
    assert n.at.rest[0] in Ahead(n.at);
  }
}
