/** The checks of the config on after triggers (internal/config/config.go), and what the dispatcher
    makes of an accepted config. */
module Config {
  import opened Queue
  import opened Dispatch
  import opened AfterWeights
  import opened Cycles

  datatype Trigger = FollowsEvent(event: string, statuses: seq<Status>) | OtherTrigger

  datatype Event = Event(
    name: string, triggers: seq<Trigger>, policy: Policy, restart: RestartPolicy,
    restartDelay: nat, restartMaxDelay: nat, rerun: bool, maxAttempts: nat)

  // The graph of after triggers

  /** t makes the event name follow another event; edges to itself are left out. */
  predicate IsEdge(name: string, t: Trigger) {
    t.FollowsEvent? && t.event != "" && t.event != name
  }

  function AddEdges(follows: map<string, seq<string>>, name: string, ts: seq<Trigger>): map<string, seq<string>> {
    if ts == [] then follows
    else
      var t, m := ts[|ts| - 1], AddEdges(follows, name, ts[..|ts| - 1]);
      if IsEdge(name, t) then m[name := Out(m, name) + [t.event]] else m
  }

  function Graph(events: seq<Event>): map<string, seq<string>> {
    if events == [] then map[]
    else var e := events[|events| - 1]; AddEdges(Graph(events[..|events| - 1]), e.name, e.triggers)
  }

  /** Event a follows event b. */
  predicate Follows(events: seq<Event>, a: string, b: string) {
    exists e | e in events :: e.name == a && exists t | t in e.triggers :: IsEdge(a, t) && t.event == b
  }

  lemma {:induction false} AddEdgesMeaning(follows: map<string, seq<string>>, name: string, ts: seq<Trigger>, a: string, b: string)
    ensures b in Out(AddEdges(follows, name, ts), a)
       <==> b in Out(follows, a) || (a == name && exists t | t in ts :: IsEdge(a, t) && t.event == b)
  {
    if ts != [] {
      var init, t := ts[..|ts| - 1], ts[|ts| - 1];
      AddEdgesMeaning(follows, name, init, a, b);
      assert ts == init + [t];
    }
  }

  /** The graph has an edge from a to b exactly when some after trigger of event a names b. */
  lemma {:induction false} GraphMeaning(events: seq<Event>, a: string, b: string)
    ensures b in Out(Graph(events), a) <==> Follows(events, a, b)
  {
    if events != [] {
      var init, e := events[..|events| - 1], events[|events| - 1];
      GraphMeaning(init, a, b);
      AddEdgesMeaning(Graph(init), e.name, e.triggers, a, b);
      assert events == init + [e];
    }
  }

  function Targets(ts: seq<Trigger>): set<string> {
    set t | t in ts && t.FollowsEvent? :: t.event
  }

  function Names(events: seq<Event>): set<string> {
    set e | e in events :: e.name
  }

  method BuildGraph(events: seq<Event>) returns (follows: map<string, seq<string>>)
    ensures follows == Graph(events)
  {
    follows := map[];
    for i := 0 to |events|
      invariant follows == Graph(events[..i])
    {
      var e := events[i];
      assert events[..i + 1][..i] == events[..i];
      ghost var before := follows;
      for k := 0 to |e.triggers|
        invariant follows == AddEdges(before, e.name, e.triggers[..k])
      {
        var t := e.triggers[k];
        assert e.triggers[..k + 1][..k] == e.triggers[..k];
        if t.FollowsEvent? && t.event != "" && t.event != e.name {
          follows := follows[e.name := Out(follows, e.name) + [t.event]];
        }
      }
      assert e.triggers[..|e.triggers|] == e.triggers;
    }
    assert events[..|events|] == events;
  }

  /** Whether after triggers form a cycle: found is one of them, or empty when there is none, and then
      order lists every event after all those it follows. */
  method AfterCycle(events: seq<Event>) returns (found: seq<string>, ghost order: seq<string>)
    ensures found != [] ==> Cycle(Graph(events), found)
    ensures found == [] <==> forall p :: !Cycle(Graph(events), p)
    ensures found == [] ==> Topological(Graph(events), order) && forall e | e in events :: e.name in order
  {
    var follows := BuildGraph(events);
    var roots := seq(|events|, i requires 0 <= i < |events| => events[i].name);
    forall i | 0 <= i < |events| ensures roots[i] in GraphNodes(events) {
      assert events[i] in events;
    }
    found, order := Search(follows, roots, GraphNodes(events));
    if found == [] {
      forall j | 0 <= j < |events| ensures events[j].name in order {
        assert roots[j] in Elements(roots);
      }
      AllVisited(events, order);
    }
  }

  lemma AllVisited(events: seq<Event>, order: seq<string>)
    requires Topological(Graph(events), order) && forall j | 0 <= j < |events| :: events[j].name in order
    ensures forall p :: !Cycle(Graph(events), p)
    ensures forall e | e in events :: e.name in order
  {
    forall p ensures !Cycle(Graph(events), p) {
      SourcesAreEvents(events);
      OrderedHasNoCycle(Graph(events), order, p);
    }
  }

  lemma {:induction false} SourcesAreEvents(events: seq<Event>)
    ensures forall n | n in Graph(events) :: n in Names(events)
  {
    if events != [] {
      var init, e := events[..|events| - 1], events[|events| - 1];
      SourcesAreEvents(init);
      AddEdgesSources(Graph(init), e.name, e.triggers);
      assert events == init + [e];
    }
  }

  lemma {:induction false} AddEdgesSources(follows: map<string, seq<string>>, name: string, ts: seq<Trigger>)
    ensures forall n | n in AddEdges(follows, name, ts) :: n == name || n in follows
  {
    if ts != [] {
      AddEdgesSources(follows, name, ts[..|ts| - 1]);
    }
  }

  ghost function GraphNodes(events: seq<Event>): (nodes: set<string>)
    ensures forall e | e in events :: e.name in nodes
    ensures forall n, m | n in nodes && m in Out(Graph(events), n) :: m in nodes
  {
    var targets := set e, b | e in events && b in Targets(e.triggers) :: b;
    var nodes := Names(events) + targets;
    assert forall n, m | n in nodes && m in Out(Graph(events), n) :: m in nodes by {
      forall n, m | n in nodes && m in Out(Graph(events), n) ensures m in nodes {
        GraphMeaning(events, n, m);
        var e :| e in events && e.name == n && exists t | t in e.triggers :: IsEdge(n, t) && t.event == m;
        var t :| t in e.triggers && IsEdge(n, t) && t.event == m;
        assert m in Targets(e.triggers);
      }
    }
    nodes
  }

  // Accepted configs

  /** What the validation of a config checks of names, attempts, delays and after triggers. */
  ghost predicate Accepted(events: seq<Event>) {
    Checked(events) && forall p :: !Cycle(Graph(events), p)
  }

  predicate Checked(events: seq<Event>) {
    && (forall i, j | 0 <= i < j < |events| :: events[i].name != events[j].name)
    && (forall e | e in events :: AcceptedEvent(events, e))
  }

  predicate AcceptedEvent(events: seq<Event>, e: Event) {
    && e.name != "" && e.maxAttempts >= 1 && e.restartDelay <= e.restartMaxDelay
    && (forall t | t in e.triggers && t.FollowsEvent? ::
          t.event != "" && t.event != e.name && t.event in Names(events) && t.statuses != [] && Status.Retried !in t.statuses)
    && (forall i, j | 0 <= i < j < |e.triggers| && e.triggers[i].FollowsEvent? && e.triggers[j].FollowsEvent? ::
          e.triggers[i].event != e.triggers[j].event)
  }

  function AfterOf(ts: seq<Trigger>): seq<AfterTrigger> {
    if ts == [] then []
    else
      var t, rest := ts[|ts| - 1], AfterOf(ts[..|ts| - 1]);
      if t.FollowsEvent? then rest + [AfterTrigger(t.event, t.statuses)] else rest
  }

  function SpecOf(e: Event): Spec {
    Spec(e.name, e.policy, e.restart, e.restartDelay, e.restartMaxDelay, e.rerun, e.maxAttempts, AfterOf(e.triggers))
  }

  function Specs(events: seq<Event>): seq<Spec> {
    seq(|events|, i requires 0 <= i < |events| => SpecOf(events[i]))
  }

  lemma {:induction false} AfterOfMeaning(ts: seq<Trigger>, a: AfterTrigger)
    ensures a in AfterOf(ts) <==> FollowsEvent(a.event, a.statuses) in ts
  {
    if ts != [] {
      AfterOfMeaning(ts[..|ts| - 1], a);
      assert ts == ts[..|ts| - 1] + [ts[|ts| - 1]];
    }
  }

  lemma {:induction false} AddAfterMeaning(follows: map<string, seq<Follower>>, name: string, after: seq<AfterTrigger>,
                                           e: string, f: Follower)
    ensures f in Followers(AddAfter(follows, name, after), e)
       <==> f in Followers(follows, e) || (f.event == name && AfterTrigger(e, f.statuses) in after)
  {
    if after != [] {
      AddAfterMeaning(follows, name, after[..|after| - 1], e, f);
      assert after == after[..|after| - 1] + [after[|after| - 1]];
    }
  }

  /** Configure lists f among the followers of e exactly when the spec of f has an after trigger on e. */
  lemma {:induction false} FollowMapMeaning(specs: seq<Spec>, e: string, f: Follower)
    ensures f in Followers(FollowMap(specs), e)
       <==> exists s | s in specs :: s.name == f.event && AfterTrigger(e, f.statuses) in s.after
  {
    if specs != [] {
      var init, s := specs[..|specs| - 1], specs[|specs| - 1];
      FollowMapMeaning(init, e, f);
      AddAfterMeaning(FollowMap(init), s.name, s.after, e, f);
      assert specs == init + [s];
    }
  }

  lemma FollowerIsEdge(events: seq<Event>, e: string, f: Follower)
    requires Accepted(events) && f in Followers(FollowMap(Specs(events)), e)
    ensures Follows(events, f.event, e) && f.event in Names(events)
  {
    FollowMapMeaning(Specs(events), e, f);
    var s :| s in Specs(events) && s.name == f.event && AfterTrigger(e, f.statuses) in s.after;
    var i :| 0 <= i < |events| && SpecOf(events[i]) == s;
    AfterOfMeaning(events[i].triggers, AfterTrigger(e, f.statuses));
    assert events[i] in events && AcceptedEvent(events, events[i]);
    assert IsEdge(f.event, FollowsEvent(e, f.statuses));
  }

  /** What makes the dispatcher's follow terminate: under an accepted config, whose events the search
      of afterCycle has ordered, the events that follow each other have weights. */
  lemma AcceptedHasWeights(events: seq<Event>, order: seq<string>)
    requires Accepted(events) && Topological(Graph(events), order) && forall e | e in events :: e.name in order
    ensures exists w: string -> nat :: Weighs(FollowMap(Specs(events)), w)
  {
    var follows := FollowMap(Specs(events));
    var rank: string -> nat := (n: string) => if n in order then IndexOf(order, n) else |order|;
    forall e, f | f in Followers(follows, e) ensures rank(e) < rank(f.event) < |order| {
      FollowerIsEdge(events, e, f);
      GraphMeaning(events, f.event, e);
      EdgeLowersIndex(Graph(events), order, f.event, e);
    }
    RankedHasWeights(follows, rank, |order|);
  }

  /** With a cycle of after triggers no weights exist, so no such argument could be made. */
  lemma CycleHasNoWeights(events: seq<Event>, p: seq<string>, w: string -> nat)
    requires Cycle(Graph(events), p)
    ensures !Weighs(FollowMap(Specs(events)), w)
  {
    if Weighs(FollowMap(Specs(events)), w) {
      WalkRaisesWeight(events, p, w, |p| - 1);
    }
  }

  lemma {:induction false} WalkRaisesWeight(events: seq<Event>, p: seq<string>, w: string -> nat, i: nat)
    requires Walk(Graph(events), p) && Weighs(FollowMap(Specs(events)), w) && i < |p|
    ensures w(p[0]) + i <= w(p[i])
  {
    if i > 0 {
      WalkRaisesWeight(events, p, w, i - 1);
      assert p[i] in Out(Graph(events), p[i - 1]);
      GraphMeaning(events, p[i - 1], p[i]);
      var e :| e in events && e.name == p[i - 1] && exists t | t in e.triggers :: IsEdge(p[i - 1], t) && t.event == p[i];
      var t :| t in e.triggers && IsEdge(p[i - 1], t) && t.event == p[i];
      var f := Follower(e.name, t.statuses);
      AfterOfMeaning(e.triggers, AfterTrigger(p[i], t.statuses));
      var k :| 0 <= k < |events| && events[k] == e;
      assert Specs(events)[k] == SpecOf(e);
      FollowMapMeaning(Specs(events), p[i], f);
      FollowerIsLighter(FollowMap(Specs(events)), w, p[i], f);
    }
  }

  /** The cycle check accepts exactly the configs under which the dispatcher's follow has weights, and
      so terminates. */
  method CheckAfter(events: seq<Event>) returns (cycle: seq<string>)
    requires Checked(events)
    ensures cycle == [] <==> exists w: string -> nat :: Weighs(FollowMap(Specs(events)), w)
    ensures cycle == [] <==> Accepted(events)
  {
    ghost var order;
    cycle, order := AfterCycle(events);
    if cycle == [] {
      assert Accepted(events);
      AcceptedHasWeights(events, order);
      assert exists w: string -> nat :: Weighs(FollowMap(Specs(events)), w);
    } else {
      assert !Accepted(events);
      forall w: string -> nat ensures !Weighs(FollowMap(Specs(events)), w) {
        CycleHasNoWeights(events, cycle, w);
      }
    }
  }

  // Which events an ended run fires

  lemma {:induction false} FiredMeaning(followers: seq<Follower>, specs: map<string, Spec>, status: Status, e: string)
    ensures e in Fired(followers, specs, status)
       <==> !status.Retried? && e in specs && exists f | f in followers :: f.event == e && status in f.statuses
  {
    if followers != [] && !status.Retried? {
      FiredMeaning(followers[..|followers| - 1], specs, status, e);
      assert followers == followers[..|followers| - 1] + [followers[|followers| - 1]];
    }
  }

  ghost predicate Distinct(s: seq<string>) {
    forall i, j | 0 <= i < j < |s| :: s[i] != s[j]
  }

  lemma {:induction false} FiredDistinct(followers: seq<Follower>, specs: map<string, Spec>, status: Status)
    requires forall i, j | 0 <= i < j < |followers| :: followers[i].event != followers[j].event
    ensures Distinct(Fired(followers, specs, status))
  {
    if followers != [] && !status.Retried? {
      var init, f := followers[..|followers| - 1], followers[|followers| - 1];
      FiredDistinct(init, specs, status);
      FiredMeaning(init, specs, status, f.event);
    }
  }

  ghost predicate FollowOnce(follows: map<string, seq<Follower>>, e: string) {
    forall i, j | 0 <= i < j < |Followers(follows, e)| :: Followers(follows, e)[i].event != Followers(follows, e)[j].event
  }

  lemma {:induction false} AfterOfTargets(ts: seq<Trigger>)
    requires forall i, j | 0 <= i < j < |ts| && ts[i].FollowsEvent? && ts[j].FollowsEvent? :: ts[i].event != ts[j].event
    ensures DifferentTargets(AfterOf(ts))
  {
    if ts != [] {
      var init, t := ts[..|ts| - 1], ts[|ts| - 1];
      assert forall i | 0 <= i < |init| :: init[i] == ts[i];
      AfterOfTargets(init);
      if t.FollowsEvent? {
        var a := AfterOf(init);
        forall i | 0 <= i < |a| ensures a[i].event != t.event {
          AfterOfMeaning(init, a[i]);
          var k :| 0 <= k < |init| && init[k] == FollowsEvent(a[i].event, a[i].statuses);
          assert ts[k] == init[k] && ts[|ts| - 1] == t;
        }
        OneMoreTarget(a, AfterTrigger(t.event, t.statuses));
      }
    }
  }

  predicate DifferentTargets(a: seq<AfterTrigger>) {
    forall i, j | 0 <= i < j < |a| :: a[i].event != a[j].event
  }

  lemma OneMoreTarget(a: seq<AfterTrigger>, x: AfterTrigger)
    requires DifferentTargets(a) && forall i | 0 <= i < |a| :: a[i].event != x.event
    ensures DifferentTargets(a + [x])
  {
  }

  lemma {:induction false} AddAfterOnce(follows: map<string, seq<Follower>>, name: string, after: seq<AfterTrigger>, e: string)
    requires FollowOnce(follows, e) && forall f | f in Followers(follows, e) :: f.event != name
    requires forall i, j | 0 <= i < j < |after| :: after[i].event != after[j].event
    ensures FollowOnce(AddAfter(follows, name, after), e)
  {
    if after != [] {
      var init, a := after[..|after| - 1], after[|after| - 1];
      AddAfterOnce(follows, name, init, e);
      if a.event == e {
        var fs := Followers(AddAfter(follows, name, init), e);
        forall i | 0 <= i < |fs| ensures fs[i].event != name {
          AddAfterMeaning(follows, name, init, e, fs[i]);
          assert fs[i] in fs;
        }
        assert Followers(AddAfter(follows, name, after), e) == fs + [Follower(name, a.statuses)];
      } else {
        assert Followers(AddAfter(follows, name, after), e) == Followers(AddAfter(follows, name, init), e);
      }
    }
  }

  lemma {:induction false} FollowMapOnce(specs: seq<Spec>, e: string)
    requires forall i, j | 0 <= i < j < |specs| :: specs[i].name != specs[j].name
    requires forall s | s in specs :: forall i, j | 0 <= i < j < |s.after| :: s.after[i].event != s.after[j].event
    ensures FollowOnce(FollowMap(specs), e)
  {
    if specs != [] {
      var init, s := specs[..|specs| - 1], specs[|specs| - 1];
      assert s in specs && forall x | x in init :: x in specs;
      FollowMapOnce(init, e);
      forall f | f in Followers(FollowMap(init), e) ensures f.event != s.name {
        FollowMapMeaning(init, e, f);
      }
      AddAfterOnce(FollowMap(init), s.name, s.after, e);
    }
  }

  lemma {:induction false} SpecMapMeaning(specs: seq<Spec>, name: string)
    ensures name in SpecMap(specs) <==> exists s | s in specs :: s.name == name
  {
    if specs != [] {
      SpecMapMeaning(specs[..|specs| - 1], name);
      assert specs == specs[..|specs| - 1] + [specs[|specs| - 1]];
    }
  }

  /** The spec of a name is the last one that has it. */
  lemma {:induction false} SpecMapValue(specs: seq<Spec>, i: nat)
    requires i < |specs| && forall j | i < j < |specs| :: specs[j].name != specs[i].name
    ensures specs[i].name in SpecMap(specs) && SpecMap(specs)[specs[i].name] == specs[i]
    decreases |specs|
  {
    if i < |specs| - 1 {
      SpecMapValue(specs[..|specs| - 1], i);
    }
  }

  /** An after trigger of x is for runs of event that end with status. */
  predicate LooksAt(x: Event, event: string, status: Status) {
    exists t | t in x.triggers :: t.FollowsEvent? && t.event == event && status in t.statuses
  }

  /** f follows event for status, by an after trigger that the config has. */
  lemma FollowerLooks(events: seq<Event>, event: string, status: Status, f: Follower)
    requires f in Followers(FollowMap(Specs(events)), event) && status in f.statuses
    ensures exists x | x in events :: x.name == f.event && LooksAt(x, event, status)
  {
    FollowMapMeaning(Specs(events), event, f);
    var s :| s in Specs(events) && s.name == f.event && AfterTrigger(event, f.statuses) in s.after;
    var k :| 0 <= k < |events| && SpecOf(events[k]) == s;
    AfterOfMeaning(events[k].triggers, AfterTrigger(event, f.statuses));
    assert events[k] in events && LooksAt(events[k], event, status);
  }

  lemma LookerFollows(events: seq<Event>, event: string, status: Status, x: Event)
    requires x in events && LooksAt(x, event, status)
    ensures x.name in SpecMap(Specs(events))
    ensures exists f | f in Followers(FollowMap(Specs(events)), event) :: f.event == x.name && status in f.statuses
  {
    var t :| t in x.triggers && t.FollowsEvent? && t.event == event && status in t.statuses;
    var k :| 0 <= k < |events| && events[k] == x;
    assert Specs(events)[k] == SpecOf(x);
    AfterOfMeaning(x.triggers, AfterTrigger(event, t.statuses));
    var f := Follower(x.name, t.statuses);
    FollowMapMeaning(Specs(events), event, f);
    SpecMapMeaning(Specs(events), x.name);
    assert f in Followers(FollowMap(Specs(events)), event) && f.event == x.name && status in f.statuses;
  }

  lemma AcceptedFollowOnce(events: seq<Event>, event: string)
    requires Accepted(events)
    ensures FollowOnce(FollowMap(Specs(events)), event)
  {
    var specs := Specs(events);
    forall s | s in specs ensures forall i, j | 0 <= i < j < |s.after| :: s.after[i].event != s.after[j].event {
      var k :| 0 <= k < |events| && SpecOf(events[k]) == s;
      assert events[k] in events && AcceptedEvent(events, events[k]);
      AfterOfTargets(events[k].triggers);
      assert s.after == AfterOf(events[k].triggers);
    }
    assert forall i | 0 <= i < |events| :: specs[i].name == events[i].name;
    FollowMapOnce(specs, event);
  }

  /** Under an accepted config, a run of event that ends with status fires the events whose after
      trigger on it lists the status, each of them once, and nothing when it is retried. */
  lemma FiresEachFollowerOnce(events: seq<Event>, event: string, status: Status, e: string)
    requires Accepted(events)
    ensures var specs := Specs(events);
            var fired := Fired(Followers(FollowMap(specs), event), SpecMap(specs), status);
            && Distinct(fired)
            && (e in fired <==> !status.Retried? && exists x | x in events :: x.name == e && LooksAt(x, event, status))
  {
    var specs := Specs(events);
    var followers := Followers(FollowMap(specs), event);
    AcceptedFollowOnce(events, event);
    FiredDistinct(followers, SpecMap(specs), status);
    FiredMeaning(followers, SpecMap(specs), status, e);
    if f :| f in followers && f.event == e && status in f.statuses {
      FollowerLooks(events, event, status, f);
    }
    if x :| x in events && x.name == e && LooksAt(x, event, status) {
      LookerFollows(events, event, status, x);
    }
  }
}
