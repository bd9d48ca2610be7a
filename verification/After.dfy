/** Why handing ended runs to after triggers comes to an end: every event has a weight, and handing
    a run takes more weight off the table than the runs it fires put on it. */
module AfterWeights {
  import opened Tally
  import opened Queue
  import opened Dispatch

  function Load(w: string -> nat, events: seq<string>): nat {
    if events == [] then 0 else Load(w, events[..|events| - 1]) + w(events[|events| - 1])
  }

  function Names(followers: seq<Follower>): seq<string> {
    seq(|followers|, i requires 0 <= i < |followers| => followers[i].event)
  }

  /** w(e) is one more than the weights of the events that follow e taken together. */
  ghost predicate Weighs(follows: map<string, seq<Follower>>, w: string -> nat) {
    forall e :: w(e) == 1 + Load(w, Names(Followers(follows, e)))
  }

  lemma LoadOne(w: string -> nat, e: string)
    ensures Load(w, [e]) == w(e)
  {
    var s := [e];
    assert |s| - 1 == 0 && s[..0] == [];
    assert Load(w, s) == Load(w, s[..|s| - 1]) + w(s[|s| - 1]);
  }

  lemma {:induction false} LoadConcat(w: string -> nat, a: seq<string>, b: seq<string>)
    ensures Load(w, a + b) == Load(w, a) + Load(w, b)
  {
    if b == [] {
      assert a + b == a;
    } else {
      assert (a + b)[..|a + b| - 1] == a + b[..|b| - 1];
      LoadConcat(w, a, b[..|b| - 1]);
    }
  }

  /** What a run fires never outweighs all the followers of its event. */
  lemma {:induction false} FiredLoad(followers: seq<Follower>, specs: map<string, Spec>, status: Status, w: string -> nat)
    ensures Load(w, Fired(followers, specs, status)) <= Load(w, Names(followers))
  {
    if followers != [] && !status.Retried? {
      var init := followers[..|followers| - 1];
      assert Names(followers)[..|followers| - 1] == Names(init);
      FiredLoad(init, specs, status, w);
      LoadConcat(w, Fired(init, specs, status), [followers[|followers| - 1].event]);
      LoadOne(w, followers[|followers| - 1].event);
    }
  }

  /** The weight of the rows that follow still has to hand on. */
  function Unhanded(w: string -> nat): Row -> int {
    (r: Row) => if EndedUnfollowed()(r) then w(r.event) else 0
  }

  ghost function UnhandedWeight(db: Db, w: string -> nat): int {
    Sum(db.rows, db.nextId, Unhanded(w))
  }

  lemma UnhandedNonNegative(db: Db, w: string -> nat)
    ensures UnhandedWeight(db, w) >= 0
  {
    forall id: nat | id < db.nextId ensures Term(db.rows, id, Unhanded(w)) >= 0 {
      if id in db.rows {
        var weight: nat := w(db.rows[id].event);
        assert Unhanded(w)(db.rows[id]) == weight || Unhanded(w)(db.rows[id]) == 0;
      }
    }
    SumNonNegative(db.rows, db.nextId, Unhanded(w));
  }

  /** f adds at most cap(event) for each row that InsertAll inserts. */
  lemma {:induction false} InsertAllSum(db: Db, fs: seq<Firing>, maxQueued: seq<nat>, now: int, f: Row -> int, cap: string -> nat,
                                        events: seq<string>)
    requires |fs| == |maxQueued| == |events| && Numbered(db)
    requires forall i | 0 <= i < |fs| :: fs[i].event == events[i]
    requires forall r: Row, i | 0 <= i < |fs| && InsertedAs(r, fs[i]) :: f(r) <= cap(events[i])
    ensures var d := InsertAll(db, fs, maxQueued, now);
            Sum(d.rows, d.nextId, f) <= Sum(db.rows, db.nextId, f) + Load(cap, events)
    decreases |fs|
  {
    if fs != [] {
      var d1 := Insert(db, fs[0], maxQueued[0], now);
      var row := d1.rows[db.nextId];
      assert InsertedAs(row, fs[0]);
      SumPush(db.rows, db.nextId, f, row);
      forall r: Row, i | 0 <= i < |fs| - 1 && InsertedAs(r, fs[1..][i])
        ensures f(r) <= cap(events[1..][i])
      {
        assert InsertedAs(r, fs[i + 1]);
      }
      InsertAllSum(d1, fs[1..], maxQueued[1..], now, f, cap, events[1..]);
      assert events == [events[0]] + events[1..];
      LoadConcat(cap, [events[0]], events[1..]);
      LoadOne(cap, events[0]);
    }
  }

  /** The measure of follow: handing a run on lowers the weight that is left, although the runs it
      fires can be dropped at once and so wait to be handed on themselves. */
  lemma HandingLowersWeight(w: World, run: Run, now: int, weight: string -> nat)
    requires Numbered(w.db) && Weighs(w.mem.follows, weight)
    requires run.id in w.db.rows && w.db.rows[run.id] == run.row && EndedUnfollowed()(run.row)
    ensures UnhandedWeight(Handed(w, run, now).db, weight) < UnhandedWeight(w.db, weight)
  {
    var events := FiredBy(w.mem, run.row);
    var fs, max := AfterFirings(events, run.id), Limits(events, w.mem.specs);
    var d := InsertAll(w.db, fs, max, now);
    InsertAllMeaning(w.db, fs, max, now);
    InsertAllSum(w.db, fs, max, now, Unhanded(weight), weight, events);
    FiredLoad(Followers(w.mem.follows, run.row.event), w.mem.specs, run.row.status, weight);
    SumPut(d.rows, d.nextId, Unhanded(weight), run.id, run.row.(followed := true));
  }

  // A weight function exists exactly when the after triggers form no cycle.

  ghost predicate Ranked(follows: map<string, seq<Follower>>, rank: string -> nat, top: nat) {
    forall e, f | f in Followers(follows, e) :: rank(e) < rank(f.event) < top
  }

  ghost function WeightBy(follows: map<string, seq<Follower>>, rank: string -> nat, top: nat, e: string): nat
    requires Ranked(follows, rank, top)
    decreases if rank(e) < top then top - rank(e) else 0, 1, 0
  {
    1 + LoadBy(follows, rank, top, e, Followers(follows, e))
  }

  ghost function LoadBy(follows: map<string, seq<Follower>>, rank: string -> nat, top: nat, e: string, fs: seq<Follower>): nat
    requires Ranked(follows, rank, top)
    requires forall f | f in fs :: rank(e) < rank(f.event) < top
    decreases if rank(e) < top then top - rank(e) else 0, 0, |fs|
  {
    if fs == [] then 0
    else
      var last := fs[|fs| - 1];
      LoadBy(follows, rank, top, e, fs[..|fs| - 1]) + WeightBy(follows, rank, top, last.event)
  }

  lemma {:induction false} LoadByIsLoad(follows: map<string, seq<Follower>>, rank: string -> nat, top: nat, e: string,
                                        fs: seq<Follower>, w: string -> nat)
    requires Ranked(follows, rank, top)
    requires forall f | f in fs :: rank(e) < rank(f.event) < top
    requires forall x :: w(x) == WeightBy(follows, rank, top, x)
    ensures LoadBy(follows, rank, top, e, fs) == Load(w, Names(fs))
  {
    if fs != [] {
      LoadByIsLoad(follows, rank, top, e, fs[..|fs| - 1], w);
      assert Names(fs)[..|fs| - 1] == Names(fs[..|fs| - 1]);
    }
  }

  lemma RankedHasWeights(follows: map<string, seq<Follower>>, rank: string -> nat, top: nat)
    requires Ranked(follows, rank, top)
    ensures exists w: string -> nat :: Weighs(follows, w)
  {
    var w: string -> nat := (e: string) => WeightBy(follows, rank, top, e);
    forall e ensures w(e) == 1 + Load(w, Names(Followers(follows, e))) {
      LoadByIsLoad(follows, rank, top, e, Followers(follows, e), w);
    }
    assert Weighs(follows, w);
  }

  lemma {:induction false} LoadMember(w: string -> nat, events: seq<string>, i: nat)
    requires i < |events|
    ensures w(events[i]) <= Load(w, events)
  {
    if i < |events| - 1 {
      LoadMember(w, events[..|events| - 1], i);
    }
  }

  /** An event outweighs every event that follows it. */
  lemma FollowerIsLighter(follows: map<string, seq<Follower>>, w: string -> nat, e: string, f: Follower)
    requires Weighs(follows, w) && f in Followers(follows, e)
    ensures w(f.event) < w(e)
  {
    var fs := Followers(follows, e);
    var i :| 0 <= i < |fs| && fs[i] == f;
    LoadMember(w, Names(fs), i);
  }
}
