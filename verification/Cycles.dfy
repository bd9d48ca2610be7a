/** Depth-first search for a cycle in a directed graph (internal/config/config.go, afterCycle). */
module Cycles {
  function Out<N(==)>(follows: map<N, seq<N>>, n: N): seq<N> {
    if n in follows then follows[n] else []
  }

  ghost predicate Walk<N(!new)>(follows: map<N, seq<N>>, p: seq<N>) {
    forall i, j | 0 <= i < j < |p| && j == i + 1 :: p[j] in Out(follows, p[i])
  }

  /** A cycle of after triggers, written with its first event again at the end. */
  ghost predicate Cycle<N(!new)>(follows: map<N, seq<N>>, p: seq<N>) {
    |p| >= 2 && p[0] == p[|p| - 1] && Walk(follows, p)
  }

  /** Every event in order comes after all the events that it follows. */
  ghost predicate Topological<N(!new)>(follows: map<N, seq<N>>, order: seq<N>) {
    forall i, m | 0 <= i < |order| && m in Out(follows, order[i]) :: m in order[..i]
  }

  function IndexOf<N(==)>(p: seq<N>, n: N): (i: nat)
    requires n in p
    ensures i < |p| && p[i] == n && n !in p[..i]
  {
    if p[0] == n then 0 else 1 + IndexOf(p[1..], n)
  }

  lemma {:induction false} FirstIndex<N(!new)>(p: seq<N>, j: nat)
    requires j < |p|
    ensures IndexOf(p, p[j]) <= j
  {
    if p[0] != p[j] {
      FirstIndex(p[1..], j - 1);
    }
  }

  lemma EdgeLowersIndex<N(!new)>(follows: map<N, seq<N>>, order: seq<N>, a: N, b: N)
    requires Topological(follows, order) && a in order && b in Out(follows, a)
    ensures b in order && IndexOf(order, b) < IndexOf(order, a)
  {
    var i := IndexOf(order, a);
    assert b in order[..i];
    var j :| 0 <= j < i && order[j] == b;
    FirstIndex(order, j);
  }

  lemma {:induction false} WalkLowersIndex<N(!new)>(follows: map<N, seq<N>>, order: seq<N>, p: seq<N>, i: nat)
    requires Topological(follows, order) && Walk(follows, p) && i < |p| && p[0] in order
    ensures p[i] in order && IndexOf(order, p[i]) + i <= IndexOf(order, p[0])
  {
    if i > 0 {
      WalkLowersIndex(follows, order, p, i - 1);
      assert p[i] in Out(follows, p[i - 1]);
      EdgeLowersIndex(follows, order, p[i - 1], p[i]);
    }
  }

  /** A graph all of whose sources are ordered has no cycle. */
  lemma OrderedHasNoCycle<N(!new)>(follows: map<N, seq<N>>, order: seq<N>, p: seq<N>)
    requires Topological(follows, order) && forall n | n in follows :: n in order
    ensures !Cycle(follows, p)
  {
    if Cycle(follows, p) {
      assert p[1] in Out(follows, p[0]);
      WalkLowersIndex(follows, order, p, |p| - 1);
    }
  }

  datatype Colour = Visiting | Done

  ghost function Elements<N>(s: seq<N>): set<N> {
    set x | x in s
  }

  ghost function Coloured<N>(state: map<N, Colour>, c: Colour): set<N> {
    set n | n in state && state[n] == c
  }

  ghost predicate Closed<N(!new)>(follows: map<N, seq<N>>, nodes: set<N>) {
    forall n, m | n in nodes && m in Out(follows, n) :: m in nodes
  }

  ghost predicate Once<N>(s: seq<N>) {
    forall i, j | 0 <= i < j < |s| :: s[i] != s[j]
  }

  /** path holds the events being visited, each following the next one; order holds the done ones,
      each after all the events that it follows. */
  ghost predicate Searching<N(!new)>(follows: map<N, seq<N>>, nodes: set<N>, state: map<N, Colour>, path: seq<N>, order: seq<N>) {
    && Closed(follows, nodes) && state.Keys <= nodes
    && Walk(follows, path) && Once(path) && Elements(path) == Coloured(state, Visiting)
    && Topological(follows, order) && Elements(order) == Coloured(state, Done)
  }

  lemma Entering<N(!new)>(follows: map<N, seq<N>>, nodes: set<N>, state: map<N, Colour>, path: seq<N>, order: seq<N>, n: N)
    requires Searching(follows, nodes, state, path, order) && n in nodes && n !in state
    requires path != [] ==> n in Out(follows, path[|path| - 1])
    ensures Searching(follows, nodes, state[n := Visiting], path + [n], order)
    ensures Coloured(state[n := Visiting], Done) == Coloured(state, Done)
  {
    assert n !in Elements(path);
    assert Elements(path + [n]) == Elements(path) + {n};
    assert Coloured(state[n := Visiting], Visiting) == Coloured(state, Visiting) + {n};
  }

  lemma Leaving<N(!new)>(follows: map<N, seq<N>>, nodes: set<N>, state: map<N, Colour>, path: seq<N>, order: seq<N>, n: N)
    requires Searching(follows, nodes, state, path + [n], order)
    requires forall m | m in Out(follows, n) :: m in Coloured(state, Done)
    ensures n in state && Searching(follows, nodes, state[n := Done], path, order + [n])
    ensures Coloured(state[n := Done], Done) == Coloured(state, Done) + {n}
  {
    var p := path + [n];
    assert p[|path|] == n && forall i | 0 <= i < |path| :: p[i] == path[i];
    assert n in Elements(p) && n !in path;
    assert Elements(p) == Elements(path) + {n};
    assert Coloured(state[n := Done], Visiting) == Coloured(state, Visiting) - {n};
    assert Elements(order + [n]) == Elements(order) + {n};
    Finishing(follows, order, n);
    forall i, j | 0 <= i < j < |path| && j == i + 1 ensures path[j] in Out(follows, path[i]) {
      assert p[j] in Out(follows, p[i]);
    }
  }

  lemma Closing<N(!new)>(follows: map<N, seq<N>>, path: seq<N>, i: nat, n: N)
    requires Walk(follows, path) && i < |path| && path[i] == n && n in Out(follows, path[|path| - 1])
    ensures Cycle(follows, path[i..] + [n])
  {
    var p := path[i..] + [n];
    forall x, y | 0 <= x < y < |p| && y == x + 1 ensures p[y] in Out(follows, p[x]) {
      if y < |p| - 1 { assert p[y] == path[i + y] && p[x] == path[i + x]; }
    }
  }

  lemma Finishing<N(!new)>(follows: map<N, seq<N>>, order: seq<N>, n: N)
    requires Topological(follows, order) && forall m | m in Out(follows, n) :: m in Elements(order)
    ensures Topological(follows, order + [n])
  {
    var all := order + [n];
    forall i, m | 0 <= i < |all| && m in Out(follows, all[i]) ensures m in all[..i] {
      if i < |order| { assert all[..i] == order[..i]; } else { assert all[..i] == order; }
    }
  }

  /** The depth-first search of afterCycle, with the variables that its closure captures. */
  class CycleFinder<N(==,!new)> {
    const follows: map<N, seq<N>>
    var state: map<N, Colour>
    var path: seq<N>
    var found: seq<N>
    ghost const nodes: set<N>
    ghost var order: seq<N>

    ghost predicate Valid()
      reads this
    {
      Searching(follows, nodes, state, path, order)
    }

    ghost function Ended(): set<N>
      reads this
    {
      Coloured(state, Done)
    }

    constructor (follows: map<N, seq<N>>, ghost nodes: set<N>)
      requires Closed(follows, nodes)
      ensures Valid() && this.follows == follows && this.nodes == nodes && path == [] && found == []
    {
      this.follows, this.nodes := follows, nodes;
      state, path, found, order := map[], [], [], [];
    }

    method Enter(n: N)
      requires Valid() && n in nodes && n !in state
      requires path != [] ==> n in Out(follows, path[|path| - 1])
      modifies this`state, this`path
      ensures Valid() && path == old(path) + [n] && state.Keys == old(state.Keys) + {n} && Ended() == old(Ended())
    {
      Entering(follows, nodes, state, path, order, n);
      state := state[n := Visiting];
      path := path + [n];
    }

    method Leave(n: N)
      requires Valid() && path != [] && path[|path| - 1] == n
      requires forall m | m in Out(follows, n) :: m in Ended()
      modifies this`state, this`path, this`order
      ensures Valid() && path == old(path[..|path| - 1]) && Ended() == old(Ended()) + {n}
      ensures state.Keys == old(state.Keys)
    {
      assert path == path[..|path| - 1] + [n];
      Leaving(follows, nodes, state, path[..|path| - 1], order, n);
      path := path[..|path| - 1];
      state := state[n := Done];
      order := order + [n];
    }

    /** Records the cycle that n, still being visited, closes. */
    method Close(n: N)
      requires Valid() && n in state && state[n].Visiting? && path != [] && n in Out(follows, path[|path| - 1])
      modifies this`found
      ensures Cycle(follows, found)
    {
      assert n in Coloured(state, Visiting);
      var i := IndexOf(path, n);
      Closing(follows, path, i, n);
      found := path[i..] + [n];
    }

    /** Whether a cycle was found; if not, n and everything it leads to is done. */
    method Visit(n: N) returns (cycle: bool)
      requires Valid() && n in nodes && found == []
      requires path != [] ==> n in Out(follows, path[|path| - 1])
      modifies this
      decreases nodes - state.Keys
      ensures cycle ==> Cycle(follows, found)
      ensures !cycle ==> Valid() && found == [] && path == old(path)
      ensures !cycle ==> old(Ended()) + {n} <= Ended() && old(state.Keys) <= state.Keys
    {
      if n in state {
        if state[n] == Visiting {
          assert n in Coloured(state, Visiting) && n in Elements(path);
          Close(n);
          return true;
        }
        return false;
      }
      Enter(n);
      for i := 0 to |Out(follows, n)|
        invariant Valid() && found == [] && path == old(path) + [n]
        invariant old(Ended()) <= Ended() && old(state.Keys) + {n} <= state.Keys
        invariant forall j | 0 <= j < i :: Out(follows, n)[j] in Ended()
      {
        var c := Visit(Out(follows, n)[i]);
        if c {
          return true;
        }
      }
      Leave(n);
      return false;
    }
  }

  /** Searches from each of the roots: found is a cycle, or empty and then order has all the roots, and
      every node in it comes after all those it follows. */
  method Search<N(==,!new)>(follows: map<N, seq<N>>, roots: seq<N>, ghost nodes: set<N>) returns (found: seq<N>, ghost order: seq<N>)
    requires Closed(follows, nodes) && Elements(roots) <= nodes
    ensures found != [] ==> Cycle(follows, found)
    ensures found == [] ==> Topological(follows, order) && Elements(roots) <= Elements(order)
  {
    var finder := new CycleFinder(follows, nodes);
    for i := 0 to |roots|
      invariant finder.Valid() && finder.follows == follows && finder.nodes == nodes
      invariant finder.path == [] && finder.found == [] && fresh(finder)
      invariant forall j | 0 <= j < i :: roots[j] in finder.Ended()
    {
      assert roots[i] in Elements(roots);
      var c := finder.Visit(roots[i]);
      if c {
        return finder.found, [];
      }
    }
    return [], finder.order;
  }
}
