/** Sums over the rows of a table whose ids run from 0 up to a bound. Counting the rows of an
    event, and weighing the rows that after triggers have not seen, are both such sums. */
module Tally {

  /** What the row of id adds to the sum of f. */
  function Term<R>(rows: map<nat, R>, id: nat, f: R -> int): int {
    if id in rows then f(rows[id]) else 0
  }

  /** The sum of f over the rows with an id below hi. */
  function Sum<R>(rows: map<nat, R>, hi: nat, f: R -> int): int {
    if hi == 0 then 0 else Sum(rows, hi - 1, f) + Term(rows, hi - 1, f)
  }

  lemma {:induction false} SumLe<R>(rows: map<nat, R>, rows': map<nat, R>, hi: nat, f: R -> int, g: R -> int)
    requires forall id: nat | id < hi :: Term(rows, id, f) <= Term(rows', id, g)
    ensures Sum(rows, hi, f) <= Sum(rows', hi, g)
  {
    if hi > 0 {
      SumLe(rows, rows', hi - 1, f, g);
    }
  }

  lemma SumSame<R>(rows: map<nat, R>, rows': map<nat, R>, hi: nat, f: R -> int)
    requires forall id: nat | id < hi :: Term(rows, id, f) == Term(rows', id, f)
    ensures Sum(rows, hi, f) == Sum(rows', hi, f)
  {
    SumLe(rows, rows', hi, f, f);
    SumLe(rows', rows, hi, f, f);
  }

  /** Writing one row moves the sum by what that row adds. */
  lemma {:induction false} SumPut<R>(rows: map<nat, R>, hi: nat, f: R -> int, id: nat, r: R)
    requires id < hi
    ensures Sum(rows[id := r], hi, f) == Sum(rows, hi, f) - Term(rows, id, f) + f(r)
  {
    if id == hi - 1 {
      SumSame(rows[id := r], rows, hi - 1, f);
    } else {
      SumPut(rows, hi - 1, f, id, r);
    }
  }

  /** Changing one row moves the sum by what that row changes. */
  lemma {:induction false} SumChange<R>(rows: map<nat, R>, rows': map<nat, R>, hi: nat, f: R -> int, id: nat)
    requires id < hi && forall x: nat | x < hi && x != id :: Term(rows', x, f) == Term(rows, x, f)
    ensures Sum(rows', hi, f) == Sum(rows, hi, f) - Term(rows, id, f) + Term(rows', id, f)
  {
    if id == hi - 1 {
      SumSame(rows', rows, hi - 1, f);
    } else {
      SumChange(rows, rows', hi - 1, f, id);
    }
  }

  /** The sum of a row added at the end of the table. */
  lemma SumPush<R>(rows: map<nat, R>, hi: nat, f: R -> int, r: R)
    ensures Sum(rows[hi := r], hi + 1, f) == Sum(rows, hi, f) + f(r)
  {
    SumSame(rows[hi := r], rows, hi, f);
  }

  lemma {:induction false} SumNonNegative<R>(rows: map<nat, R>, hi: nat, f: R -> int)
    requires forall id: nat | id < hi :: Term(rows, id, f) >= 0
    ensures Sum(rows, hi, f) >= 0
  {
    if hi > 0 {
      SumNonNegative(rows, hi - 1, f);
    }
  }

  lemma SumOne<R>(rows: map<nat, R>, f: R -> int)
    requires rows.Keys == {1}
    ensures Sum(rows, 2, f) == f(rows[1])
  {
    assert Sum(rows, 1, f) == 0;
  }

  /** The ids below hi whose rows f counts. */
  ghost function Counted<R>(rows: map<nat, R>, hi: nat, f: R -> int): set<nat> {
    set id: nat | id < hi && id in rows && f(rows[id]) == 1
  }

  /** The number of rows is the sum of what counts them. */
  lemma {:induction false} SumIsCount<R>(rows: map<nat, R>, hi: nat, f: R -> int)
    requires forall r: R :: f(r) == 0 || f(r) == 1
    ensures Sum(rows, hi, f) == |Counted(rows, hi, f)|
  {
    if hi == 0 {
      assert Counted(rows, hi, f) == {};
    } else {
      var below := Counted(rows, hi - 1, f);
      SumIsCount(rows, hi - 1, f);
      assert Counted(rows, hi, f) == if hi - 1 in rows && f(rows[hi - 1]) == 1 then below + {hi - 1} else below;
    }
  }
}
