/** How far one firing can spread: all rows that go back to one row through after triggers and reruns
    share its budget, one less than the weight of its event. */
module AfterRoots {
  import opened Tally
  import opened Queue
  import opened Dispatching
  import opened AfterWeights
  import opened Protocol
  import opened Safety
  import opened Chains
  import opened AfterOnce

  /** The row that a row goes back to: the run that it repeats, or that set it off through an after
      trigger (0: none). */
  function Parent(r: Row): nat {
    if r.retryOf != 0 then r.retryOf else if r.kind.After? then r.cause else 0
  }

  /** The firing from outside, or the restart, that a row goes back to in the end. */
  function Root(born: map<nat, Row>, id: nat): (root: nat)
    ensures root <= id
    decreases id
  {
    if id in born && 0 < Parent(born[id]) < id then Root(born, Parent(born[id])) else id
  }

  /** The rows that go back to root. */
  function Own(rows: map<nat, Row>, born: map<nat, Row>, root: nat): map<nat, Row> {
    map id | id in rows && Root(born, id) == root :: rows[id]
  }

  function Foreign(rows: map<nat, Row>, born: map<nat, Row>, root: nat): map<nat, Row> {
    map id | id in rows && Root(born, id) != root :: rows[id]
  }

  lemma {:induction false} RootStays(born: map<nat, Row>, born': map<nat, Row>, n: nat, id: nat)
    requires AgreeBelow(born, born', n) && id < n
    ensures Root(born', id) == Root(born, id)
    decreases id
  {
    if id in born && 0 < Parent(born[id]) < id {
      RootStays(born, born', n, Parent(born[id]));
    }
  }

  lemma {:induction false} RootOfRoot(born: map<nat, Row>, id: nat)
    ensures Root(born, Root(born, id)) == Root(born, id)
    decreases id
  {
    if id in born && 0 < Parent(born[id]) < id {
      RootOfRoot(born, Parent(born[id]));
    }
  }

  // Sums over the rows of one root

  lemma {:induction false} SumSplit(rows: map<nat, Row>, born: map<nat, Row>, root: nat, hi: nat, f: Row -> int)
    ensures Sum(rows, hi, f) == Sum(Own(rows, born, root), hi, f) + Sum(Foreign(rows, born, root), hi, f)
  {
    if hi > 0 {
      SumSplit(rows, born, root, hi - 1, f);
    }
  }

  lemma {:induction false} SumTail(rows: map<nat, Row>, n: nat, n': nat, f: Row -> int)
    requires n <= n' && forall id: nat | n <= id < n' :: Term(rows, id, f) == 0
    ensures Sum(rows, n', f) == Sum(rows, n, f)
    decreases n'
  {
    if n < n' {
      SumTail(rows, n, n' - 1, f);
    }
  }

  ghost predicate SameRoots(born: map<nat, Row>, born': map<nat, Row>, n: nat) {
    forall id: nat | id < n :: Root(born', id) == Root(born, id)
  }

  /** Where the rows of root do not grow and no new row goes back to it, their sum does not grow. */
  lemma OwnStays(rows: map<nat, Row>, rows': map<nat, Row>, born: map<nat, Row>, born': map<nat, Row>, n: nat, n': nat,
                 root: nat, f: Row -> int)
    requires n <= n' && SameRoots(born, born', n)
    requires forall id: nat | id < n && Root(born, id) == root :: Term(rows', id, f) <= Term(rows, id, f)
    requires forall id: nat | n <= id < n' && id in rows' :: Root(born', id) != root
    ensures Sum(Own(rows', born', root), n', f) <= Sum(Own(rows, born, root), n, f)
  {
    SumTail(Own(rows', born', root), n, n', f);
    forall id: nat | id < n ensures Term(Own(rows', born', root), id, f) <= Term(Own(rows, born, root), id, f) {
      assert Root(born', id) == Root(born, id);
    }
    SumLe(Own(rows', born', root), Own(rows, born, root), n, f, f);
  }

  /** Where all that changes goes back to root, the sum of its rows changes as the whole sum does. */
  lemma OwnTakesAll(rows: map<nat, Row>, rows': map<nat, Row>, born: map<nat, Row>, born': map<nat, Row>, n: nat, n': nat,
                    root: nat, f: Row -> int)
    requires n <= n' && SameRoots(born, born', n)
    requires forall id: nat | id < n && Root(born, id) != root :: Term(rows', id, f) == Term(rows, id, f)
    requires forall id: nat | n <= id < n' && id in rows' :: Root(born', id) == root
    ensures Sum(Own(rows', born', root), n', f) - Sum(Own(rows, born, root), n, f) == Sum(rows', n', f) - Sum(rows, n, f)
  {
    SumSplit(rows, born, root, n, f);
    SumSplit(rows', born', root, n', f);
    SumTail(Foreign(rows', born', root), n, n', f);
    forall id: nat | id < n ensures Term(Foreign(rows', born', root), id, f) == Term(Foreign(rows, born, root), id, f) {
      assert Root(born', id) == Root(born, id);
    }
    SumSame(Foreign(rows', born', root), Foreign(rows, born, root), n, f);
  }

  lemma NoneOwn(rows: map<nat, Row>, born: map<nat, Row>, root: nat, n: nat, f: Row -> int)
    requires forall id: nat | id < n && id in rows :: Root(born, id) != root
    ensures Sum(Own(rows, born, root), n, f) == 0
  {
    SumTail(Own(rows, born, root), 0, n, f);
  }

  // The budget of a root

  /** What after triggers have fired for root so far, and what the table can still set off for it. */
  ghost function SpreadOf(s: State, w: string -> nat, root: nat): int {
    var n := s.w.db.nextId;
    Sum(Own(s.born, s.born, root), n, ByAfter()) + Sum(Own(s.w.db.rows, s.born, root), n, Potential(w))
  }

  ghost predicate WithinBudget(s: State, w: string -> nat, root: nat) {
    root in s.born ==> SpreadOf(s, w, root) <= Beyond(w)(s.born[root].event)
  }

  lemma StepRoots(s: State, l: Label)
    requires Inv(s) && Enabled(s, l)
    ensures AgreeBelow(s.born, Apply(s, l).born, s.w.db.nextId) && SameRoots(s.born, Apply(s, l).born, s.w.db.nextId)
  {
    SameBorn(s, l);
    forall id: nat | id < s.w.db.nextId ensures Root(Apply(s, l).born, id) == Root(s.born, id) {
      RootStays(s.born, Apply(s, l).born, s.w.db.nextId, id);
    }
  }

  /** The new rows go back to another root than this one, if they go back to one at all. */
  lemma OtherRoot(s: State, l: Label, w: string -> nat, root: nat)
    requires Inv(s) && Enabled(s, l) && root < s.w.db.nextId
    requires forall id: nat | id < s.w.db.nextId && Root(s.born, id) == root ::
               Term(Apply(s, l).w.db.rows, id, Potential(w)) <= Term(s.w.db.rows, id, Potential(w))
    requires forall id: nat | s.w.db.nextId <= id < Apply(s, l).w.db.nextId :: Root(Apply(s, l).born, id) != root
    ensures SpreadOf(Apply(s, l), w, root) <= SpreadOf(s, w, root)
  {
    var s' := Apply(s, l);
    StepRoots(s, l);
    StepExtends(s, l);
    OwnStays(s.born, s'.born, s.born, s'.born, s.w.db.nextId, s'.w.db.nextId, root, ByAfter());
    OwnStays(s.w.db.rows, s'.w.db.rows, s.born, s'.born, s.w.db.nextId, s'.w.db.nextId, root, Potential(w));
  }

  /** A firing from outside, or a restart, goes back to no other row. */
  lemma InsertedBorn(s: State, l: Label)
    requires Inv(s) && Enabled(s, l) && (l.CliEnqueue? || l.Submit? || l.RestartEvent?)
    requires Apply(s, l).w.db.nextId != s.w.db.nextId
    ensures var n, s' := s.w.db.nextId, Apply(s, l);
            && s'.w.db.nextId == n + 1 && n in s'.born && n in s'.w.db.rows && Parent(s'.born[n]) == 0
            && s'.born[n].event == l.event == s'.w.db.rows[n].event && !s'.born[n].kind.After?
  {
    InsertedOne(s, l);
    StepBornRow(s, l, s.w.db.nextId);
    StepRecords(s, l);
    InsertedKind(s, l);
  }

  lemma InsertedKind(s: State, l: Label)
    requires Enabled(s, l) && (l.CliEnqueue? || l.Submit? || l.RestartEvent?)
    requires s.w.db.nextId in Apply(s, l).w.db.rows && s.w.db.nextId !in s.w.db.rows
    ensures var r := Apply(s, l).w.db.rows[s.w.db.nextId]; r.retryOf == 0 && !r.kind.After?
  {
  }

  /** A new root has the weight of its event for its budget. */
  lemma NewRoot(s: State, n: nat, w: string -> nat)
    requires s.w.db.nextId == n + 1 && n in s.born && Parent(s.born[n]) == 0 && !s.born[n].kind.After?
    requires n in s.w.db.rows ==> s.w.db.rows[n].event == s.born[n].event
    ensures Root(s.born, n) == n && SpreadOf(s, w, n) <= Beyond(w)(s.born[n].event)
  {
    NoneOwn(s.born, s.born, n, n, ByAfter());
    NoneOwn(s.w.db.rows, s.born, n, n, Potential(w));
    assert ByAfter()(s.born[n]) == 0;
  }

  /** The row that a rerun adds goes back to where the repeated one does. */
  lemma RetryRoot(s: State)
    requires Inv(s) && Enabled(s, RecoverOne) && Apply(s, RecoverOne).w.db.nextId != s.w.db.nextId
    ensures var s', n, id := Apply(s, RecoverOne), s.w.db.nextId, s.phase.todo[0].id;
            && s'.w.db.nextId == n + 1 && n in s'.born && id < n && Root(s'.born, n) == Root(s.born, id)
            && ByAfter()(s'.born[n]) == 0
  {
    var s', n, id := Apply(s, RecoverOne), s.w.db.nextId, s.phase.todo[0].id;
    RetriedRows(s);
    StepBornRow(s, RecoverOne, n);
    StepRecords(s, RecoverOne);
    AddedRow(s, RecoverOne, n);
    StepRoots(s, RecoverOne);
    assert Parent(s'.born[n]) == id;
  }

  /** What a rerun changes: one new row, and the row that it repeats. */
  ghost predicate Repeats(rows: map<nat, Row>, rows': map<nat, Row>, n: nat, id: nat) {
    && id in rows && id < n && n in rows' && id in rows' && rows' == rows[n := rows'[n]][id := rows'[id]]
    && rows'[n].event == rows[id].event && rows'[id].status.Retried? && !rows[id].followed && !rows[id].status.Retried?
  }

  lemma RepeatTerms(rows: map<nat, Row>, rows': map<nat, Row>, n: nat, id: nat, f: Row -> int)
    requires Repeats(rows, rows', n, id)
    ensures forall x: nat | x < n && x != id :: Term(rows', x, f) == Term(rows, x, f)
  {
  }

  lemma RepeatSum(rows: map<nat, Row>, rows': map<nat, Row>, n: nat, id: nat, w: string -> nat)
    requires Repeats(rows, rows', n, id)
    ensures Sum(rows', n + 1, Potential(w)) <= Sum(rows, n, Potential(w))
  {
    RetryPotential(rows, n, rows'[n], id, rows'[id], w);
  }

  lemma OneOwn(rows: map<nat, Row>, rows': map<nat, Row>, born: map<nat, Row>, born': map<nat, Row>, n: nat, id: nat,
               f: Row -> int)
    requires id < n && SameRoots(born, born', n) && Root(born', n) == Root(born, id)
    requires forall x: nat | x < n && x != id :: Term(rows', x, f) == Term(rows, x, f)
    requires Sum(rows', n + 1, f) <= Sum(rows, n, f)
    ensures Sum(Own(rows', born', Root(born, id)), n + 1, f) <= Sum(Own(rows, born, Root(born, id)), n, f)
  {
    OwnTakesAll(rows, rows', born, born', n, n + 1, Root(born, id), f);
  }

  /** A rerun takes over what the run that it repeats could set off. */
  lemma RetryRowsOwn(rows: map<nat, Row>, rows': map<nat, Row>, born: map<nat, Row>, born': map<nat, Row>, n: nat, id: nat,
                     w: string -> nat)
    requires Repeats(rows, rows', n, id) && SameRoots(born, born', n) && Root(born', n) == Root(born, id)
    ensures var root := Root(born, id);
            Sum(Own(rows', born', root), n + 1, Potential(w)) <= Sum(Own(rows, born, root), n, Potential(w))
  {
    RepeatSum(rows, rows', n, id, w);
    RepeatTerms(rows, rows', n, id, Potential(w));
    OneOwn(rows, rows', born, born', n, id, Potential(w));
  }

  lemma BornOwn(born: map<nat, Row>, born': map<nat, Row>, n: nat, root: nat)
    requires SameRoots(born, born', n) && AgreeBelow(born, born', n)
    ensures Sum(Own(born', born', root), n, ByAfter()) == Sum(Own(born, born, root), n, ByAfter())
  {
    forall id: nat | id < n
      ensures Term(Own(born', born', root), id, ByAfter()) == Term(Own(born, born, root), id, ByAfter())
    {
      assert Root(born', id) == Root(born, id);
    }
    SumSame(Own(born', born', root), Own(born, born, root), n, ByAfter());
  }

  lemma RetryBornOwn(born: map<nat, Row>, born': map<nat, Row>, n: nat, root: nat)
    requires SameRoots(born, born', n) && AgreeBelow(born, born', n)
    requires n in born' && ByAfter()(born'[n]) == 0
    ensures Sum(Own(born', born', root), n + 1, ByAfter()) == Sum(Own(born, born, root), n, ByAfter())
  {
    BornOwn(born, born', n, root);
  }

  lemma RetryRepeats(s: State)
    requires Inv(s) && AllFireOnce(s) && Enabled(s, RecoverOne) && Apply(s, RecoverOne).w.db.nextId != s.w.db.nextId
    ensures Repeats(s.w.db.rows, Apply(s, RecoverOne).w.db.rows, s.w.db.nextId, s.phase.todo[0].id)
  {
    RetriedRows(s);
    CutOffUnfollowed(s, s.phase.todo[0].id);
  }

  lemma RetrySpread(s: State, s': State, id: nat, w: string -> nat)
    requires var n := s.w.db.nextId;
             && s'.w.db.nextId == n + 1 && Repeats(s.w.db.rows, s'.w.db.rows, n, id)
             && SameRoots(s.born, s'.born, n) && AgreeBelow(s.born, s'.born, n) && Root(s'.born, n) == Root(s.born, id)
             && n in s'.born && ByAfter()(s'.born[n]) == 0
    ensures SpreadOf(s', w, Root(s.born, id)) <= SpreadOf(s, w, Root(s.born, id))
  {
    RetryRowsOwn(s.w.db.rows, s'.w.db.rows, s.born, s'.born, s.w.db.nextId, id, w);
    RetryBornOwn(s.born, s'.born, s.w.db.nextId, Root(s.born, id));
  }

  lemma RetryBudget(s: State, s': State, w: string -> nat, root: nat)
    requires Inv(s) && AllFireOnce(s) && Enabled(s, RecoverOne) && s' == Apply(s, RecoverOne)
    requires s'.w.db.nextId != s.w.db.nextId && root == Root(s.born, s.phase.todo[0].id)
    ensures SpreadOf(s', w, root) <= SpreadOf(s, w, root)
  {
    RetryRepeats(s);
    RetryRoot(s);
    StepRoots(s, RecoverOne);
    RetrySpread(s, s', s.phase.todo[0].id, w);
  }

  /** What a handed run fires goes back to where the run does, and is paid for by the run. */
  lemma HandRoots(s: State, id: nat)
    requires Inv(s) && Enabled(s, Hand(id))
    ensures forall x | s.w.db.nextId <= x < Apply(s, Hand(id)).w.db.nextId :: Root(Apply(s, Hand(id)).born, x) == Root(s.born, id)
  {
    HandBorn(s, id);
    StepRoots(s, Hand(id));
    assert 1 <= id < s.w.db.nextId;
  }

  lemma HandSpread(s: State, s': State, w: string -> nat, root: nat)
    requires var n, n' := s.w.db.nextId, s'.w.db.nextId;
             && n <= n' && SameRoots(s.born, s'.born, n) && AgreeBelow(s.born, s'.born, n)
             && (forall x | n <= x < n' :: x in s'.born && s'.born[x].kind.After? && s'.born[x].retryOf == 0 && Root(s'.born, x) == root)
             && (forall id: nat | id < n && Root(s.born, id) != root ::
                   Term(s'.w.db.rows, id, Potential(w)) == Term(s.w.db.rows, id, Potential(w)))
             && Sum(s'.w.db.rows, n', Potential(w)) + n' - n <= Sum(s.w.db.rows, n, Potential(w))
    ensures SpreadOf(s', w, root) <= SpreadOf(s, w, root)
  {
    var n, n' := s.w.db.nextId, s'.w.db.nextId;
    OwnTakesAll(s.w.db.rows, s'.w.db.rows, s.born, s'.born, n, n', root, Potential(w));
    CountAllAfter(s.born, s'.born, n, n');
    OwnTakesAll(s.born, s'.born, s.born, s'.born, n, n', root, ByAfter());
  }

  lemma HandBudget(s: State, id: nat, w: string -> nat)
    requires Inv(s) && Enabled(s, Hand(id)) && Weighs(s.w.mem.follows, w)
    ensures SpreadOf(Apply(s, Hand(id)), w, Root(s.born, id)) <= SpreadOf(s, w, Root(s.born, id))
  {
    HandRoots(s, id);
    StepRoots(s, Hand(id));
    HandBorn(s, id);
    PotentialHand(s.w, Run(id, s.w.db.rows[id]), s.now, w);
    HandApplied(s, id);
    HandTerms(s, id, w);
    HandSpread(s, Apply(s, Hand(id)), w, Root(s.born, id));
  }

  lemma HandTerms(s: State, id: nat, w: string -> nat)
    requires Inv(s) && Enabled(s, Hand(id))
    ensures forall x: nat | x < s.w.db.nextId && x != id ::
              Term(Apply(s, Hand(id)).w.db.rows, x, Potential(w)) == Term(s.w.db.rows, x, Potential(w))
    ensures Term(Apply(s, Hand(id)).w.db.rows, id, Potential(w)) <= Term(s.w.db.rows, id, Potential(w))
  {
    HandApplied(s, id);
    HandedMeaning(s.w, Run(id, s.w.db.rows[id]), s.now);
  }

  lemma HandKeepsBudget(s: State, id: nat, w: string -> nat, root: nat)
    requires Inv(s) && Enabled(s, Hand(id)) && Weighs(s.w.mem.follows, w) && root < s.w.db.nextId
    ensures SpreadOf(Apply(s, Hand(id)), w, root) <= SpreadOf(s, w, root)
  {
    if root == Root(s.born, id) {
      HandBudget(s, id, w);
    } else {
      HandRoots(s, id);
      HandTerms(s, id, w);
      OtherRoot(s, Hand(id), w, root);
    }
  }

  lemma QuietKeepsBudget(s: State, l: Label, w: string -> nat, root: nat)
    requires Inv(s) && Enabled(s, l) && !l.Hand? && root < s.w.db.nextId
    requires forall id: nat | s.w.db.nextId <= id < Apply(s, l).w.db.nextId :: Root(Apply(s, l).born, id) != root
    ensures SpreadOf(Apply(s, l), w, root) <= SpreadOf(s, w, root)
  {
    forall id: nat | id < s.w.db.nextId
      ensures Term(Apply(s, l).w.db.rows, id, Potential(w)) <= Term(s.w.db.rows, id, Potential(w))
    {
      QuietTerm(s, l, w, id);
    }
    OtherRoot(s, l, w, root);
  }

  lemma RetryElsewhere(s: State, l: Label, w: string -> nat, root: nat)
    requires Inv(s) && Enabled(s, l) && l.RecoverOne? && Apply(s, l).w.db.nextId != s.w.db.nextId
    requires root < s.w.db.nextId && root != Root(s.born, s.phase.todo[0].id)
    ensures SpreadOf(Apply(s, l), w, root) <= SpreadOf(s, w, root)
  {
    var n, born' := s.w.db.nextId, Apply(s, l).born;
    assert Apply(s, l).w.db.nextId == n + 1 && Root(born', n) != root by { RetryRoot(s); }
    QuietKeepsBudget(s, l, w, root);
  }

  lemma RetryKeepsBudget(s: State, s': State, w: string -> nat, root: nat)
    requires Inv(s) && AllFireOnce(s) && Enabled(s, RecoverOne) && s' == Apply(s, RecoverOne)
    requires s'.w.db.nextId != s.w.db.nextId && root < s.w.db.nextId
    ensures SpreadOf(s', w, root) <= SpreadOf(s, w, root)
  {
    if root == Root(s.born, s.phase.todo[0].id) {
      RetryBudget(s, s', w, root);
    } else {
      RetryElsewhere(s, RecoverOne, w, root);
    }
  }

  lemma InsertKeepsBudget(s: State, l: Label, w: string -> nat, root: nat)
    requires Inv(s) && Enabled(s, l) && (l.CliEnqueue? || l.Submit? || l.RestartEvent?) && root < s.w.db.nextId
    requires Apply(s, l).w.db.nextId != s.w.db.nextId
    ensures SpreadOf(Apply(s, l), w, root) <= SpreadOf(s, w, root)
  {
    InsertedBorn(s, l);
    assert Root(Apply(s, l).born, s.w.db.nextId) == s.w.db.nextId;
    QuietKeepsBudget(s, l, w, root);
  }

  lemma StepSpreadOf(s: State, l: Label, w: string -> nat, root: nat)
    requires Inv(s) && AllFireOnce(s) && Enabled(s, l) && Weighed(s, w) && root < s.w.db.nextId
    ensures SpreadOf(Apply(s, l), w, root) <= SpreadOf(s, w, root)
  {
    if l.Hand? {
      HandKeepsBudget(s, l.id, w, root);
    } else if Apply(s, l).w.db.nextId == s.w.db.nextId {
      QuietKeepsBudget(s, l, w, root);
    } else if l.RecoverOne? {
      RetryKeepsBudget(s, Apply(s, l), w, root);
    } else {
      OnlyInsertsGrow(s, l);
      InsertKeepsBudget(s, l, w, root);
    }
  }

  lemma StepBudget(s: State, l: Label, w: string -> nat, root: nat)
    requires Inv(s) && AllFireOnce(s) && Enabled(s, l) && Weighed(s, w) && root in s.born && WithinBudget(s, w, root)
    ensures WithinBudget(Apply(s, l), w, root)
  {
    assert Recorded(s) && root < s.w.db.nextId;
    StepSpreadOf(s, l, w, root);
    StepBornRow(s, l, root);
  }

  /** A row that is no root has nothing going back to it. */
  lemma NoRoot(s: State, w: string -> nat, root: nat)
    requires Root(s.born, root) != root
    ensures SpreadOf(s, w, root) == 0
  {
    forall id: nat ensures Root(s.born, id) != root { RootOfRoot(s.born, id); }
    NoneOwn(s.born, s.born, root, s.w.db.nextId, ByAfter());
    NoneOwn(s.w.db.rows, s.born, root, s.w.db.nextId, Potential(w));
  }

  /** A row that a step adds is a root with a budget, or no root. */
  lemma NewBudget(s: State, l: Label, w: string -> nat, root: nat)
    requires Inv(s) && Enabled(s, l) && root !in s.born
    ensures WithinBudget(Apply(s, l), w, root)
  {
    if root in Apply(s, l).born {
      StepRecords(s, l);
      if l.CliEnqueue? || l.Submit? || l.RestartEvent? {
        InsertedBorn(s, l);
        NewRoot(Apply(s, l), s.w.db.nextId, w);
      } else {
        AddedIsNoRoot(s, l, root);
        NoRoot(Apply(s, l), w, root);
      }
    }
  }

  lemma AddedIsNoRoot(s: State, l: Label, id: nat)
    requires Inv(s) && Enabled(s, l) && !l.CliEnqueue? && !l.Submit? && !l.RestartEvent?
    requires s.w.db.nextId <= id < Apply(s, l).w.db.nextId
    ensures Root(Apply(s, l).born, id) != id
  {
    if l.Hand? {
      HandRoots(s, l.id);
    } else {
      if !l.RecoverOne? { OnlyInsertsGrow(s, l); }
      RetryRoot(s);
    }
  }

  ghost predicate AllWithinBudget(s: State, w: string -> nat) {
    forall root :: WithinBudget(s, w, root)
  }

  lemma {:induction false} RunBudget(s: State, ls: seq<Label>, w: string -> nat)
    requires Inv(s) && AllFireOnce(s) && Runs(s, ls) && Weighed(s, w) && forall l | l in ls :: WeighedLabel(l, w)
    requires AllWithinBudget(s, w)
    ensures AllWithinBudget(Exec(s, ls), w)
    decreases |ls|
  {
    if ls != [] {
      StepInv(s, ls[0]);
      StepAllFireOnce(s, ls[0]);
      StepWeighed(s, ls[0], w);
      forall root ensures WithinBudget(Apply(s, ls[0]), w, root) {
        if root in s.born { StepBudget(s, ls[0], w, root); } else { NewBudget(s, ls[0], w, root); }
      }
      RunBudget(Apply(s, ls[0]), ls[1..], w);
    }
  }

  lemma StepWeighed(s: State, l: Label, w: string -> nat)
    requires Enabled(s, l) && Weighed(s, w) && WeighedLabel(l, w)
    ensures Weighed(Apply(s, l), w)
  {
    if !l.Boot? && !l.Configure? && !l.Crash? { StepSameSpecs(s, l); StepStaysUp(s, l); }
  }

  // The rows that a firing causes

  /** The rows that after triggers fired because of root, directly or not. */
  ghost function Caused(s: State, root: nat): set<nat> {
    set id | id in s.born && s.born[id].kind.After? && s.born[id].retryOf == 0 && Root(s.born, id) == root
  }

  lemma CausedIsSum(s: State, root: nat)
    requires Recorded(s)
    ensures |Caused(s, root)| == Sum(Own(s.born, s.born, root), s.w.db.nextId, ByAfter())
  {
    var n, own := s.w.db.nextId, Own(s.born, s.born, root);
    SumIsCount(own, n, ByAfter());
    forall id: nat ensures id in Caused(s, root) <==> id in Counted(own, n, ByAfter()) {
    }
    assert Caused(s, root) == Counted(own, n, ByAfter());
  }

  /** A firing of an event e sets off at most w(e) - 1 runs through after triggers. */
  lemma CausedWithin(s: State, w: string -> nat, root: nat)
    requires Recorded(s) && WithinBudget(s, w, root) && root in s.born
    ensures |Caused(s, root)| <= Beyond(w)(s.born[root].event)
  {
    CausedIsSum(s, root);
    forall id: nat | id < s.w.db.nextId ensures Term(Own(s.w.db.rows, s.born, root), id, Potential(w)) >= 0 {
      if id in s.w.db.rows { assert Potential(w)(s.w.db.rows[id]) >= 0; }
    }
    SumNonNegative(Own(s.w.db.rows, s.born, root), s.w.db.nextId, Potential(w));
  }

  /** A row that an after trigger fired is younger than the run that set it off. */
  ghost predicate CauseIsOlder(s: State, id: nat) {
    id in s.born && s.born[id].kind.After? && s.born[id].retryOf == 0 ==> 0 < s.born[id].cause < id
  }

  lemma StepCauses(s: State, l: Label, id: nat)
    requires Inv(s) && Enabled(s, l) && CauseIsOlder(s, id)
    ensures CauseIsOlder(Apply(s, l), id)
  {
    StepBornRow(s, l, id);
    StepRecords(s, l);
    if id !in s.born && id in Apply(s, l).born {
      if l.Hand? {
        HandBorn(s, l.id);
        assert 1 <= l.id < s.w.db.nextId;
      } else {
        PlainBorn(s, l, id);
      }
    }
  }

  lemma {:induction false} RunCauses(s: State, ls: seq<Label>)
    requires Inv(s) && Runs(s, ls) && forall id :: CauseIsOlder(s, id)
    ensures forall id :: CauseIsOlder(Exec(s, ls), id)
    decreases |ls|
  {
    if ls != [] {
      StepInv(s, ls[0]);
      forall id ensures CauseIsOlder(Apply(s, ls[0]), id) { StepCauses(s, ls[0], id); }
      RunCauses(Apply(s, ls[0]), ls[1..]);
    }
  }

  /** A row goes back to the root of the run that set it off, or that it repeats; every other row is a root. */
  lemma RootFollowsParent(s: State, id: nat)
    requires Inv(s) && Chained(s) && CauseIsOlder(s, id) && id in s.born
    ensures var r := s.born[id];
            && (r.retryOf != 0 ==> Root(s.born, id) == Root(s.born, r.retryOf))
            && (r.retryOf == 0 && r.kind.After? ==> Root(s.born, id) == Root(s.born, r.cause))
            && (r.retryOf == 0 && !r.kind.After? ==> Root(s.born, id) == id)
  {
    assert Linked(s, id);
  }
}
