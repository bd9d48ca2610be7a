/** Waiting for a run on the command line (cmd/kickd/ops.go, waitRun): reruns are followed from row to
    row while the agent goes on. Each query sees the table of its own moment. */
module WaitRun {
  import opened Queue
  import opened Protocol
  import opened Chains
  import Safety
  import AfterOnce

  datatype Waited = Reported(runs: seq<Run>) | NotFound(id: nat) | TimedOut(id: nat)

  datatype ExitCode = ExitOk | ExitFailed | ExitTimeout

  function After(r: Run, w: Waited): Waited {
    if w.Reported? then Reported([r] + w.runs) else w
  }

  /** What waiting for cur comes to when the queries see the tables in views, one after the other, and
      the time is up after the last of them. */
  function Wait(views: seq<Db>, cur: nat): Waited
    decreases |views|
  {
    if views == [] then TimedOut(cur)
    else if cur !in views[0].rows then NotFound(cur)
    else
      var r := Run(cur, views[0].rows[cur]);
      if r.row.status.Retried? then
        if |views| == 1 then TimedOut(cur)
        else
          var next := RetryOf(views[1], cur);
          if next == [] then Wait(views[2..], cur) else After(r, Wait(views[2..], next[0].id))
      else if Final(r.row.status) then Reported([r])
      else Wait(views[1..], cur)
  }

  function Before(chain: seq<Run>, w: Waited): Waited {
    if w.Reported? then Reported(chain + w.runs) else w
  }

  method Follow(views: seq<Db>, id: nat) returns (w: Waited)
    ensures w == Wait(views, id)
  {
    var chain: seq<Run>, cur, k := [], id, 0;
    while k < |views|
      invariant k <= |views|
      invariant Wait(views, id) == Before(chain, Wait(views[k..], cur))
    {
      if cur !in views[k].rows {
        return NotFound(cur);
      }
      var r := Run(cur, views[k].rows[cur]);
      k := k + 1;
      if r.row.status.Retried? {
        if k == |views| {
          return TimedOut(cur);
        }
        var next := RetryOf(views[k], cur);
        k := k + 1;
        if next != [] {
          chain := chain + [r];
          cur := next[0].id;
        }
      } else if Final(r.row.status) {
        return Reported(chain + [r]);
      }
    }
    return TimedOut(cur);
  }

  /** The exit code of the command; for reported runs, that of reportRuns. */
  method Report(w: Waited) returns (code: ExitCode)
    requires w.Reported? ==> w.runs != []
    ensures code.ExitOk? <==> w.Reported? && w.runs[|w.runs| - 1].row.status.Succeeded?
    ensures code.ExitTimeout? <==> w.TimedOut?
  {
    match w {
      case Reported(runs) =>
        code := ExitOk;
        if !runs[|runs| - 1].row.status.Succeeded? {
          code := ExitFailed;
        }
      case NotFound(_) => code := ExitFailed;
      case TimedOut(_) => code := ExitTimeout;
    }
  }

  // While the agent runs

  ghost predicate Later(s: State, s': State) {
    exists ls :: Runs(s, ls) && s' == Exec(s, ls)
  }

  /** States of one history, in order; those of every run keep Inv and Chained. */
  ghost predicate Watched(states: seq<State>) {
    && (forall i | 0 <= i < |states| :: Inv(states[i]) && Chained(states[i]))
    && (forall i, j | 0 <= i < j < |states| && j == i + 1 :: Later(states[i], states[j]))
  }

  function Views(states: seq<State>): seq<Db> {
    seq(|states|, i requires 0 <= i < |states| => states[i].w.db)
  }

  ghost predicate Kept(s: State, s': State, id: nat) {
    && (id in s.born ==> id in s'.born && s'.born[id] == s.born[id])
    && (id in s.born && id !in s.w.db.rows ==> id !in s'.w.db.rows)
    && (id in s.w.db.rows && id in s'.w.db.rows && s.w.db.rows[id].status.Retried? ==> s'.w.db.rows[id].status.Retried?)
  }

  lemma {:induction false} RunKeeps(s: State, ls: seq<Label>, id: nat)
    requires Inv(s) && Runs(s, ls)
    ensures Kept(s, Exec(s, ls), id)
    decreases |ls|
  {
    if ls != [] {
      var s' := Apply(s, ls[0]);
      StepInv(s, ls[0]);
      StepKeeps(s, ls[0], id);
      RunKeeps(s', ls[1..], id);
    }
  }

  lemma StepKeeps(s: State, l: Label, id: nat)
    requires Inv(s) && Enabled(s, l)
    ensures Kept(s, Apply(s, l), id) && (id in s.w.db.rows ==> id in s.born)
  {
    StepBornRow(s, l, id);
    StepExtends(s, l);
    if id in s.w.db.rows && id in Apply(s, l).w.db.rows {
      KeptRow(s, l, id);
    }
  }

  lemma LaterKeeps(s: State, s': State, id: nat)
    requires Inv(s) && Later(s, s')
    ensures Kept(s, s', id)
  {
    var ls :| Runs(s, ls) && s' == Exec(s, ls);
    RunKeeps(s, ls, id);
  }

  lemma RetryOfMeaning(s: State, id: nat)
    requires Inv(s) && Chained(s) && id != 0
    ensures var next := RetryOf(s.w.db, id);
            && |next| <= 1
            && (next != [] ==> next[0].id in s.w.db.rows && s.w.db.rows[next[0].id] == next[0].row && s.born[next[0].id].retryOf == id
                               && id < next[0].id && id in s.born
                               && s.born[next[0].id].attempt == s.born[id].attempt + 1
                               && s.born[next[0].id].event == s.born[id].event)
            && (id in s.w.db.rows && s.w.db.rows[id].status.Retried? ==> next != [])
  {
    var next := RetryOf(s.w.db, id);
    SelectMeaning(s.w.db.rows, 0, s.w.db.nextId, RetryingRow(id), 1);
    if next != [] {
      assert Linked(s, next[0].id);
    }
    if id in s.w.db.rows && s.w.db.rows[id].status.Retried? {
      assert Timed(s, id);
      var c :| c in s.born && s.born[c].retryOf == id;
      assert Linked(s, c);
      assert RetryingRow(id)(s.w.db.rows[c]);
    }
  }

  /** Waiting never sticks at a retried row: the next query finds its rerun, unless a prune has removed
      the row, and then waiting ends. */
  lemma NeverSticks(states: seq<State>, cur: nat)
    requires Watched(states) && |states| >= 3
    requires cur in states[0].w.db.rows && states[0].w.db.rows[cur].status.Retried?
    ensures var w := Wait(Views(states), cur);
            if cur in states[1].w.db.rows
            then RetryOf(states[1].w.db, cur) != []
            else RetryOf(states[1].w.db, cur) == [] ==> w == NotFound(cur)
  {
    LaterKeeps(states[0], states[1], cur);
    LaterKeeps(states[1], states[2], cur);
    RowsAreBorn(states[0], cur);
    RetryOfMeaning(states[1], cur);
    assert Views(states)[2..][0] == states[2].w.db;
  }

  lemma RowsAreBorn(s: State, id: nat)
    requires Inv(s)
    ensures id in s.w.db.rows ==> id in s.born && id != 0
  {
  }

  /** The rows of runs repeat each other from id on, the attempts counting up; all but the last are
      retried, and the last one has an outcome. */
  ghost predicate IsReport(runs: seq<Run>, id: nat) {
    && runs != [] && runs[0].id == id
    && (forall i, j | 0 <= i < j < |runs| && j == i + 1 ::
          && runs[j].row.retryOf == runs[i].id < runs[j].id
          && runs[j].row.attempt == runs[i].row.attempt + 1 && runs[j].row.event == runs[i].row.event)
    && (forall i | 0 <= i < |runs| - 1 :: runs[i].row.status.Retried?)
    && Final(runs[|runs| - 1].row.status) && !runs[|runs| - 1].row.status.Retried?
  }

  /** The last run has no rerun: at the moment it was read, the report had all its attempts. */
  ghost predicate EndOfChain(states: seq<State>, last: Run) {
    exists s | s in states :: last.id in s.w.db.rows && s.w.db.rows[last.id] == last.row && !Repeated(s, last.id)
  }

  lemma RerunFound(s: State, t: State, u: State, id: nat)
    requires Inv(s) && Inv(t) && Chained(t) && Later(s, t) && Later(t, u) && id in s.w.db.rows
    requires RetryOf(t.w.db, id) != []
    ensures var next := RetryOf(t.w.db, id)[0].id;
            && id < next && next in u.born && id in s.born
            && u.born[next].retryOf == id && u.born[next].attempt == s.born[id].attempt + 1
            && u.born[next].event == s.born[id].event
  {
    RowsAreBorn(s, id);
    LaterKeeps(s, t, id);
    RetryOfMeaning(t, id);
    var next := RetryOf(t.w.db, id)[0].id;
    RowsAreBorn(t, next);
    LaterKeeps(t, u, next);
  }

  /** Going on from a retried row: to the one row that repeats it. */
  lemma GoesOn(states: seq<State>, id: nat) returns (next: nat)
    requires Watched(states) && Wait(Views(states), id).Reported?
    requires states[0].w.db.rows[id].status.Retried?
    ensures |states| >= 3 && Watched(states[2..])
    ensures Wait(Views(states), id) == After(Run(id, states[0].w.db.rows[id]), Wait(Views(states[2..]), next))
    ensures id < next && next in states[2].born && id in states[0].born
    ensures var child, b := states[2].born[next], states[0].born[id];
            child.retryOf == id && child.attempt == b.attempt + 1 && child.event == b.event
  {
    assert Views(states)[2..] == Views(states[2..]);
    if RetryOf(states[1].w.db, id) == [] {
      NeverSticks(states, id);
    }
    next := RetryOf(states[1].w.db, id)[0].id;
    RerunFound(states[0], states[1], states[2], id);
  }

  /** Whatever the agent does between the queries, what is reported are exactly the attempts from the
      given run to the end of its chain. */
  lemma {:induction false} ReportsTheChain(states: seq<State>, id: nat)
    requires Watched(states) && Wait(Views(states), id).Reported?
    ensures var runs := Wait(Views(states), id).runs;
            IsReport(runs, id) && EndOfChain(states, runs[|runs| - 1])
            && (id in states[0].born ==> SameFiring(runs[0].row, states[0].born[id]))
    decreases |states|
  {
    var s := states[0];
    assert Inv(s) && Chained(s);
    RowsAreBorn(s, id);
    var r := Run(id, s.w.db.rows[id]);
    if r.row.status.Retried? {
      var next := GoesOn(states, id);
      ReportsTheChain(states[2..], next);
      ReportGoesOn(states, id, next);
    } else if Final(r.row.status) {
      NoRerun(s, id);
    } else {
      NotEnded(states, id);
      ReportsTheChain(states[1..], id);
      var runs := Wait(Views(states[1..]), id).runs;
      LaterEnd(states, 1, runs[|runs| - 1]);
    }
  }

  /** The next query is for the same run. */
  lemma NotEnded(states: seq<State>, id: nat)
    requires Watched(states) && |states| > 1 && id in states[0].w.db.rows && !Final(states[0].w.db.rows[id].status)
    ensures Wait(Views(states), id) == Wait(Views(states[1..]), id) && Watched(states[1..])
    ensures id in states[0].born && id in states[1].born && states[1].born[id] == states[0].born[id]
  {
    assert Views(states)[1..] == Views(states[1..]);
    RowsAreBorn(states[0], id);
    LaterKeeps(states[0], states[1], id);
  }

  lemma ReportGoesOn(states: seq<State>, id: nat, next: nat)
    requires |states| >= 3 && id in states[0].w.db.rows && states[0].w.db.rows[id].status.Retried?
    requires id in states[0].born && SameFiring(states[0].w.db.rows[id], states[0].born[id])
    requires Wait(Views(states), id) == After(Run(id, states[0].w.db.rows[id]), Wait(Views(states[2..]), next))
    requires var w := Wait(Views(states[2..]), next);
             && w.Reported? && IsReport(w.runs, next) && EndOfChain(states[2..], w.runs[|w.runs| - 1])
             && id < next && next in states[2].born && SameFiring(w.runs[0].row, states[2].born[next])
    requires var child, b := states[2].born[next], states[0].born[id];
             child.retryOf == id && child.attempt == b.attempt + 1 && child.event == b.event
    ensures var runs := Wait(Views(states), id).runs; IsReport(runs, id) && EndOfChain(states, runs[|runs| - 1])
    ensures SameFiring(Wait(Views(states), id).runs[0].row, states[0].born[id])
  {
    var runs := Wait(Views(states[2..]), next).runs;
    Longer(Run(id, states[0].w.db.rows[id]), runs, next);
    LaterEnd(states, 2, runs[|runs| - 1]);
  }

  lemma LaterEnd(states: seq<State>, k: nat, last: Run)
    requires k <= |states| && EndOfChain(states[k..], last)
    ensures EndOfChain(states, last)
  {
    var s :| s in states[k..] && last.id in s.w.db.rows && s.w.db.rows[last.id] == last.row && !Repeated(s, last.id);
    assert s in states;
  }

  lemma NoRerun(s: State, id: nat)
    requires Inv(s) && Chained(s) && id in s.w.db.rows && !s.w.db.rows[id].status.Retried?
    ensures !Repeated(s, id)
  {
    RowsAreBorn(s, id);
    forall c ensures !(c in s.born && s.born[c].retryOf == id) {
      assert Linked(s, c);
    }
  }

  lemma Longer(r: Run, runs: seq<Run>, next: nat)
    requires IsReport(runs, next) && r.row.status.Retried? && runs[0].row.retryOf == r.id < next
    requires runs[0].row.attempt == r.row.attempt + 1 && runs[0].row.event == r.row.event
    ensures IsReport([r] + runs, r.id) && ([r] + runs)[|runs|] == runs[|runs| - 1]
  {
    var all := [r] + runs;
    forall i, j | 0 <= i < j < |all| && j == i + 1
      ensures all[j].row.retryOf == all[i].id < all[j].id
      ensures all[j].row.attempt == all[i].row.attempt + 1 && all[j].row.event == all[i].row.event
    {
      if i > 0 {
        assert all[i] == runs[i - 1] && all[j] == runs[j - 1];
      }
    }
    forall i | 0 <= i < |all| - 1 ensures all[i].row.status.Retried? {
      if i > 0 {
        assert all[i] == runs[i - 1];
      }
    }
  }

  /** The runs ids as the table has them, each repeated by the next one and the last one ended. */
  predicate EndedChain(db: Db, ids: seq<nat>) {
    && ids != [] && ids[0] in db.rows
    && var status := db.rows[ids[0]].status;
       if |ids| == 1 then Final(status) && !status.Retried?
       else EndedChain(db, ids[1..]) && db.rows[ids[1]].retryOf == ids[0]
  }

  function RowsOf(db: Db, ids: seq<nat>): seq<Run>
    requires EndedChain(db, ids)
  {
    [Run(ids[0], db.rows[ids[0]])] + if |ids| == 1 then [] else RowsOf(db, ids[1..])
  }

  lemma RerunIsRead(s: State, a: nat, b: nat)
    requires Inv(s) && Chained(s) && a in s.w.db.rows && b in s.w.db.rows && s.w.db.rows[b].retryOf == a
    ensures s.w.db.rows[a].status.Retried?
    ensures RetryOf(s.w.db, a) != [] && RetryOf(s.w.db, a)[0].id == b
  {
    RowsAreBorn(s, a);
    RowsAreBorn(s, b);
    assert Linked(s, b);
    RetryOfMeaning(s, a);
  }

  /** Once the chain of a run has ended, and nothing is pruned, waiting for the run reports all of its
      chain after two queries for each attempt. */
  lemma {:induction false} EndedChainIsReported(s: State, ids: seq<nat>, n: nat)
    requires Inv(s) && Chained(s) && EndedChain(s.w.db, ids) && n >= 2 * |ids|
    ensures Wait(seq(n, i => s.w.db), ids[0]) == Reported(RowsOf(s.w.db, ids))
    decreases |ids|
  {
    if |ids| > 1 {
      RerunIsRead(s, ids[0], ids[1]);
      assert seq(n, i => s.w.db)[2..] == seq(n - 2, i => s.w.db);
      EndedChainIsReported(s, ids[1..], n - 2);
    }
  }

  // A run that ends while it is waited for

  predicate EndedForGood(db: Db, id: nat) {
    id in db.rows && Final(db.rows[id].status) && !db.rows[id].status.Retried?
  }

  /** A run that has ended for good is not repeated later. */
  lemma StepEndsForGood(s: State, l: Label, id: nat)
    requires Inv(s) && Enabled(s, l) && EndedForGood(s.w.db, id) && id in Apply(s, l).w.db.rows
    ensures EndedForGood(Apply(s, l).w.db, id)
  {
    AfterOnce.FinalStays(s, l, id);
    KeptRow(s, l, id);
    if l.RecoverOne? {
      Safety.ToRecover(s);
      Safety.RecoverRowMeaning(s.w.db, s.w.mem.specs, s.phase.todo[0], s.now);
    }
  }

  lemma {:induction false} RunEndsForGood(s: State, ls: seq<Label>, id: nat)
    requires Inv(s) && Runs(s, ls) && EndedForGood(s.w.db, id) && id in Exec(s, ls).w.db.rows
    ensures EndedForGood(Exec(s, ls).w.db, id)
    decreases |ls|
  {
    if ls != [] {
      StepInv(s, ls[0]);
      StepKeeps(s, ls[0], id);
      RunKeeps(Apply(s, ls[0]), ls[1..], id);
      StepEndsForGood(s, ls[0], id);
      RunEndsForGood(Apply(s, ls[0]), ls[1..], id);
    }
  }

  /** What stays of run id from one state of a history to a later one. */
  ghost predicate KeptFor(s: State, t: State, id: nat) {
    Kept(s, t, id) && (EndedForGood(s.w.db, id) && id in t.w.db.rows ==> EndedForGood(t.w.db, id))
  }

  lemma {:induction false} WatchedKeeps(states: seq<State>, k: nat, id: nat)
    requires Watched(states) && k < |states|
    ensures KeptFor(states[0], states[k], id)
  {
    if k > 0 {
      WatchedKeeps(states, k - 1, id);
      LaterKeeps(states[k - 1], states[k], id);
      RowsAreBorn(states[0], id);
      var ls :| Runs(states[k - 1], ls) && states[k] == Exec(states[k - 1], ls);
      if EndedForGood(states[k - 1].w.db, id) && id in states[k].w.db.rows { RunEndsForGood(states[k - 1], ls, id); }
    }
  }

  /** From view k on, the chain of the run is ids, it has ended, and nothing of it is pruned. */
  predicate EndedFrom(views: seq<Db>, k: nat, ids: seq<nat>) {
    forall j | k <= j < |views| :: EndedChain(views[j], ids)
  }

  predicate RunsOf(runs: seq<Run>, ids: seq<nat>) {
    |runs| == |ids| && forall i | 0 <= i < |ids| :: runs[i].id == ids[i]
  }

  lemma FirstHasEnded(s: State, ids: seq<nat>)
    requires Inv(s) && Chained(s) && EndedChain(s.w.db, ids)
    ensures Final(s.w.db.rows[ids[0]].status) && (s.w.db.rows[ids[0]].status.Retried? <==> |ids| > 1)
  {
    if |ids| > 1 { RerunIsRead(s, ids[0], ids[1]); }
  }

  /** A retried run of the chain has its rerun in every table up to the end of the chain. */
  lemma RerunIsThere(states: seq<State>, ids: seq<nat>, k: nat)
    requires Watched(states) && 1 <= k < |states| && EndedChain(states[k].w.db, ids) && |ids| > 1
    requires ids[0] in states[0].w.db.rows && states[0].w.db.rows[ids[0]].status.Retried?
    ensures {ids[0], ids[1]} <= states[1].w.db.rows.Keys && states[1].w.db.rows[ids[1]].retryOf == ids[0]
    ensures ids[1] in states[0].born
  {
    RowsAreBorn(states[0], ids[0]);
    RerunIsBorn(states, k, ids[0], ids[1]);
    StillThere(states, k, ids[0]);
    StillThere(states, k, ids[1]);
    WatchedKeeps(states, 1, ids[1]);
  }

  lemma RerunIsBorn(states: seq<State>, k: nat, id: nat, next: nat)
    requires Watched(states) && k < |states| && next in states[k].w.db.rows && states[k].w.db.rows[next].retryOf == id
    requires id in states[0].w.db.rows && states[0].w.db.rows[id].status.Retried?
    ensures next in states[0].born && states[0].born[next].retryOf == id
  {
    var s, t := states[0], states[k];
    RowsAreBorn(s, id);
    assert Timed(s, id);
    var c :| c in s.born && s.born[c].retryOf == id;
    WatchedKeeps(states, k, c);
    OnlyRerun(t, id, next, c);
  }

  lemma OnlyRerun(t: State, id: nat, next: nat, c: nat)
    requires Inv(t) && Chained(t) && id != 0 && next in t.w.db.rows && t.w.db.rows[next].retryOf == id
    requires c in t.born && t.born[c].retryOf == id
    ensures c == next
  {
    RowsAreBorn(t, next);
    assert t.born[next].retryOf == id;
  }

  lemma StillThere(states: seq<State>, k: nat, id: nat)
    requires Watched(states) && 1 <= k < |states| && id in states[0].born && id in states[k].w.db.rows
    ensures id in states[1].w.db.rows && id in states[1].born
  {
    WatchedKeeps(states, 1, id);
    assert Watched(states[1..]);
    WatchedKeeps(states[1..], k - 1, id);
  }

  /** Whatever the earlier queries see: if from some query on the chain of the run has ended, and two queries
      are left for each attempt, the chain is reported. */
  lemma {:induction false} ReportedWhenEnded(states: seq<State>, ids: seq<nat>, k: nat)
    requires Watched(states) && ids != [] && k + 2 * |ids| <= |states|
    requires EndedFrom(Views(states), k, ids) && ids[0] in states[0].born
    ensures var w := Wait(Views(states), ids[0]); w.Reported? && RunsOf(w.runs, ids)
    decreases |states|
  {
    assert EndedChain(Views(states)[k], ids);
    BeforeItEnds(states, ids, k);
    var r := states[0].w.db.rows[ids[0]];
    if r.status.Retried? {
      AfterRetried(states, ids, k);
    } else if !Final(r.status) {
      AskAgain(states, ids, k);
      ReportedWhenEnded(states[1..], ids, k - 1);
    }
  }

  lemma BeforeItEnds(states: seq<State>, ids: seq<nat>, k: nat)
    requires Watched(states) && k < |states| && EndedChain(states[k].w.db, ids) && ids[0] in states[0].born
    ensures ids[0] in states[0].w.db.rows
    ensures var status := states[0].w.db.rows[ids[0]].status;
            (k == 0 ==> Final(status)) && (Final(status) && !status.Retried? ==> |ids| == 1)
  {
    FirstHasEnded(states[k], ids);
    WatchedKeeps(states, k, ids[0]);
  }

  lemma AskAgain(states: seq<State>, ids: seq<nat>, k: nat)
    requires Watched(states) && |states| > 1 && k > 0 && ids != [] && ids[0] in states[0].w.db.rows
    requires EndedFrom(Views(states), k, ids) && !Final(states[0].w.db.rows[ids[0]].status)
    ensures Watched(states[1..]) && EndedFrom(Views(states[1..]), k - 1, ids) && ids[0] in states[1].born
    ensures Wait(Views(states), ids[0]) == Wait(Views(states[1..]), ids[0])
  {
    NotEnded(states, ids[0]);
    forall j | k - 1 <= j < |states[1..]| ensures EndedChain(Views(states[1..])[j], ids) {
      assert EndedChain(Views(states)[j + 1], ids);
    }
  }

  lemma AfterRetried(states: seq<State>, ids: seq<nat>, k: nat)
    requires Watched(states) && ids != [] && k + 2 * |ids| <= |states|
    requires EndedFrom(Views(states), k, ids) && ids[0] in states[0].w.db.rows && states[0].w.db.rows[ids[0]].status.Retried?
    ensures var w := Wait(Views(states), ids[0]); w.Reported? && RunsOf(w.runs, ids)
    decreases |states|, 0
  {
    NextQueries(states, ids, k);
    ReportedWhenEnded(states[2..], ids[1..], if k < 2 then 0 else k - 2);
    OneMoreReported(states, ids);
  }

  lemma OneMoreReported(states: seq<State>, ids: seq<nat>)
    requires |states| > 2 && |ids| > 1 && ids[0] in states[0].w.db.rows && states[0].w.db.rows[ids[0]].status.Retried?
    requires RetryOf(states[1].w.db, ids[0]) != [] && RetryOf(states[1].w.db, ids[0])[0].id == ids[1]
    requires var w := Wait(Views(states[2..]), ids[1]); w.Reported? && RunsOf(w.runs, ids[1..])
    ensures var w := Wait(Views(states), ids[0]); w.Reported? && RunsOf(w.runs, ids)
  {
    WaitRetried(states, ids[0], ids[1]);
  }

  lemma NextQueries(states: seq<State>, ids: seq<nat>, k: nat)
    requires Watched(states) && ids != [] && k + 2 * |ids| <= |states|
    requires EndedFrom(Views(states), k, ids) && ids[0] in states[0].w.db.rows && states[0].w.db.rows[ids[0]].status.Retried?
    ensures |ids| > 1 && Watched(states[2..]) && EndedFrom(Views(states[2..]), if k < 2 then 0 else k - 2, ids[1..])
    ensures ids[1] in states[2].born && RetryOf(states[1].w.db, ids[0]) != [] && RetryOf(states[1].w.db, ids[0])[0].id == ids[1]
  {
    var j := if k < 1 then 1 else k;
    assert EndedChain(Views(states)[j], ids);
    HasRerun(states, ids, j);
    RerunFollows(states, ids, j);
    WatchedRest(states);
    EndedFromNext(states, ids, k);
  }

  lemma WatchedRest(states: seq<State>)
    requires Watched(states) && |states| > 2
    ensures Watched(states[2..])
  {
  }

  lemma HasRerun(states: seq<State>, ids: seq<nat>, j: nat)
    requires Watched(states) && 1 <= j < |states| && EndedChain(states[j].w.db, ids)
    requires ids[0] in states[0].w.db.rows && states[0].w.db.rows[ids[0]].status.Retried?
    ensures |ids| > 1
  {
    FirstHasEnded(states[j], ids);
    RowsAreBorn(states[0], ids[0]);
    WatchedKeeps(states, j, ids[0]);
  }

  lemma WaitRetried(states: seq<State>, id: nat, next: nat)
    requires |states| > 2 && id in states[0].w.db.rows && states[0].w.db.rows[id].status.Retried?
    requires RetryOf(states[1].w.db, id) != [] && RetryOf(states[1].w.db, id)[0].id == next
    ensures Wait(Views(states), id) == After(Run(id, states[0].w.db.rows[id]), Wait(Views(states[2..]), next))
  {
    assert Views(states)[2..] == Views(states[2..]);
  }

  lemma RerunFollows(states: seq<State>, ids: seq<nat>, j: nat)
    requires Watched(states) && 1 <= j < |states| && |states| > 2 && |ids| > 1 && EndedChain(states[j].w.db, ids)
    requires ids[0] in states[0].w.db.rows && states[0].w.db.rows[ids[0]].status.Retried?
    ensures ids[1] in states[2].born && RetryOf(states[1].w.db, ids[0]) != [] && RetryOf(states[1].w.db, ids[0])[0].id == ids[1]
  {
    RerunIsThere(states, ids, j);
    RerunIsRead(states[1], ids[0], ids[1]);
    WatchedKeeps(states, 2, ids[1]);
  }

  lemma EndedFromNext(states: seq<State>, ids: seq<nat>, k: nat)
    requires |ids| > 1 && |states| > 2 && EndedFrom(Views(states), k, ids)
    ensures EndedFrom(Views(states[2..]), if k < 2 then 0 else k - 2, ids[1..])
  {
    forall i | (if k < 2 then 0 else k - 2) <= i < |states[2..]| ensures EndedChain(Views(states[2..])[i], ids[1..]) {
      assert EndedChain(Views(states)[i + 2], ids);
    }
  }

  /** The wait was cut while the run was not to be reported yet: the last query found it not ended, or
      retried, or pruned when its rerun was looked for, or found the run as the rerun of another. */
  predicate NoQueryLeft(views: seq<Db>, id: nat, cur: nat) {
    if views == [] then cur == id
    else
      var n := |views| - 1;
      || (cur in views[n].rows && (!Final(views[n].rows[cur].status) || views[n].rows[cur].status.Retried?))
      || (n > 0 && cur in views[n - 1].rows && views[n - 1].rows[cur].status.Retried? && RetryOf(views[n], cur) == [])
      || (n > 0 && exists p :: p in views[n - 1].rows && views[n - 1].rows[p].status.Retried?
                               && RetryOf(views[n], p) != [] && RetryOf(views[n], p)[0].id == cur)
  }

  /** Waiting times out only then. */
  lemma {:induction false} TimesOutOnly(views: seq<Db>, id: nat)
    requires Wait(views, id).TimedOut?
    ensures NoQueryLeft(views, id, Wait(views, id).id)
    decreases |views|
  {
    if views != [] {
      var r := views[0].rows[id];
      if r.status.Retried? && |views| > 1 {
        var next := RetryOf(views[1], id);
        if |views| > 2 { TimesOutOnly(views[2..], if next == [] then id else next[0].id); }
      } else if !Final(r.status) && |views| > 1 {
        TimesOutOnly(views[1..], id);
      }
    }
  }

  /** And a run is reported missing only if a query did not find it. */
  lemma {:induction false} NotFoundOnly(views: seq<Db>, id: nat)
    requires Wait(views, id).NotFound?
    ensures exists i :: 0 <= i < |views| && Wait(views, id).id !in views[i].rows
    decreases |views|
  {
    if id in views[0].rows {
      var r := views[0].rows[id];
      var k, cur := 1, id;
      if r.status.Retried? {
        var next := RetryOf(views[1], id);
        k, cur := 2, if next == [] then id else next[0].id;
      }
      NotFoundOnly(views[k..], cur);
      var i :| 0 <= i < |views[k..]| && Wait(views[k..], cur).id !in views[k..][i].rows;
      assert views[k..][i] == views[k + i];
    }
  }
}
