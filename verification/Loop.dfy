/** The protocol with the goroutine of the loop in it. The steps of module Protocol may come in any
    order; here those of the loop come in the order of its code: processCancels, follow, and then a scan
    of the rows that it read, one by one. Everything else happens between any two of its pieces: the
    command line, the runs that end, reloads, stops and crashes. */
module Looping {
  import opened Queue
  import opened Dispatch
  import opened Protocol
  import opened Refinement

  /** What schedule decides for a row under d.mu. */
  datatype Verdict = DropRow(reason: string) | SkipRow | HoldRow | Replace | StartRow

  function VerdictOn(mem: Mem, row: Row): Verdict {
    if row.event !in mem.specs then DropRow("event_removed")
    else
      var spec := mem.specs[row.event];
      if row.kind.Restart? && spec.restart.RestartNever? then DropRow("restart_disabled")
      else if Count(mem, row.event) == 0 || spec.policy.PolicyParallel? then StartRow
      else if spec.policy.PolicySkip? then SkipRow
      else if spec.policy.PolicyQueue? then HoldRow
      else Replace
  }

  /** Where a scan is with the first of its rows. Looking: not past the shutdown check. Deciding: past it,
      without d.mu. Dropping, Skipping, Counting: decided, with statements to come. Failing: in the finish
      of an unreadable row that it started. */
  datatype Stage = Looking | Deciding | Dropping(reason: string) | Skipping(busy: Option<nat>) | Counting(run: nat) | Failing(id: nat)

  /** Where the loop is. held: the rows of this scan that it left queued because their event was running
      under the queue policy. */
  datatype Place =
    | Away
    | Cancelling(ids: seq<nat>)
    | Following(ids: seq<nat>, full: bool)
    | Querying(waiting: set<string>)
    | Reading(runs: seq<Run>)
    | Scanning(rest: seq<Run>, newest: map<string, nat>, stage: Stage, held: set<nat>)

  /** What finish knows of a run when it comes to restart. */
  datatype Ending = Ending(event: string, status: Status, ran: nat)

  datatype Node = Node(s: State, at: Place, ends: map<nat, Ending>)

  datatype Move =
    | Step(l: Label)
    | ReadEnded
    | ReadWaiting
    | Query(batch: nat)
    | ReadNewest
    | Decide
    | StopScan
    | EndScan
    | RestartOf(id: nat)

  function Outset(now: int): Node {
    Node(Initial(now), Away, map[])
  }

  function Ids(runs: seq<Run>): seq<nat> {
    seq(|runs|, i requires 0 <= i < |runs| => runs[i].id)
  }

  /** The scan has a row before it, at the stage. */
  predicate AtRow(at: Place, stage: Stage) {
    at.Scanning? && at.rest != [] && at.stage == stage
  }

  predicate SettlesHead(at: Place, status: Status, reason: string)
    requires at.Scanning? && at.rest != []
  {
    || (at.stage.Looking? && Outdated(at.newest, at.rest[0]) && status.Skipped? && reason == "replaced")
    || (at.stage.Dropping? && status.Dropped? && reason == at.stage.reason)
    || (at.stage.Skipping? && status.Skipped? && reason == "already_running")
  }

  /** When the loop, or the goroutine of a run, comes to a step. */
  predicate Comes(n: Node, l: Label) {
    var at, mem := n.at, n.s.w.mem;
    && (l.ReadCancels? ==> at.Away? && !mem.stopping)
    && (l.CancelOne? ==> at.Cancelling? && at.ids != [] && at.ids[0] == l.id)
    && (l.Hand? ==> at.Following? && at.ids != [] && at.ids[0] == l.id)
    && (l.SettleRow? ==> at.Scanning? && at.rest != [] && at.rest[0].id == l.id && SettlesHead(at, l.status, l.reason))
    && (l.CountSkip? ==> AtRow(at, Counting(l.run)) && at.rest[0].row.event == l.event)
    && (l.Check? ==> AtRow(at, Looking) && !Outdated(at.newest, at.rest[0]))
    && (l.AskReplace? ==> AtRow(at, Deciding) && at.rest[0].row.event == l.event && VerdictOn(mem, at.rest[0].row).Replace?)
    && (l.Start? ==> AtRow(at, Deciding) && at.rest[0].id == l.id && VerdictOn(mem, at.rest[0].row).StartRow?)
    && (l.Prune? ==> at.Away?)
    && (l.FinishRow? ==> if at.Scanning? && at.stage == Failing(l.id) then l.res == PAYLOAD_INVALID
                         else l.id in n.s.w.db.rows && n.s.w.db.rows[l.id].readable)
    && !l.RestartEvent?
  }

  /** restart follows when the run is out of the indexes. */
  predicate Restarting(n: Node, id: nat) {
    n.s.phase.Up? && id in n.ends && id !in n.s.w.mem.runInfo
  }

  predicate Permits(n: Node, m: Move) {
    var at := n.at;
    match m
    case Step(l) => Enabled(n.s, l) && Comes(n, l)
    case ReadEnded => at == Cancelling([]) || at == Following([], true)
    case ReadWaiting => at == Following([], false)
    case Query(_) => at.Querying?
    case ReadNewest => at.Reading?
    case Decide => AtRow(at, Deciding) && var v := VerdictOn(n.s.w.mem, at.rest[0].row); !v.Replace? && !v.StartRow?
    case StopScan => AtRow(at, Looking) && n.s.w.mem.stopping && !Outdated(at.newest, at.rest[0])
    case EndScan => at.Scanning? && at.rest == [] && at.stage.Looking?
    case RestartOf(id) => Restarting(n, id)
  }

  /** The scan goes on with its next row. */
  function NextRow(at: Place): Place
    requires at.Scanning? && at.rest != []
  {
    at.(rest := at.rest[1..], stage := Looking)
  }

  function PlaceAfter(n: Node, l: Label): Place
    requires Enabled(n.s, l) && Comes(n, l)
  {
    var at := n.at;
    if l.ReadCancels? then Cancelling(Ids(CancelRequests(n.s.w.db)))
    else if l.CancelOne? then Cancelling(at.ids[1..])
    else if l.Hand? then Following(at.ids[1..], at.full)
    else if l.SettleRow? then
      if at.stage.Skipping? && at.stage.busy.Some? && IsQueued(n.s.w.db, l.id)
      then at.(stage := Counting(at.stage.busy.value)) else NextRow(at)
    else if l.CountSkip? || l.AskReplace? then NextRow(at)
    else if l.Check? then at.(stage := Deciding)
    else if l.Start? then
      if IsQueued(n.s.w.db, l.id) && !at.rest[0].row.readable then NextRow(at).(stage := Failing(l.id)) else NextRow(at)
    else if l.Crash? then Away
    else at
  }

  function EndsAfter(n: Node, l: Label): map<nat, Ending>
    requires Enabled(n.s, l)
  {
    if l.FinishRow? then n.ends[l.id := Ending(n.s.w.mem.runInfo[l.id], Outcome(l.res), l.res.ran)]
    else if l.Crash? then map[] else n.ends
  }

  function Decided(n: Node): Place
    requires Permits(n, Decide)
  {
    var at, row := n.at, n.at.rest[0].row;
    var v := VerdictOn(n.s.w.mem, row);
    if v.DropRow? then at.(stage := Dropping(v.reason))
    else if v.SkipRow? then
      at.(stage := Skipping(if row.event in n.s.w.mem.active then Some(n.s.w.mem.active[row.event].runId) else None))
    else NextRow(at).(held := at.held + {at.rest[0].id})
  }

  function Go(n: Node, m: Move): Node
    requires Permits(n, m)
  {
    var db, mem := n.s.w.db, n.s.w.mem;
    match m
    case Step(l) => Node(Apply(n.s, l), PlaceAfter(n, l), EndsAfter(n, l))
    case ReadEnded =>
      var ended := UnfollowedRuns(db, FOLLOW_BATCH);
      n.(at := Following(Ids(ended), |ended| == FOLLOW_BATCH))
    case ReadWaiting => n.(at := Querying(Waiting(mem)))
    case Query(batch) => n.(at := Reading(QueuedRuns(db, batch, n.at.waiting, n.s.now)))
    case ReadNewest => n.(at := Scanning(n.at.runs, Newest(mem, n.at.runs), Looking, {}))
    case Decide => n.(at := Decided(n))
    case StopScan => n.(at := Away)
    case EndScan => n.(at := Away)
    case RestartOf(id) =>
      var e := n.ends[id];
      Node(Apply(n.s, RestartEvent(e.event, e.status, e.ran)),
           if n.at.Scanning? && n.at.stage == Failing(id) then n.at.(stage := Looking) else n.at,
           n.ends - {id})
  }

  ghost predicate Course(n: Node, ms: seq<Move>)
    decreases |ms|
  {
    ms == [] || (Permits(n, ms[0]) && Course(Go(n, ms[0]), ms[1..]))
  }

  function Reach(n: Node, ms: seq<Move>): Node
    requires Course(n, ms)
    decreases |ms|
  {
    if ms == [] then n else Reach(Go(n, ms[0]), ms[1..])
  }

  // Every run with the loop in it is a run of the protocol

  function LabelOf(n: Node, m: Move): seq<Label>
    requires Permits(n, m)
  {
    match m
    case Step(l) => [l]
    case RestartOf(id) => [RestartEvent(n.ends[id].event, n.ends[id].status, n.ends[id].ran)]
    case _ => []
  }

  function Labels(n: Node, ms: seq<Move>): seq<Label>
    requires Course(n, ms)
    decreases |ms|
  {
    if ms == [] then [] else LabelOf(n, ms[0]) + Labels(Go(n, ms[0]), ms[1..])
  }

  lemma MoveIsRun(n: Node, m: Move)
    requires Permits(n, m)
    ensures Runs(n.s, LabelOf(n, m)) && Exec(n.s, LabelOf(n, m)) == Go(n, m).s
  {
    if m.Step? {
      ExecOne(n.s, m.l);
    } else if m.RestartOf? {
      ExecOne(n.s, LabelOf(n, m)[0]);
    }
  }

  /** So all that holds over the runs of the protocol holds over these. */
  lemma {:induction false} MovesAreRun(n: Node, ms: seq<Move>)
    requires Course(n, ms)
    ensures Runs(n.s, Labels(n, ms)) && Exec(n.s, Labels(n, ms)) == Reach(n, ms).s
    decreases |ms|
  {
    if ms != [] {
      MoveIsRun(n, ms[0]);
      MovesAreRun(Go(n, ms[0]), ms[1..]);
      ExecConcat(n.s, LabelOf(n, ms[0]), Labels(Go(n, ms[0]), ms[1..]));
    }
  }

  lemma {:induction false} OneMoreMove(n: Node, ms: seq<Move>, m: Move)
    requires Course(n, ms) && Permits(Reach(n, ms), m)
    ensures Course(n, ms + [m]) && Reach(n, ms + [m]) == Go(Reach(n, ms), m)
    decreases |ms|
  {
    if ms == [] {
      assert [] + [m] == [m] && [m][1..] == [];
    } else {
      OneMoreMove(Go(n, ms[0]), ms[1..], m);
      assert (ms + [m])[1..] == ms[1..] + [m];
    }
  }
}
