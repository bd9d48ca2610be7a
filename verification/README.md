# kickd, modelled in Dafny

kickd runs commands when events fire. Every firing is a row of a SQLite table; one agent process and
any number of command-line processes move the rows through ten statuses, while the agent keeps
indexes in memory that have to agree with them. This project models that queue and what surrounds
it, and proves what the program relies on.

`dafny verify dfyconfig.toml` checks all of it.

## The parts

- **Queue.dfy**, **Store.dfy**: the runs table. Each SQL statement or transaction is a function from
  table to table, and a method of the class `Store` that is proved to compute it.
- **Dispatch.dfy**, **Dispatcher.dfy**: the dispatcher. The class has the source's maps as fields
  and its methods loop and update as the source does; each is proved equal to a function on the
  table and the indexes together (`World`).
- **Protocol.dfy**: the machine that most results are about. Its 23 kinds of steps are the pieces
  of code that run under one hold of `d.mu` or in one statement, so that a scan, a finish and
  `processCancels` interleave with each other, with the command line, with reloads and with crashes
  at every point between two pieces. A run is any sequence of enabled steps. The steps of the loop
  may come in any order here, which is more than the code does: what holds over these runs holds for the
  code, and what they reach says nothing about it.
- **Loop.dfy**: the same machine with the goroutine of the loop in it. Its place in the code says which
  step comes next: `processCancels`, `follow`, and a scan of exactly the rows that its query gave,
  one after the other. Everything else happens between any two of its pieces. Its courses are runs of
  the protocol (`Looping.MovesAreRun`), and an uninterrupted scan of it is what the method `Schedule`
  computes (**LoopScan.dfy**). The order of starts and all concrete runs are about this machine.
- **Refinement.dfy** shows that the methods of the dispatcher are runs of the protocol, step by step,
  so what holds over all runs holds for them.
- **Statements.dfy**, **Verdicts.dfy**, **Endings.dfy**, **Cancels.dfy**, **Replace.dfy**: what the
  pieces do, told by rows, columns and indexes only: what each statement writes, what a scan decides for a
  row and for several of one event, what status and restart a result leads to, and that a request to stop
  reaches the command it is for. The functions that the methods are proved equal to have these meanings.
- **Safety.dfy**, **Chains.dfy**, **AfterOnce.dfy**, **AfterRoots.dfy**, **AfterFires.dfy**,
  **Backlog.dfy**, **Fifo.dfy**, **Delays.dfy**, **Scan.dfy**: the properties of the protocol.
  **Guarantees.dfy** states the main ones from an empty table.
- **Traces.dfy**: concrete courses of the loop that show where an expected property fails.
- **After.dfy**, **Cycles.dfy**, **Config.dfy**: after triggers. The depth-first search of
  `afterCycle` finds a cycle exactly when there is one; without one, events have weights, and the
  weights are why `follow` comes to an end.
- **WaitRun.dfy**: the command line waiting for a run and its reruns.
- **Cron.dfy**: catching up missed times over restarts and reloads.
- **Bytes.dfy**, **Output.dfy**, **Tail.dfy**, **Rotate.dfy**: the output of a command and log
  rotation.
- **Tally.dfy**: sums over the rows of a table.

## What turned out false

Each of these has a concrete course or input, and the exact condition, or a bound that does hold.

- A final status can change. `processCancels` reads the ids of cancel requests and handles them
  later; a run that ends in between is no longer the dispatcher's own, and its final status is
  overwritten with `canceled` (`Traces.StaleCancellation`). A step breaks the status diagram exactly
  when it is such a stale cancellation (`Safety.StatusesMoveExactly`), and an unowned request is
  always stale (`Safety.UnownedCancelIsStale`).
- docs/runs.md promises at most 1000 waiting runs for each event. `Retry` inserts without counting, so
  after a crash 1001 can wait (`Traces.RerunExceedsLimit`). A step takes an event over the limit if and
  only if it is the start of the agent repeating a run of the event that finds 1000 waiting
  (`Backlog.StepExceedsLimit`), and no run without such a step has more (`Guarantees.LimitOfEveryRun`).
- Nor do the queued, running and interrupted rows together stay within 1001: the shutdown check of a scan
  is not one step with the start that follows it, so a run can start beside an interrupted one of its event.
  A step brings an event to two such rows if and only if it is a start of that kind, and it only
  happens after the agent began to stop (`Backlog.StepSecondStart`). Runs without one keep the bound of
  1001, and all runs that of 1002 (`Guarantees.BacklogOfEveryRun`); wherever there are two such rows, firings
  alone bring the event to 1002 (`Guarantees.BacklogExceeded`), and a run comes there
  (`Traces.LateStartReachesBound`).
- docs/runs.md says that waiting runs start in the order they were queued. A row that a scan finds
  blocked is not looked at again, so a run that ends during the scan lets a younger row overtake it
  (`Traces.OvertakingWithinAScan`). A start keeps the order if and only if the scan has no waiting row of
  the event behind it (`Fifo.StartKeepsOrder`). So the order holds over every course in which no run of
  the event ends while the scan has a waiting one behind it (`Guarantees.OrderOfEveryRun`), whatever else
  falls into the scan; and it is lost when such an end frees the event for the next row
  (`Fifo.FinishThenOvertake`).
- A full batch does not always lower the number of queued rows: a row with an unreadable payload ends at
  once, and the restart of its event takes its place (`Scans.UnreadableStaysQueued`). The number drops if
  and only if, before the scan, some row of the batch is neither held, because its event is running under
  the queue or the replace policy, nor unreadable with an event that restarts on failure, may start and
  has room in its queue (`Guarantees.BatchOfEveryRun`). One is when all payloads are readable.
- A run that ends while the agent is down and is old enough to be pruned when it starts never fires what
  follows it (`Traces.CanceledAndPruned`), because pruning does not ask whether a run was handed on. An
  ended run is lost if and only if a `Prune` takes its row before it is handed on; otherwise it waits, or
  has fired exactly once (`Guarantees.HandedOrLostOfEveryRun`).
- A cron time fires twice over a restart if it is not a whole millisecond, because the record is kept
  in milliseconds; it never does exactly when the schedule has whole milliseconds (`Cron.NeverTwice`).
- With a million or more missed times a look stops before the latest one (`Cron.LatestIsFired`). A
  trigger that skips missed times then fires nothing, even if the latest time is on time
  (`Cron.LookFires`). A stop between saving and firing, or a record that cannot be read, leaves a time
  out for good (`Cron.DisturbedLeavesOut`); without these three no time is (`Cron.NothingLeftOut`).
- What the tail of stderr shows can depend on how the output was split into writes, because a line
  can lose its front before its carriage returns are removed. It does not depend on it if and only if no
  cut of that kind shows (`Tails.SplitIndependentExactly`). Call a line long if it ends in a carriage
  return, is longer than the tail and is not carriage returns only. If none of the last lines is long, it does
  not depend on the split (`Tails.NoneLong`). Otherwise the last long one decides: it does not if and only if
  what is shown after that line takes up the tail, or as many bytes as the line has carriage returns
  (`Tails.LastLongDecides`). The one case left, a line with nothing shown after it and as many carriage
  returns as the tail has bytes, of which one byte at most would show, depends on the lines before it
  (`Tails.EarlierLinesDecide`). For an output of one line there is no such case
  (`Tails.OneLineSplitIndependent`).
- The capture calls itself truncated after an empty write when it is exactly full
  (`Outputs.CaptureMeaning`); the writers never send one, so the flag of a run is exact
  (`Outputs.OutputOfRun`).

## Model

| member | source | states |
|---|---|---|
| Queue.SelectMeaning | internal/queue/store.go:481-492 | a query returns matching rows in id order and leaves none out, except behind the last row of a full page |
| Queue.InsertAllMeaning | internal/queue/store.go:381-420 | the inserts of one transaction give each firing a new id in order, touch no other row, and drop exactly what finds a full backlog |
| Storage.Store.InsertRun | internal/queue/store.go:381-420 | one new row under a new id; `dropped` exactly when the backlog is full |
| Storage.Store.Follow | internal/queue/store.go:454-470 | the rows of all firings inserted and the run marked, in one transaction |
| Storage.Store.StartRun | internal/queue/store.go:514-516 | a queued row becomes running; anything else is left alone and reported |
| Storage.Store.FinishRun | internal/queue/store.go:541-557 | the outcome is written whatever the status of the row is |
| Storage.Store.Settle | internal/queue/store.go:561-564 | only a queued row is settled |
| Storage.Store.RequestCancel | internal/queue/store.go:574-603 | a queued run is canceled at once, a running one is asked to stop, any other is untouched |
| Storage.Store.RequestCancelEvent | internal/queue/store.go:607-635 | the same for every open run of an event, and for no other row |
| Storage.Store.Retry | internal/queue/store.go:664-686 | the next attempt is queued without a backlog check and the row is retried |
| Storage.Store.Prune | internal/queue/store.go:761-768 | only ended rows older than the cut are deleted |
| Statements.InsertedRow | internal/queue/store.go:381-420 | every column of the row of a firing, which is dropped if and only if it has a limit and that many runs of its event are queued |
| Statements.SubmittedRow | internal/runner/dispatcher.go:228-277 | a firing of a known event is dropped if and only if the event is under the queue policy and 1000 of its runs are queued |
| Statements.CanceledRow | internal/queue/store.go:574-603 | a queued row is canceled with its reason and time, a running one marked, any other unchanged |
| Statements.CanceledEvent | internal/queue/store.go:607-635 | the same for all rows of the event, and the rows of other events are spared |
| Statements.RetriedRow | internal/queue/store.go:664-686 | the retried row keeps the time at which it ended; the next attempt has its event, kind, cause and payload, and counts one more |
| Statements.PrunedRows | internal/queue/store.go:761-768 | exactly the rows are deleted that have a final status and ended before the cut |
| Dispatching.Dispatcher.Configure | internal/runner/dispatcher.go:110-123 | the loops build the specs by name and the follower lists of every event |
| Dispatching.Dispatcher.Recover | internal/runner/dispatcher.go:129-182 | every run cut off is judged and settled, in id order |
| Dispatching.Dispatcher.Submit | internal/runner/dispatcher.go:228-277 | an unknown event enqueues nothing; a known one gets a row, dropped under a full queue policy |
| Dispatching.Dispatcher.Follow | internal/runner/dispatcher.go:360-422 | the loop ends, hands on runs one after the other, each in the state the last one left, keeps every row, and leaves no ended run that was there before unhanded |
| Dispatching.Dispatcher.ProcessCancels | internal/runner/dispatcher.go:424-451 | every request read is handled in order: an own run is stopped once, another is finished as canceled |
| Dispatching.Dispatcher.Schedule | internal/runner/dispatcher.go:462-593 | one scan: the batch, the newest row of each replace event, the verdict on each row, and whether it wakes the next scan, by a full batch with progress or by a run that ended in it |
| Dispatching.Dispatcher.Examine | internal/runner/dispatcher.go:492-592 | the verdict on one row, by removed event, restart, policy and payload, and whether it is progress |
| Dispatching.Dispatcher.Finish | internal/runner/dispatcher.go:656-699 | outcome written, run removed from every index, event restarted |
| Dispatching.Dispatcher.RestartEvent | internal/runner/dispatcher.go:707-754 | the restart row and the new delay |
| Verdicts.DroppedRow | internal/runner/dispatcher.go:504-524 | rows of events that were removed, and restarts of events that do not restart any more, are dropped for that reason |
| Verdicts.QueueWaits | internal/runner/dispatcher.go:531-533 | under the queue policy a row of a running event stays as it is |
| Verdicts.SkipCounts | internal/runner/dispatcher.go:598-629 | a skipped row is counted on the active run of its event, in the table and in the indexes |
| Verdicts.ReplaceAsks | internal/runner/dispatcher.go:534-548 | a row under the replace policy stays queued, and the active run of its event is told to stop, once |
| Verdicts.FreeStarts | internal/runner/dispatcher.go:550-568 | a row whose event is free becomes running, with a context that nobody canceled, counted, and active unless the policy is parallel |
| Verdicts.UnreadableFails | internal/runner/dispatcher.go:570-575 | a run with an unreadable payload fails at once, for that reason |
| Verdicts.StoppingStartsNothing | internal/runner/dispatcher.go:501-503 | a scan of an agent that is stopping starts nothing and touches no index |
| Verdicts.WakesOnlyThen | internal/runner/dispatcher.go:476-481 | a scan wakes the next one only by a full batch with progress, or by a run that ended in it |
| Verdicts.ReloadChangesSpecs | internal/runner/dispatcher.go:110-123 | a reload replaces the specs and the followers, and nothing else |
| Verdicts.RecoveredAs | internal/runner/dispatcher.go:134-180 | status, reason and times of a run that was cut off, and every column of its next attempt |
| Verdicts.HandedDrops | internal/runner/dispatcher.go:385-398 | of the runs that a handed run fires, those are dropped whose event is under the queue policy with 1000 queued runs |
| Endings.FinishedRow | internal/runner/dispatcher.go:656-676 | succeeded if and only if exit code 0, no error and no shutdown; interrupted if and only if shutdown; canceled if and only if canceled without shutdown; failed otherwise; no other row is touched |
| Endings.FinishedRestarts | internal/runner/dispatcher.go:707-754 | a restart is queued if and only if the agent is not stopping and the restart policy is always, or on-failure after a failed run, and the run was neither canceled nor cut off; its delay and every column of its row |
| Endings.FinishedIndexes | internal/runner/dispatcher.go:677-693 | the run is out of every index, its event counts one run less, and nothing else changes |
| Cancels.RequestsReachCommands | internal/runner/dispatcher.go:424-442 | every run of the agent that is running and marked is told to stop, by the user if by nobody before, and no other run is |
| Cancels.OtherRequestsCancel | internal/runner/dispatcher.go:443-446 | marked runs that are not the agent's are canceled in the table, and no other row is touched |
| Cancels.RequestIsTold | internal/runner/dispatcher.go:433-442 | the same for one request, whatever happened since it was read |
| Cancels.StepTells | internal/runner/dispatcher.go:424-451 | every step keeps it that runs marked as asked, and active runs to be replaced, were told, and that a cause stays while the run is in progress |
| Replacing.DueRowsAsk | internal/runner/dispatcher.go:465-549 | when a scan does not wake the next one, the active run of a replace event with a row that may start is to be replaced |
| Replacing.SupersededAreSkipped | internal/runner/dispatcher.go:482-500 | of the rows of a replace event in the batch, all but the newest are skipped |
| Replacing.OutdatedMeaning | internal/runner/dispatcher.go:482-493 | and the newest is not |
| Replacing.StartedIsActive | internal/runner/dispatcher.go:550-568 | a start under skip, queue or replace makes the run the active one of its event |
| AfterWeights.HandingLowersWeight | internal/runner/dispatcher.go:360-422 | handing a run on strictly lowers the weight left, although what it fires can be dropped at once and wait to be handed on itself |
| AfterWeights.RankedHasWeights | internal/config/config.go:979-1028 | followers ranked above what they follow have weights |
| Protocol.StepInv | internal/runner/dispatcher.go:462-699 | every step keeps it: ids, indexes and the rows in progress agree |
| Protocol.RegisteredIndexed | internal/runner/dispatcher.go:550-568 | a start keeps `cancels` and `runInfo` on the same keys, `running` their count by event, `cancelSent` a subset and `active` one of the event's runs |
| Protocol.MapsFinishedIndexed | internal/runner/dispatcher.go:677-693 | so does a finish |
| Protocol.StepIndexed | internal/runner/dispatcher.go:110-123 | and so does every other step, reloads included |
| Guarantees.EveryRun | internal/runner/dispatcher.go:129-699 | invariant, rerun chains and once-only after firing in every state that any run reaches |
| Guarantees.OneRunAtATime | internal/runner/dispatcher.go:504-568 | under configs that never make an event parallel, at most one of its runs is in progress |
| Guarantees.ActiveOfEveryRun | internal/runner/dispatcher.go:550-568 | while an event is never parallel, its run in progress is the active one |
| Guarantees.EndingOfEveryRun | internal/runner/dispatcher.go:656-676 | wherever a run ends, its running row gets the status of its result |
| Guarantees.CancelsOfEveryRun | internal/runner/dispatcher.go:424-451 | in every reachable state, runs marked as asked and active runs to be replaced were told to stop |
| Guarantees.RequestsOfEveryRun | internal/runner/dispatcher.go:424-451 | in every reachable state, processCancels tells exactly the running marked runs of the agent |
| Guarantees.ReplacedOfEveryRun | internal/runner/dispatcher.go:465-549 | in every reachable state of a running agent, a scan that wakes none leaves no row under the replace policy that may start without its event's active run told to stop |
| Guarantees.DelaysOfEveryRun | internal/queue/store.go:481-492 | no row starts before its time, over every course of the loop |
| Guarantees.BacklogOfEveryRun | internal/queue/store.go:381-412 | queued, running and interrupted rows of a queue-policy event stay within 1002, and within 1001 unless a run of the event starts beside one in progress or interrupted |
| Guarantees.BacklogExceeded | internal/queue/store.go:381-412 | wherever two runs of the event are in progress or interrupted, firings alone bring its rows to 1002 |
| Guarantees.LimitOfEveryRun | internal/queue/store.go:381-412 | at most 1000 rows of a queue-policy event are queued, over every run in which no start of the agent repeats a run of it at a full backlog |
| Guarantees.AttemptsOfEveryRun | internal/runner/dispatcher.go:129-182 | no firing has more attempts than the largest `max_attempts` of its event |
| Guarantees.OrderOfEveryRun | internal/runner/dispatcher.go:462-593 | undelayed runs of a queue-policy event start in id order over the whole history, in every interleaving in which no run of the event ends while the scan has a waiting one behind it |
| Guarantees.SpreadOfEveryRun | internal/config/config.go:929-962 | each single row of an event e, a restart being a row of its own, causes at most w(e) - 1 runs through after triggers, directly or not, reruns and crashes included |
| Guarantees.RootsOfEveryRun | internal/queue/store.go:454-470 | what goes back to a row: reruns with the run they repeat, after-fired rows with the run that set them off, all others to themselves |
| Guarantees.FollowersOfEveryRun | internal/runner/dispatcher.go:360-422 | under accepted configs, once a run is handed on each event whose trigger lists its status has exactly one row for it, and no other event has one, in every continuation |
| Guarantees.BatchOfEveryRun | internal/runner/dispatcher.go:453-481 | in every reachable state of a running agent, a full batch wakes the next scan, and lowers the queued rows under exactly that condition |
| Guarantees.HandedOrLostOfEveryRun | internal/queue/store.go:761-768 | over any continuation, an ended run is handed on before it is pruned and keeps what it fired then, or is pruned first and never fires, or waits |
| Guarantees.ScanOfEveryRun | internal/runner/dispatcher.go:453-481 | in every reachable state of a running agent, a scan that does not wake the next one leaves no due row but those of running queue or replace events |
| Guarantees.AfterRunsOfEveryRun | internal/config/config.go:929-962 | all that after triggers fire stays within the sum of w(e) - 1 over the outside and restart firings |
| Safety.StatusesMoveExactly | internal/queue/store.go:39-45 | a step moves statuses along the diagram if and only if it is not a stale cancellation |
| Safety.UnownedCancelIsStale | internal/runner/dispatcher.go:443-446 | a request for a run that is not the dispatcher's own is for a run that has ended |
| Safety.FinalForever | internal/queue/store.go:514-564 | without stale cancellations a final status never changes and a pruned id never returns |
| Safety.StartsAlone | internal/runner/dispatcher.go:504-568 | a start under skip, queue or replace finds no run of its event in the indexes or in the table |
| Safety.AtMostOneRunning | internal/runner/dispatcher.go:504-568 | two rows of such an event in the status running are the same row, over every run from any reachable state |
| Safety.LoopStartsClean | internal/runner/dispatcher.go:129-182 | no row is running or interrupted when the loop starts |
| Safety.RecoverPrefix | internal/runner/dispatcher.go:129-182 | after k settled runs, the rows cut off are exactly the rest of the list |
| Safety.RecoverVerdicts | internal/runner/dispatcher.go:134-180 | each run cut off is retried, with its next attempt queued, if and only if its event is known, repeats interrupted runs, has attempts left and a readable payload; otherwise it is abandoned |
| Safety.RecoverAgain | internal/runner/dispatcher.go:129-182 | a start cut off anywhere and made again ends with the table of one uninterrupted start |
| Chains.StepChained | internal/queue/store.go:664-702 | every step keeps reruns linked, timed and unique |
| Chains.ChainCounts | internal/queue/store.go:664-686 | along a chain ids grow, attempts count 1, 2, 3, ..., and all but the last row are retried |
| Chains.OneOutcome | internal/runner/dispatcher.go:129-182 | one firing has at most one row that is not retried, over any number of crashes |
| Chains.RunAttempts | internal/runner/dispatcher.go:129-182 | attempts stay within `max_attempts` over every run |
| AfterOnce.FiredExactlyOnce | internal/queue/store.go:425-470 | nothing is fired before a run is handed on; afterwards exactly its followers' firings, once, in every continuation |
| AfterOnce.PrunedUnhandedIsLost | internal/queue/store.go:761-768 | a run pruned before it is handed on never fires and is never handed on |
| AfterOnce.HandedOrLost | internal/queue/store.go:425-470 | the three ends of an ended run, each with the exact condition on the steps taken |
| AfterOnce.AfterRunsBounded | internal/runner/dispatcher.go:360-422 | the runs fired by after triggers, taken together, stay within the budget of all outside and restart firings, reruns and crashes included |
| AfterRoots.StepSpreadOf | internal/runner/dispatcher.go:360-422 | no step raises what was fired for one row plus what the table can still set off for it |
| AfterRoots.CausedWithin | internal/config/config.go:929-962 | a row within its budget has caused at most w(e) - 1 after-fired rows |
| AfterFires.OneRowForEachFollower | internal/runner/dispatcher.go:368-398 | from a config to the rows: one row for each listed follower of a handed run, none for any other event |
| AfterFires.RunConfig | internal/runner/dispatcher.go:110-123 | the agent always runs under the specs and follower lists of a config that was accepted |
| Backlog.BacklogBounded | internal/runner/dispatcher.go:501-568 | the backlog bound as an invariant of every run, with and without starts of one run of the event beside another |
| Backlog.StepSecondStart | internal/runner/dispatcher.go:501-568 | a step brings a queue-policy event to two runs in progress or interrupted if and only if it is a start beside another, which only happens after the agent began to stop |
| Backlog.StepExceedsLimit | internal/queue/store.go:664-686 | a step takes a queue-policy event over 1000 queued rows if and only if it is a rerun at the start of the agent that finds 1000 |
| Refinement.ScheduleIsRun | internal/runner/dispatcher.go:462-593 | a scan is a run of the protocol |
| Looping.MovesAreRun | internal/runner/dispatcher.go:339-593 | every course of the loop is a run of the protocol |
| LoopScans.ScheduleIsCourse | internal/runner/dispatcher.go:462-593 | the loop, uninterrupted, goes through a scan as the method does, and back to its start |
| Refinement.FinishIsRun | internal/runner/dispatcher.go:656-754 | a finish is three steps of the protocol |
| Refinement.FollowIsRun | internal/runner/dispatcher.go:360-422 | `follow` is a run of the protocol |
| Refinement.ProcessCancelsIsRun | internal/runner/dispatcher.go:424-451 | `processCancels` is one reading step and one step for each request |
| Refinement.RecoverIsRun | internal/runner/dispatcher.go:129-182 | `Recover` is a run of the protocol |
| Scans.ScanProgress | internal/runner/dispatcher.go:462-593 | a scan lowers the queued and the due rows by exactly those that leave and are not replaced by a restart, and reports progress if and only if some row of its batch is not held |
| Scans.ReadableDrain | internal/runner/dispatcher.go:462-593 | with readable payloads, no row leaves if and only if all are held |
| Scans.DrainedExactly | internal/runner/dispatcher.go:462-593 | some row of a batch leaves the queue for good if and only if one is neither held nor replaced by a restart, told by the state before the scan |
| Scans.FullBatchProgresses | internal/runner/dispatcher.go:471-481 | a full batch wakes the next scan when fewer replace events run than it has places; the queued rows drop if and only if, before the scan, a row of it is neither held nor one that a restart would replace, so always when payloads are readable |
| Scans.UnreadableStaysQueued | internal/runner/dispatcher.go:570-575 | a full batch that makes progress and lowers nothing, for any restart delay |
| Scans.NothingHidden | internal/runner/dispatcher.go:453-481 | when a scan does not wake the next one, every due row left belongs to a running queue or replace event |
| Scans.RestartBackoff | internal/runner/dispatcher.go:707-754 | the delay after n short runs is the n-th of the backoff, and a long run begins again |
| Scans.BackoffIsDoubling | internal/runner/dispatcher.go:717-724 | the n-th delay is 2^n times the first, up to the largest |
| Fifo.StartKeepsOrder | internal/runner/dispatcher.go:531-568 | a start keeps the order if and only if the scan has no waiting row of the event behind it |
| Fifo.StartsInOrder | internal/runner/dispatcher.go:462-593 | starts stay in id order over every course in which no run of the event ends while the scan has a waiting one behind it |
| Fifo.AloneNeverEndsBehind | internal/runner/dispatcher.go:462-593 | in particular when no run ends within a scan, but those that the scan ends |
| Fifo.FinishThenOvertake | internal/runner/dispatcher.go:531-568 | the order is lost when such an end frees the event for the next row of the scan |
| Traces.OvertakingWithinAScan | internal/runner/dispatcher.go:531-533 | a scan of rows 1, 2 and 3 that starts run 1, leaves row 2 behind, sees run 1 end and starts run 3 while row 2 waits |
| Traces.StaleCancellation | internal/runner/dispatcher.go:424-451 | a reachable step from succeeded to canceled |
| Traces.LateStartReachesBound | internal/runner/dispatcher.go:501-558 | a reachable state with a backlog of 1002 |
| Traces.RerunExceedsLimit | internal/queue/store.go:664-686 | a reachable state with 1001 queued runs of a queue-policy event |
| Traces.CanceledAndPruned | internal/runner/dispatcher.go:303-307 | a run canceled while the agent is down and pruned at its start is not handed on, although an after trigger lists its status |
| Cycles.CycleFinder.Visit | internal/config/config.go:990-1010 | true with a closed walk in `found`, or the node and all it leads to are done, the path is as before and the done nodes are topologically ordered |
| Cycles.Search | internal/config/config.go:1011-1015 | a cycle, or an order of all roots in which every node comes after those it follows |
| Config.GraphMeaning | internal/config/config.go:980-987 | an edge from a to b exactly when an after trigger of a names b, self edges left out |
| Config.AfterCycle | internal/config/config.go:979-1028 | what is found is a closed walk of follows edges; nothing is found if and only if there is none |
| Config.CheckAfter | internal/config/config.go:925-965 | the check accepts a config if and only if its events have the weights that make `follow` end |
| Config.FollowMapMeaning | internal/runner/dispatcher.go:110-123 | f is a follower of e exactly when the spec of f has such an after trigger |
| Config.FiresEachFollowerOnce | internal/runner/dispatcher.go:368-398 | under an accepted config an ended run fires exactly the events whose trigger lists its status, each once, and nothing when it is retried |
| WaitRun.Follow | cmd/kickd/ops.go:268-299 | the loop computes the specification of waiting, query by query |
| WaitRun.Report | cmd/kickd/ops.go:303-322 | success exactly when the last attempt succeeded; the timeout code exactly on a timeout |
| WaitRun.NeverSticks | cmd/kickd/ops.go:284-290 | after a retried row the next query finds its rerun, unless the row was pruned, and then waiting ends |
| WaitRun.ReportsTheChain | cmd/kickd/ops.go:268-299 | whatever happens between the queries, the report is exactly the attempts from the given run to the end of its chain |
| WaitRun.EndedChainIsReported | cmd/kickd/ops.go:268-299 | an ended chain is reported after two queries for each attempt |
| WaitRun.ReportedWhenEnded | cmd/kickd/ops.go:268-299 | whatever the earlier queries see, if the chain has ended from some query on and two queries are left for each attempt, exactly its runs are reported |
| WaitRun.TimesOutOnly | cmd/kickd/ops.go:292-297 | a wait times out only if its last query found the run not ended, or retried, or had just found it |
| WaitRun.NotFoundOnly | cmd/kickd/ops.go:280-283 | a run is reported missing only if a query did not find it |
| Cron.DueTimesMeaning | internal/trigger/cron.go:192-204 | walking `Next` gives all scheduled times after the last look up to now, in order |
| Cron.CountMissed | internal/trigger/cron.go:198-212 | the loop finds the latest due time and the number, first and last of the late ones, up to the cap |
| Cron.CronScheduler.Load | internal/trigger/cron.go:145-161 | the record if it is in the past, otherwise now, which is recorded |
| Cron.LoadTakesUp | internal/trigger/cron.go:145-161 | the record is used if and only if it is in the past; otherwise now is, and is recorded |
| Cron.CronScheduler.Wait | internal/trigger/cron.go:173-185 | between a millisecond and a second, not past any trigger's next time, and shorter than a second only for one of them |
| Cron.CronScheduler.Check | internal/trigger/cron.go:192-236 | every trigger fares as if it were alone, and its record is kept under its own key |
| Cron.LookRecords | internal/trigger/cron.go:192-214 | a look with nothing due changes nothing, and any other is recorded |
| Cron.LookFires | internal/trigger/cron.go:192-236 | at most one firing for each look, exactly when a time is due and, if missed times are skipped, one is on time and the late ones are fewer than the cap |
| Cron.LatestIsFired | internal/trigger/cron.go:209-236 | exactly when the latest due time is fired, for triggers that skip missed times and for those that do not |
| Cron.NoticeCounts | internal/trigger/cron.go:216-228 | the count is the number of due times more than a minute old, up to the cap, the first is named, and the last if and only if they are not more than the cap |
| Cron.NeverTwice | internal/trigger/cron.go:145-161 | over any starts, reloads and cut looks with a nondecreasing clock, fired times strictly increase if and only if the schedule has whole milliseconds |
| Cron.NothingLeftOut | internal/trigger/cron.go:192-236 | a trigger that catches up has, after any look, fired the latest scheduled time since its first start, if no look was cut off, no record unread and no count capped |
| Cron.DisturbedLeavesOut | internal/trigger/cron.go:145-161 | a cut look, and an unread record, each leave a scheduled time out for good |
| Rotation.RotatingFile.Write | internal/logging/rotate.go:68-82 | appends to the current file, after a rotation exactly when it would grow past max |
| Rotation.RotatingFile.Rotate | internal/logging/rotate.go:84-109 | every generation is one older, the one beyond backups is gone, the current file is new and `size` is its length |
| Rotation.SuffixIsKept | internal/logging/rotate.go:68-109 | the generations are a suffix of all writes, cut between writes, in at most backups + 1 files, each within max unless it is one write |
| Rotation.NothingDroppedYet | internal/logging/rotate.go:84-99 | nothing is lost before all generations are in use |
| Rotation.FullBeforeRotation | internal/logging/rotate.go:68-82 | over every history, each file but the newest is longer than max together with the first write of the next newer one |
| Rotation.OneFileIfItFits | internal/logging/rotate.go:68-82 | without a limit, and as long as all writes fit max, there is one file, with all of them |
| Outputs.CaptureMeaning | internal/runner/runner.go:652-672 | the first limit bytes; truncated exactly when there was more or an empty write when full |
| Outputs.CapBuffer.Write | internal/runner/runner.go:659-672 | each write keeps that |
| Outputs.LineWriter.Write | internal/runner/runner.go:745-759 | what is sent to the capture and to the file at once, and what stays pending |
| Outputs.LineWriter.Flush | internal/runner/runner.go:779-789 | the rest is sent, with its newline added for the file |
| Outputs.WriteSends | internal/runner/runner.go:745-759 | of what is pending, all up to the last newline is sent at once as one chunk; without a newline all of it if longer than 8192 bytes, else nothing |
| Outputs.FlushSends | internal/runner/runner.go:779-789 | a flush sends what is pending as one chunk |
| Outputs.FileOfRun | internal/runner/runner.go:745-789 | the output file gets all bytes of each stream in order, and a newline more if its end was still pending |
| Outputs.StreamsAreKept | internal/runner/runner.go:745-789 | for any interleaving of writes and flushes no byte of a stream is lost, repeated or moved, and chunks end in a newline, or are newline-free and longer than `maxLogLine` or flushed |
| Outputs.OutputOfRun | internal/runner/runner.go:286-331 | the capture is the first limit bytes of the chunks, and truncated exactly when both streams together had more |
| Outputs.RunOutput.Finish | internal/runner/runner.go:324-331 | the output of a run, its truncated flag, and the file with all chunks |
| Tails.TailBuffer.Write | internal/runner/runner.go:690-706 | what the buffer holds after a write, cut lines included, for all inputs |
| Tails.TailBuffer.String | internal/runner/runner.go:715-728 | at most `maxBytes` long, and, when every line that ends in a carriage return fits, the last lines of all output, however it was split into writes |
| Tails.CutLinesLookAlike | internal/runner/runner.go:703-728 | cutting lines at the front changes nothing in the last bytes of the joined text |
| Tails.EndIsShown | internal/runner/runner.go:690-728 | without carriage returns, the text shown is the end of the output itself: of its last maxLines lines and what follows them the last maxBytes bytes, without newlines at the end |
| Tails.PlainIsSplitIndependent | internal/runner/runner.go:690-728 | if every line that ends in a carriage return fits the tail, all splits of the output show its last lines |
| Tails.CutIsWritten | internal/runner/runner.go:690-713 | every cut of the lines, to no less than the size of the tail, is what some split of the output leaves in the buffer |
| Tails.SplitIndependentExactly | internal/runner/runner.go:690-728 | all splits of an output show the same if and only if no such cut can be seen in the text |
| Tails.LastLongDecides | internal/runner/runner.go:690-728 | for any number of lines, all splits show the same if and only if what follows the last long line in the text takes up the tail or as many bytes as the line has carriage returns |
| Tails.NoneLong | internal/runner/runner.go:690-728 | all splits show the same if no line of those looked at is long |
| Tails.EarlierLinesDecide | internal/runner/runner.go:690-728 | in the case that is left, two outputs with the same last line, of which one depends on the split and one does not |
| Tails.OneLineSplitIndependent | internal/runner/runner.go:690-728 | for an output of one line, all splits show the same if and only if the line is plain or nothing but carriage returns, or the tail is empty |
| Tails.CarriageReturnShowsSplit | internal/runner/runner.go:700-705 | for any other line, what is shown in one write and in two, and that the second is shorter |

## Left out

- The webhook waiters: which caller a result is sent to. A queued row that another process cancels never
  resolves its waiter, so delivery to every caller does not hold.
- The details of a row that nothing here depends on: request ids, payload contents (only whether a
  payload parses), source, trigger id, detail texts, exit code, signal, output and duration columns.
- SQL, WAL, busy retries, migrations and failing statements: every statement is atomic and succeeds.
- Running a command: a run is a step that yields a result. Signals, stop commands, timeouts and pipes
  are not modelled.
- `activeRun` is a value in a map here and a shared pointer in the source; no two maps share one.
- `Recover` is proved for the whole list at one reading of the table. Rows that the command line adds
  in between shift the ids of the reruns; the machine has such runs, and the invariants and chains
  hold in them.
- `follow` is proved to terminate with no rows added by others while it runs, as they are not bounded.
  It leaves rows that its own last batch dropped for the next step.
- `restart` stores the delay under `d.mu` and inserts its row afterwards, `follow` reads the config
  under `d.mu` and commits afterwards, and `submit` reads the spec under `d.mu` and takes it again for
  the insert; each is one step of the machine, with the config of that moment.
- The pruning schedule, the heartbeat and the sleep of the loop: a scan can begin at any time that the
  loop is not in another one, and so can `Prune`.
- The rest of the validation of a config. `Config.Checked` lists what is used: unique names, attempts
  of at least 1, delays in order, and the checks on after triggers.
- The sentence in which `afterCycle` renders a cycle.
- The cron library and `@every` schedules: a schedule is a function that gives the first time of a fixed
  set after an instant. A clock that goes back, and a record that cannot be written, are not part of the
  whole-run results. The keys of two triggers are taken to be different.
- The log lines about missed times keep their count and times only.
- The DEBUG lines that `lineWriter` logs, their buffer and their masking.
- The two goroutines that write stdout and stderr: one write of a `lineWriter` is one step, so the
  capture and the file see the chunks of both streams in the same order.
- Rotation when a file operation fails, and the line that reports it.
- Timeouts of `kickd event --wait` appear as the end of the list of tables that the queries see; a
  query that fails for another reason than a missing run is not modelled.
