/** Cron triggers (internal/trigger/cron.go): scheduled times that pass unseen are caught up by one
    firing, also over restarts. Times are nanoseconds; the library's schedule is a function that gives
    the first scheduled time after an instant. */
module Cron {
  import opened Queue

  const MISSED_AFTER := 60_000_000_000
  const MAX_WAIT := 1_000_000_000
  const MIN_WAIT := 1_000_000
  const MAX_CATCH_UP_STEPS := 1_000_000

  type Schedule = int -> Option<int>

  ghost predicate IsTime(next: Schedule, t: int) {
    next(t - 1) == Some(t)
  }

  /** next gives, for every instant, the first of a fixed set of times after it. */
  ghost predicate Steady(next: Schedule) {
    forall t :: FirstAfter(next, t)
  }

  ghost predicate FirstAfter(next: Schedule, t: int) {
    match next(t)
    case None => forall u | t < u :: !IsTime(next, u)
    case Some(n) => t < n && IsTime(next, n) && forall u | t < u < n :: !IsTime(next, u)
  }

  /** The scheduled times after last and up to now. */
  function DueTimes(next: Schedule, last: int, now: int): seq<int>
    requires Steady(next)
    decreases now - last
  {
    assert FirstAfter(next, last);
    if next(last).None? || next(last).value > now then [] else [next(last).value] + DueTimes(next, next(last).value, now)
  }

  ghost predicate Ascending(s: seq<int>) {
    forall i, j | 0 <= i < j < |s| :: s[i] < s[j]
  }

  lemma {:induction false} DueTimesMeaning(next: Schedule, last: int, now: int)
    requires Steady(next)
    ensures Ascending(DueTimes(next, last, now))
    ensures forall t :: t in DueTimes(next, last, now) <==> last < t <= now && IsTime(next, t)
    decreases now - last
  {
    assert FirstAfter(next, last);
    if next(last).Some? && next(last).value <= now {
      var n := next(last).value;
      var rest := DueTimes(next, n, now);
      DueTimesMeaning(next, n, now);
      assert forall i | 0 <= i < |rest| :: rest[i] in rest;
      assert DueTimes(next, last, now) == [n] + rest;
    }
  }

  /** How many of the times are more than MISSED_AFTER before now. */
  function Late(s: seq<int>, now: int): nat {
    if s == [] then 0 else (if now - s[|s| - 1] > MISSED_AFTER then 1 else 0) + Late(s[..|s| - 1], now)
  }

  /** The late ones come first. */
  lemma {:induction false} LateComeFirst(s: seq<int>, now: int)
    requires Ascending(s)
    ensures Late(s, now) <= |s|
    ensures forall i | 0 <= i < |s| :: now - s[i] > MISSED_AFTER <==> i < Late(s, now)
  {
    if s != [] {
      LateComeFirst(s[..|s| - 1], now);
      if now - s[|s| - 1] > MISSED_AFTER && |s| > 1 {
        assert s[|s| - 2] < s[|s| - 1];
      }
    }
  }

  /** Each due time is followed by the next one, the last by none that is due. */
  lemma {:induction false} DueTimesFollow(next: Schedule, last: int, now: int, i: nat)
    requires Steady(next) && i < |DueTimes(next, last, now)|
    ensures var due := DueTimes(next, last, now);
            if i + 1 < |due| then next(due[i]) == Some(due[i + 1]) else next(due[i]).None? || next(due[i]).value > now
    decreases i
  {
    var n := next(last).value;
    assert DueTimes(next, last, now) == [n] + DueTimes(next, n, now);
    if i > 0 {
      DueTimesFollow(next, n, now, i - 1);
    }
  }

  /** What the handler of a trigger gets. */
  datatype Shot = Shot(scheduledAt: int, missed: bool)

  /** The log line about missed times. */
  datatype Notice = CaughtUp(count: nat, first: int, last: int) | SkippedOver(count: nat, first: int, last: int)

  /** How many of the due times a look goes through before it gives up counting. */
  function Reached(due: seq<int>, now: int): nat {
    if Late(due, now) >= MAX_CATCH_UP_STEPS then MAX_CATCH_UP_STEPS else |due|
  }

  function Shots(due: seq<int>, skip: bool, now: int): seq<Shot> {
    if due == [] || Reached(due, now) > |due| || Reached(due, now) == 0 then []
    else
      var latest := due[Reached(due, now) - 1];
      if now - latest <= MISSED_AFTER then [Shot(latest, false)]
      else if skip then [] else [Shot(latest, true)]
  }

  function Notices(due: seq<int>, skip: bool, now: int): seq<Notice> {
    var late := Late(due, now);
    var count := if late >= MAX_CATCH_UP_STEPS then MAX_CATCH_UP_STEPS else late;
    if count == 0 || count > |due| then []
    else if skip then [SkippedOver(count, due[0], due[count - 1])] else [CaughtUp(count, due[0], due[count - 1])]
  }

  /** One trigger: when it was last handled, that time as the store has it (in milliseconds), and what
      its handler got so far. */
  datatype Trigger = Trigger(last: int, saved: Option<int>, shots: seq<Shot>, notices: seq<Notice>)

  /** kept is false for a scheduler without a store. */
  function Save(kept: bool, t: Trigger, at: int): Trigger {
    if kept then t.(saved := Some(Ms(at))) else t
  }

  function Loaded(kept: bool, t: Trigger, now: int): Trigger {
    if kept && t.saved.Some? && t.saved.value * 1_000_000 < now then t.(last := t.saved.value * 1_000_000)
    else Save(kept, t.(last := now), now)
  }

  function Looked(kept: bool, next: Schedule, skip: bool, t: Trigger, now: int): Trigger
    requires Steady(next)
  {
    var due := DueTimes(next, t.last, now);
    if due == [] then t
    else
      var h := Save(kept, t.(last := now), now);
      h.(shots := t.shots + Shots(due, skip, now), notices := t.notices + Notices(due, skip, now))
  }

  // The scheduler

  /** The cron_state table, by trigger key. */
  class CronState {
    var at: map<string, int>

    constructor ()
      ensures at == map[]
    {
      at := map[];
    }

    function Get(key: string): Option<int>
      reads this
    {
      if key in at then Some(at[key]) else None
    }

    method Set(key: string, time: int)
      modifies this
      ensures Get(key) == Some(Ms(time)) && forall k | k != key :: Get(k) == old(Get(k))
    {
      at := at[key := Ms(time)];
    }
  }

  class CronEntry {
    const key: string
    const next: Schedule
    const skip: bool
    var last: int
    /** What the handler and the log got. */
    var shots: seq<Shot>
    var notices: seq<Notice>

    constructor (key: string, next: Schedule, skip: bool)
      ensures this.key == key && this.next == next && this.skip == skip && shots == [] && notices == []
    {
      this.key, this.next, this.skip := key, next, skip;
      last, shots, notices := 0, [], [];
    }
  }

  /** Goes through the due times: the latest of them, and the number, the first and the last of the
      late ones. */
  method CountMissed(next: Schedule, last: int, now: int)
    returns (latest: int, missed: nat, firstMissed: int, lastMissed: int)
    requires Steady(next) && DueTimes(next, last, now) != []
    ensures var due := DueTimes(next, last, now);
            && 0 < Reached(due, now) <= |due| && latest == due[Reached(due, now) - 1]
            && missed == (if Late(due, now) >= MAX_CATCH_UP_STEPS then MAX_CATCH_UP_STEPS else Late(due, now)) <= |due|
            && (missed > 0 ==> firstMissed == due[0] && lastMissed == due[missed - 1])
  {
    ghost var due := DueTimes(next, last, now);
    ghost var late := Late(due, now);
    DueTimesMeaning(next, last, now);
    LateComeFirst(due, now);
    var t := next(last);
    latest, missed, firstMissed, lastMissed := t.value, 0, 0, 0;
    ghost var i := 0;
    while t.Some? && t.value <= now
      invariant i <= |due| && if i < |due| then t == Some(due[i]) else t.None? || t.value > now
      invariant i > 0 ==> latest == due[i - 1]
      invariant missed == if i <= late then i else late
      invariant missed > 0 ==> firstMissed == due[0] && lastMissed == due[missed - 1]
      invariant missed < MAX_CATCH_UP_STEPS
      decreases |due| - i
    {
      latest := t.value;
      if now - t.value > MISSED_AFTER {
        if missed == 0 {
          firstMissed := t.value;
        }
        lastMissed := t.value;
        missed := missed + 1;
      }
      i := i + 1;
      if missed >= MAX_CATCH_UP_STEPS {
        assert i == MAX_CATCH_UP_STEPS <= late;
        break;
      }
      DueTimesFollow(next, last, now, i - 1);
      t := next(t.value);
    }
    assert i < |due| ==> due[i] in due;
    assert i == Reached(due, now) > 0;
  }

  class CronScheduler {
    const state: CronState?
    var entries: seq<CronEntry>

    ghost predicate Valid()
      reads this
    {
      && (forall e | e in entries :: Steady(e.next))
      && (forall i, j | 0 <= i < j < |entries| :: entries[i] != entries[j] && entries[i].key != entries[j].key)
    }

    constructor (state: CronState?)
      ensures Valid() && this.state == state && entries == []
    {
      this.state, entries := state, [];
    }

    method Add(key: string, next: Schedule, skip: bool) returns (e: CronEntry)
      requires Valid() && Steady(next) && forall x | x in entries :: x.key != key
      modifies this`entries
      ensures Valid() && fresh(e) && entries == old(entries) + [e]
      ensures e.key == key && e.next == next && e.skip == skip && e.shots == [] && e.notices == []
    {
      e := new CronEntry(key, next, skip);
      entries := entries + [e];
    }

    ghost function Of(e: CronEntry): Trigger
      reads this, e, state
    {
      Trigger(e.last, if state == null then None else state.Get(e.key), e.shots, e.notices)
    }

    method Load(e: CronEntry, now: int)
      modifies e`last, state
      ensures Of(e) == Loaded(state != null, old(Of(e)), now)
      ensures state != null ==> forall k | k != e.key :: state.Get(k) == old(state.Get(k))
    {
      e.last := now;
      if state == null {
        return;
      }
      if e.key in state.at && state.at[e.key] * 1_000_000 < now {
        e.last := state.at[e.key] * 1_000_000;
      } else {
        state.Set(e.key, now);
      }
    }

    /** How long to sleep before the next look: at most a second, at least a millisecond, and otherwise
        not past the next scheduled time of any trigger. */
    method Wait(now: int) returns (d: int)
      requires Valid()
      ensures MIN_WAIT <= d <= MAX_WAIT
      ensures forall e | e in entries && e.next(e.last).Some? && now + MIN_WAIT <= e.next(e.last).value ::
                now + d <= e.next(e.last).value
      ensures MIN_WAIT < d < MAX_WAIT ==> exists e | e in entries :: e.next(e.last) == Some(now + d)
      ensures d == MIN_WAIT ==> exists e | e in entries :: e.next(e.last).Some? && e.next(e.last).value <= now + MIN_WAIT
    {
      d := MAX_WAIT;
      for i := 0 to |entries|
        invariant d <= MAX_WAIT
        invariant forall j | 0 <= j < i && entries[j].next(entries[j].last).Some? :: now + d <= entries[j].next(entries[j].last).value
        invariant d < MAX_WAIT ==> exists e | e in entries :: e.next(e.last) == Some(now + d)
      {
        var e := entries[i];
        var n := e.next(e.last);
        if n.Some? && n.value - now < d {
          d := n.value - now;
          assert e in entries && e.next(e.last) == Some(now + d);
        }
      }
      if d < MIN_WAIT {
        d := MIN_WAIT;
      }
    }

    method CheckEntry(e: CronEntry, now: int)
      requires Steady(e.next)
      modifies e`last, e`shots, e`notices, state
      ensures Of(e) == Looked(state != null, e.next, e.skip, old(Of(e)), now)
      ensures state != null ==> forall k | k != e.key :: state.Get(k) == old(state.Get(k))
    {
      var first := e.next(e.last);
      if first.None? || first.value > now {
        return;
      }
      var latest, missed, firstMissed, lastMissed := CountMissed(e.next, e.last, now);
      ghost var due := DueTimes(e.next, e.last, now);
      var onTime := now - latest <= MISSED_AFTER;
      e.last := now;
      if state != null {
        state.Set(e.key, now);
      }
      if missed > 0 {
        e.notices := e.notices + [if e.skip then SkippedOver(missed, firstMissed, lastMissed)
                                  else CaughtUp(missed, firstMissed, lastMissed)];
      }
      assert e.notices == old(e.notices) + Notices(due, e.skip, now);
      if onTime {
        e.shots := e.shots + [Shot(latest, false)];
      } else if !e.skip {
        e.shots := e.shots + [Shot(latest, true)];
      }
      assert e.shots == old(e.shots) + Shots(due, e.skip, now);
    }

    /** Looks at every trigger; each fares as if it were alone. */
    method Check(now: int)
      requires Valid()
      modifies entries, state
      ensures Valid() && forall e | e in entries :: Of(e) == Looked(state != null, e.next, e.skip, old(Of(e)), now)
    {
      for i := 0 to |entries|
        invariant Valid()
        invariant forall j | 0 <= j < i ::
                    Of(entries[j]) == Looked(state != null, entries[j].next, entries[j].skip, old(Of(entries[j])), now)
        invariant forall j | i <= j < |entries| :: Of(entries[j]) == old(Of(entries[j]))
      {
        CheckEntry(entries[i], now);
      }
      forall e | e in entries ensures Of(e) == Looked(state != null, e.next, e.skip, old(Of(e)), now) {
        var j :| 0 <= j < |entries| && entries[j] == e;
      }
    }
  }

  // What one start and one look do

  /** A start takes up where the record says, if it is in the past; otherwise it begins now, and with a store
      that is recorded. */
  lemma LoadTakesUp(kept: bool, t: Trigger, now: int)
    ensures var l := Loaded(kept, t, now);
            && l.shots == t.shots && l.notices == t.notices
            && if kept && t.saved.Some? && t.saved.value * 1_000_000 < now
               then l.last == t.saved.value * 1_000_000 && l.saved == t.saved
               else l.last == now && l.saved == (if kept then Some(now / 1_000_000) else t.saved)
  {
  }

  /** A look with nothing due changes nothing; any other is recorded. */
  lemma LookRecords(kept: bool, next: Schedule, skip: bool, t: Trigger, now: int)
    requires Steady(next)
    ensures var l := Looked(kept, next, skip, t, now);
            if exists x :: IsTime(next, x) && t.last < x <= now
            then l.last == now && l.saved == (if kept then Some(now / 1_000_000) else t.saved)
            else l == t
  {
    var due := DueTimes(next, t.last, now);
    DueTimesMeaning(next, t.last, now);
    if due != [] {
      assert due[0] in due;
      assert IsTime(next, due[0]);
    }
  }

  /** A scheduled time, not before from, has passed since last. */
  ghost predicate Passed(next: Schedule, last: int, from: int, now: int) {
    exists t :: IsTime(next, t) && last < t <= now && from <= t
  }

  /** A look fires at most once, for a scheduled time that has passed since the last one: exactly when
      there is such a time, and, if missed times are skipped, one of them is on time and the look counts all
      that are late. The firing says whether its time was missed. */
  lemma LookFires(next: Schedule, skip: bool, t: Trigger, now: int)
    requires Steady(next)
    ensures var due := DueTimes(next, t.last, now);
            var shots := Shots(due, skip, now);
            && |shots| <= 1
            && (shots != [] <==> Passed(next, t.last, if skip then now - MISSED_AFTER else t.last, now)
                                 && (skip ==> Late(due, now) < MAX_CATCH_UP_STEPS))
            && (shots != [] ==>
                  && IsTime(next, shots[0].scheduledAt) && t.last < shots[0].scheduledAt <= now
                  && (shots[0].missed <==> now - shots[0].scheduledAt > MISSED_AFTER))
  {
    var due := DueTimes(next, t.last, now);
    DueTimesMeaning(next, t.last, now);
    LateComeFirst(due, now);
    if due != [] {
      assert due[|due| - 1] in due;
    }
    if Reached(due, now) > 0 && Reached(due, now) <= |due| {
      assert due[Reached(due, now) - 1] in due;
    }
    var from := if skip then now - MISSED_AFTER else t.last;
    if x :| IsTime(next, x) && t.last < x <= now && from <= x {
      assert x in due;
      var i :| 0 <= i < |due| && due[i] == x;
      assert x <= due[|due| - 1];
    }
  }

  /** A look fires the latest scheduled time if and only if it does not give up counting before it, and, if
      missed times are skipped, that time is on time. */
  lemma LatestIsFired(next: Schedule, skip: bool, t: Trigger, now: int)
    requires Steady(next) && DueTimes(next, t.last, now) != []
    ensures var due := DueTimes(next, t.last, now);
            var shots := Shots(due, skip, now);
            && (shots != [] && shots[0].scheduledAt == due[|due| - 1]
                <==> if skip then Late(due, now) < MAX_CATCH_UP_STEPS && now - due[|due| - 1] <= MISSED_AFTER
                     else Late(due, now) < MAX_CATCH_UP_STEPS || |due| == MAX_CATCH_UP_STEPS)
            && (if skip then shots != [] ==> shots[0].scheduledAt == due[|due| - 1] else |shots| == 1)
  {
    var due := DueTimes(next, t.last, now);
    DueTimesMeaning(next, t.last, now);
    LateComeFirst(due, now);
  }

  ghost function LateTimes(due: seq<int>, now: int): set<int> {
    set x | x in due && now - x > MISSED_AFTER
  }

  lemma OneMoreTime(due: seq<int>, x: int, now: int)
    ensures LateTimes(due + [x], now) == LateTimes(due, now) + if now - x > MISSED_AFTER then {x} else {}
  {
    assert forall y :: y in due + [x] <==> y in due || y == x;
  }

  lemma LastIsNew(due: seq<int>)
    requires Ascending(due) && due != []
    ensures due[|due| - 1] !in due[..|due| - 1] && Ascending(due[..|due| - 1])
    ensures due == due[..|due| - 1] + [due[|due| - 1]]
  {
  }

  lemma {:induction false} LateIsCount(due: seq<int>, now: int)
    requires Ascending(due)
    ensures Late(due, now) == |LateTimes(due, now)|
  {
    if due != [] {
      LastIsNew(due);
      var init, x := due[..|due| - 1], due[|due| - 1];
      LateIsCount(init, now);
      OneMoreTime(init, x, now);
    } else {
      assert LateTimes(due, now) == {};
    }
  }

  /** The log line about missed times counts the due times that are more than MISSED_AFTER old, up to the
      cap, and names the first of them, and the last unless it gave up counting. */
  lemma NoticeCounts(next: Schedule, skip: bool, t: Trigger, now: int)
    requires Steady(next)
    ensures var due := DueTimes(next, t.last, now);
            var late, notices := LateTimes(due, now), Notices(due, skip, now);
            && (notices != [] <==> |late| > 0)
            && (notices != [] ==>
                  && |notices| == 1 && notices[0].count == Min(|late|, MAX_CATCH_UP_STEPS) && notices[0].SkippedOver? == skip
                  && notices[0].first in late && notices[0].last in late
                  && (forall x | x in late :: notices[0].first <= x)
                  && ((forall x | x in late :: x <= notices[0].last) <==> |late| <= MAX_CATCH_UP_STEPS))
  {
    var due := DueTimes(next, t.last, now);
    DueTimesMeaning(next, t.last, now);
    LateComeFirst(due, now);
    LateIsCount(due, now);
    if Late(due, now) > 0 {
      LateSpan(due, now, Min(Late(due, now), MAX_CATCH_UP_STEPS));
    }
  }

  /** The first n of the late times are those up to the n-th. */
  lemma LateSpan(due: seq<int>, now: int, n: nat)
    requires Ascending(due) && 0 < n <= Late(due, now)
    ensures |due| >= Late(due, now) && {due[0], due[n - 1]} <= LateTimes(due, now)
    ensures forall x | x in LateTimes(due, now) :: due[0] <= x
    ensures (forall x | x in LateTimes(due, now) :: x <= due[n - 1]) <==> n == Late(due, now)
  {
    LateComeFirst(due, now);
    var last := due[Late(due, now) - 1];
    assert due[0] in due && due[n - 1] in due && last in due;
    assert last in LateTimes(due, now);
    forall x | x in LateTimes(due, now) ensures due[0] <= x <= last {
      var i :| 0 <= i < |due| && due[i] == x;
    }
  }

  function Min(a: nat, b: nat): nat { if a <= b then a else b }

  // Whole runs

  /** What can happen to a trigger: a start or reload reads its record, or fails to; kickd looks at the
      clock, or stops in a look after it has saved the time. */
  datatype Step = Load(now: int) | LoadUnread(now: int) | Look(now: int) | LookCut(now: int)

  const START := Trigger(0, None, [], [])

  function Apply(kept: bool, next: Schedule, skip: bool, t: Trigger, s: Step): Trigger
    requires Steady(next)
  {
    match s
    case Load(now) => Loaded(kept, t, now)
    case LoadUnread(now) => t.(last := now)
    case Look(now) => Looked(kept, next, skip, t, now)
    case LookCut(now) => if DueTimes(next, t.last, now) == [] then t else Save(kept, t.(last := now), now)
  }

  function History(kept: bool, next: Schedule, skip: bool, steps: seq<Step>): Trigger
    requires Steady(next)
  {
    if steps == [] then START
    else Apply(kept, next, skip, History(kept, next, skip, steps[..|steps| - 1]), steps[|steps| - 1])
  }

  ghost predicate Clocked(steps: seq<Step>) {
    forall i, j | 0 <= i <= j < |steps| :: steps[i].now <= steps[j].now
  }

  /** Every scheduled time is a whole millisecond. */
  ghost predicate WholeMs(next: Schedule) {
    forall t | IsTime(next, t) :: t % 1_000_000 == 0
  }

  ghost predicate Increasing(shots: seq<Shot>) {
    forall i, j | 0 <= i < j < |shots| :: shots[i].scheduledAt < shots[j].scheduledAt
  }

  /** No time fired so far can come up again. */
  ghost predicate Past(kept: bool, next: Schedule, t: Trigger, now: int) {
    && Increasing(t.shots)
    && forall x: Shot | x in t.shots ::
         IsTime(next, x.scheduledAt) && x.scheduledAt <= t.last && x.scheduledAt <= now
         && (kept ==> t.saved.Some? && x.scheduledAt <= t.saved.value * 1_000_000)
  }

  lemma Truncated(x: int, now: int)
    requires x <= now && x % 1_000_000 == 0
    ensures x <= Ms(now) * 1_000_000
  {
  }

  lemma StepPast(kept: bool, next: Schedule, skip: bool, t: Trigger, s: Step, before: int)
    requires Steady(next) && (kept ==> WholeMs(next)) && Past(kept, next, t, before) && before <= s.now
    ensures Past(kept, next, Apply(kept, next, skip, t, s), s.now)
  {
    var due, t' := DueTimes(next, t.last, s.now), Apply(kept, next, skip, t, s);
    DueTimesMeaning(next, t.last, s.now);
    LookFires(next, skip, t, s.now);
    forall x: Shot | x in t'.shots && kept ensures x.scheduledAt <= t'.saved.value * 1_000_000 {
      assert IsTime(next, x.scheduledAt);
      Truncated(x.scheduledAt, s.now);
    }
  }

  lemma {:induction false} RunPast(kept: bool, next: Schedule, skip: bool, steps: seq<Step>, now: int)
    requires Steady(next) && (kept ==> WholeMs(next)) && Clocked(steps) && forall s: Step | s in steps :: s.now <= now
    ensures Past(kept, next, History(kept, next, skip, steps), now)
  {
    if steps != [] {
      var init, s := steps[..|steps| - 1], steps[|steps| - 1];
      assert forall x: Step | x in init :: x in steps;
      RunPast(kept, next, skip, init, s.now);
      StepPast(kept, next, skip, History(kept, next, skip, init), s, s.now);
    }
  }

  /** Over all starts, reloads and stops of kickd, no scheduled time fires twice and none fires after a
      later one; with a store, exactly when the schedule has whole milliseconds, to which the record is
      truncated. */
  lemma NeverTwice(kept: bool, next: Schedule, skip: bool)
    requires Steady(next)
    ensures !kept || WholeMs(next) <==> forall steps: seq<Step> | Clocked(steps) :: Increasing(History(kept, next, skip, steps).shots)
  {
    if !kept || WholeMs(next) {
      forall steps: seq<Step> | Clocked(steps) ensures Increasing(History(kept, next, skip, steps).shots) {
        if steps != [] {
          RunPast(kept, next, skip, steps, steps[|steps| - 1].now);
        }
      }
    } else {
      var t :| IsTime(next, t) && t % 1_000_000 != 0;
      FinerTimeFiresTwice(next, skip, t);
    }
  }

  function Repeating(t: int): seq<Step> {
    [Load(t - 1), Look(t), Load(t), Look(t)]
  }

  lemma OnTimeDue(next: Schedule, last: int, now: int)
    requires Steady(next) && IsTime(next, now) && now - MISSED_AFTER <= last < now
    ensures var due := DueTimes(next, last, now); due != [] && due[|due| - 1] == now && Late(due, now) == 0
  {
    var due := DueTimes(next, last, now);
    DueTimesMeaning(next, last, now);
    LateComeFirst(due, now);
    var i :| 0 <= i < |due| && due[i] == now;
    assert due[|due| - 1] in due && due[0] in due;
  }

  lemma LookOnTime(next: Schedule, skip: bool, t: Trigger, now: int)
    requires Steady(next) && IsTime(next, now) && now - MISSED_AFTER <= t.last < now
    ensures Looked(true, next, skip, t, now) == Trigger(now, Some(Ms(now)), t.shots + [Shot(now, false)], t.notices)
  {
    var due := DueTimes(next, t.last, now);
    OnTimeDue(next, t.last, now);
    assert Shots(due, skip, now) == [Shot(now, false)] && Notices(due, skip, now) == [];
  }

  lemma FinerTimeFiresTwice(next: Schedule, skip: bool, t: int)
    requires Steady(next) && IsTime(next, t) && t % 1_000_000 != 0
    ensures Clocked(Repeating(t)) && !Increasing(History(true, next, skip, Repeating(t)).shots)
  {
    var s := Repeating(t);
    var a := Apply(true, next, skip, START, s[0]);
    var b := Apply(true, next, skip, a, s[1]);
    LookOnTime(next, skip, a, t);
    var c := Apply(true, next, skip, b, s[2]);
    assert c.last == Ms(t) * 1_000_000;
    LookOnTime(next, skip, c, t);
    var d := Apply(true, next, skip, c, s[3]);
    assert d.shots == [Shot(t, false), Shot(t, false)];
    FourSteps(next, skip, s[0], s[1], s[2], s[3]);
    assert d.shots[0].scheduledAt == d.shots[1].scheduledAt;
  }

  lemma FourSteps(next: Schedule, skip: bool, a: Step, b: Step, c: Step, d: Step)
    requires Steady(next)
    ensures History(true, next, skip, [a, b, c, d])
         == Apply(true, next, skip, Apply(true, next, skip, Apply(true, next, skip, Apply(true, next, skip, START, a), b), c), d)
  {
    assert [a, b, c, d][..3] == [a, b, c] && [a, b, c][..2] == [a, b] && [a, b][..1] == [a] && [a][..0] == [];
    assert History(true, next, skip, [a]) == Apply(true, next, skip, START, a);
    assert History(true, next, skip, [a, b]) == Apply(true, next, skip, History(true, next, skip, [a]), b);
    assert History(true, next, skip, [a, b, c]) == Apply(true, next, skip, History(true, next, skip, [a, b]), c);
  }

  // No time is left out

  /** Every scheduled time after from that has been handled was fired, itself or with a later one. */
  ghost predicate Covered(next: Schedule, t: Trigger, from: int) {
    && t.saved.Some?
    && (forall x: int | IsTime(next, x) && from < x && (x <= t.last || x <= t.saved.value * 1_000_000) ::
          t.shots != [] && x <= t.shots[|t.shots| - 1].scheduledAt)
  }

  /** What a step must not do for the times to be covered: stop between saving and firing, lose sight of
      the record, or give up counting. */
  predicate Undisturbed(next: Schedule, t: Trigger, s: Step)
    requires Steady(next)
  {
    s.Load? || (s.Look? && Late(DueTimes(next, t.last, s.now), s.now) < MAX_CATCH_UP_STEPS)
  }

  ghost predicate AllUndisturbed(next: Schedule, steps: seq<Step>)
    requires Steady(next)
  {
    forall i | 0 <= i < |steps| :: Undisturbed(next, History(true, next, false, steps[..i]), steps[i])
  }

  lemma StepCovered(next: Schedule, t: Trigger, s: Step, from: int, before: int)
    requires Steady(next) && Covered(next, t, from) && t.last <= before && t.saved.value * 1_000_000 <= before <= s.now
    requires Undisturbed(next, t, s)
    ensures Covered(next, Apply(true, next, false, t, s), from)
    ensures Apply(true, next, false, t, s).last <= s.now && Apply(true, next, false, t, s).saved.value * 1_000_000 <= s.now
    ensures s.Look? ==> forall x | IsTime(next, x) && from < x <= s.now ::
                          && Apply(true, next, false, t, s).shots != []
                          && x <= Apply(true, next, false, t, s).shots[|Apply(true, next, false, t, s).shots| - 1].scheduledAt
  {
    if s.Look? {
      var due := DueTimes(next, t.last, s.now);
      DueTimesMeaning(next, t.last, s.now);
      LookFires(next, false, t, s.now);
      if due != [] {
        LatestIsFired(next, false, t, s.now);
      }
    }
  }

  lemma InitUndisturbed(next: Schedule, steps: seq<Step>)
    requires Steady(next) && Clocked(steps) && steps != [] && AllUndisturbed(next, steps)
    ensures var init := steps[..|steps| - 1];
            && Clocked(init) && AllUndisturbed(next, init)
            && Undisturbed(next, History(true, next, false, init), steps[|steps| - 1])
  {
    var init := steps[..|steps| - 1];
    forall i | 0 <= i < |init| ensures Undisturbed(next, History(true, next, false, init[..i]), init[i]) {
      assert init[..i] == steps[..i];
    }
  }

  lemma {:induction false} RunCovered(next: Schedule, steps: seq<Step>)
    requires Steady(next) && Clocked(steps) && steps != [] && steps[0].Load? && AllUndisturbed(next, steps)
    ensures var t := History(true, next, false, steps);
            Covered(next, t, steps[0].now) && t.last <= steps[|steps| - 1].now && t.saved.value * 1_000_000 <= steps[|steps| - 1].now
    decreases |steps|
  {
    var init, s := steps[..|steps| - 1], steps[|steps| - 1];
    if |steps| > 1 {
      InitUndisturbed(next, steps);
      RunCovered(next, init);
      StepCovered(next, History(true, next, false, init), s, steps[0].now, init[|init| - 1].now);
    } else {
      assert History(true, next, false, init) == START;
    }
  }

  /** A trigger that catches up leaves out no scheduled time since its first start: after any look, the
      last time it fired is the latest of them. */
  lemma NothingLeftOut(next: Schedule, steps: seq<Step>, x: int)
    requires Steady(next) && Clocked(steps) && |steps| >= 2 && steps[0].Load? && steps[|steps| - 1].Look?
    requires AllUndisturbed(next, steps)
    requires IsTime(next, x) && steps[0].now < x <= steps[|steps| - 1].now
    ensures var shots := History(true, next, false, steps).shots;
            shots != [] && x <= shots[|shots| - 1].scheduledAt <= steps[|steps| - 1].now
  {
    var init, s := steps[..|steps| - 1], steps[|steps| - 1];
    InitUndisturbed(next, steps);
    RunCovered(next, init);
    StepCovered(next, History(true, next, false, init), s, steps[0].now, init[|init| - 1].now);
    FiredWasDue(next, steps);
  }

  lemma {:induction false} FiredWasDue(next: Schedule, steps: seq<Step>)
    requires Steady(next) && Clocked(steps) && steps != []
    ensures forall x: Shot | x in History(true, next, false, steps).shots ::
              IsTime(next, x.scheduledAt) && x.scheduledAt <= steps[|steps| - 1].now
    decreases |steps|
  {
    var init, s := steps[..|steps| - 1], steps[|steps| - 1];
    var t := History(true, next, false, init);
    if init != [] {
      FiredWasDue(next, init);
    }
    if s.Look? {
      DueTimesMeaning(next, t.last, s.now);
      LookFires(next, false, t, s.now);
    }
  }

  /** None of the disturbances is harmless: a stop between saving and firing, and a record that cannot be
      read, each leave a time out for good. */
  lemma DisturbedLeavesOut(next: Schedule, skip: bool, x: int)
    requires Steady(next) && IsTime(next, x)
    ensures History(true, next, skip, [Load(x - 1), LookCut(x), Look(x)]).shots == []
    ensures History(true, next, skip, [Load(x - 1), LoadUnread(x), Look(x)]).shots == []
  {
    ThreeSteps(next, skip, Load(x - 1), LookCut(x), Look(x));
    ThreeSteps(next, skip, Load(x - 1), LoadUnread(x), Look(x));
    NothingDue(next, x);
    DueTimesMeaning(next, x - 1, x);
    assert x in DueTimes(next, x - 1, x);
  }

  lemma NothingDue(next: Schedule, now: int)
    requires Steady(next)
    ensures DueTimes(next, now, now) == []
  {
    assert FirstAfter(next, now);
  }

  lemma ThreeSteps(next: Schedule, skip: bool, a: Step, b: Step, c: Step)
    requires Steady(next)
    ensures History(true, next, skip, [a, b, c])
         == Apply(true, next, skip, Apply(true, next, skip, Apply(true, next, skip, START, a), b), c)
  {
    assert [a, b, c][..2] == [a, b] && [a, b][..1] == [a] && [a][..0] == [];
    assert History(true, next, skip, [a]) == Apply(true, next, skip, START, a);
    assert History(true, next, skip, [a, b]) == Apply(true, next, skip, History(true, next, skip, [a]), b);
  }
}
