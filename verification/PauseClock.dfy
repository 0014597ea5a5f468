/** The clock of an execution timeline: when it ran, when it was paused, and how wall time is
    split between work and waiting for the learner. Times are whole microseconds. */
module PauseClock {
  import opened Wrappers

  datatype Interval = Interval(from: int, to: int)

  datatype RootStatus = Running | Success | Error | Completed

  /** The root span's own times, its pause flag and the recorded pauses. */
  datatype Clock = Clock(start: int, end: int, status: RootStatus, paused: bool, pausedSince: Option<int>,
                         waitingMs: nat, intervals: seq<Interval>, sawLifecycle: bool)

  /** What a caller may say about the run when it asks for a snapshot. */
  datatype Hint = NoHint | SaysFailed | SaysDone | SaysPaused

  datatype Event = RunStarted | RunPaused | RunResumed | RunEnded(failed: bool) | Other | Snapshot(hint: Hint, idle: bool, explicit: bool)

  function Millis(from: int, to: int): nat {
    if to <= from then 0 else (to - from) / 1000
  }

  function Max(a: int, b: int): int {
    if a < b then b else a
  }

  function Min(a: int, b: int): int {
    if a < b then a else b
  }

  function NewClock(at: int): Clock {
    Clock(at, at, Running, false, None, 0, [], false)
  }

  /** Close the open pause, if any. */
  function Closed(c: Clock, at: int): Clock {
    match c.pausedSince
    case None => c
    case Some(since) =>
      c.(waitingMs := c.waitingMs + Millis(since, at), intervals := c.intervals + [Interval(since, at)], pausedSince := None)
  }

  function Terminal(c: Clock): bool {
    c.status == Success || c.status == Error
  }

  /** The part of a snapshot that happens before any time is computed. */
  function Hinted(c: Clock, hint: Hint, idle: bool): Clock {
    var said := match hint
      case NoHint => c
      case SaysFailed => c.(status := Error)
      case SaysDone => c.(status := Success)
      case SaysPaused =>
        if c.paused then c.(status := Running)
        else c.(status := Running, paused := true, pausedSince := if c.pausedSince.Some? then c.pausedSince else Some(c.end));
    if !said.sawLifecycle && said.status == Running && idle then said.(status := Completed) else said
  }

  /** One event at a time; every event first moves the root's end. */
  function After(c: Clock, e: Event, at: int): Clock {
    match e
    case Other => c.(end := at)
    case RunStarted => c.(start := at, end := at, status := Running, sawLifecycle := true)
    case RunPaused =>
      c.(end := at, status := Running, paused := true, pausedSince := if c.pausedSince.Some? then c.pausedSince else Some(at))
    case RunResumed => Closed(c.(end := at, status := Running, paused := false, sawLifecycle := true), at)
    case RunEnded(failed) => Closed(c.(end := at, status := if failed then Error else Success, paused := false), at)
    case Snapshot(hint, idle, explicit) =>
      var h := Hinted(c, hint, idle);
      h.(end := if explicit && Terminal(h) then at else Max(h.end, at))
  }

  // ----- What a snapshot reports -----

  /** Waiting time seen by a snapshot taken at `at`. */
  function Waiting(c: Clock, at: int): nat {
    c.waitingMs + if c.paused && !Terminal(c) && c.pausedSince.Some? then Millis(c.pausedSince.value, at) else 0
  }

  function Wall(c: Clock): nat {
    Millis(c.start, c.end)
  }

  function Active(c: Clock, at: int): nat {
    Max(0, Wall(c) - Waiting(c, at))
  }

  // ----- Ordered pauses -----

  /** Recorded pauses follow one another inside [low, high]. */
  ghost predicate Ordered(intervals: seq<Interval>, low: int, high: int) {
    if intervals == [] then low <= high
    else
      var last := intervals[|intervals| - 1];
      last.from <= last.to <= high && Ordered(intervals[..|intervals| - 1], low, last.from)
  }

  function Total(intervals: seq<Interval>): nat {
    if intervals == [] then 0
    else Total(intervals[..|intervals| - 1]) + Millis(intervals[|intervals| - 1].from, intervals[|intervals| - 1].to)
  }

  /** Truncating every pause separately never adds up to more than the span they lie in. */
  lemma {:induction false} TotalFits(intervals: seq<Interval>, low: int, high: int)
    requires Ordered(intervals, low, high)
    ensures low <= high && 1000 * Total(intervals) <= high - low
  {
    if intervals != [] {
      TotalFits(intervals[..|intervals| - 1], low, intervals[|intervals| - 1].from);
    }
  }

  lemma {:induction false} OrderedLater(intervals: seq<Interval>, low: int, high: int, later: int)
    requires Ordered(intervals, low, high) && high <= later
    ensures Ordered(intervals, low, later)
  {
  }

  lemma {:induction false} OrderedIsDisjoint(intervals: seq<Interval>, low: int, high: int, i: nat, j: nat)
    requires Ordered(intervals, low, high) && i < j < |intervals|
    ensures low <= intervals[i].from <= intervals[i].to <= intervals[j].from <= intervals[j].to <= high
  {
    var init := intervals[..|intervals| - 1];
    var last := intervals[|intervals| - 1];
    if j < |init| {
      OrderedIsDisjoint(init, low, last.from, i, j);
    } else {
      WithinBounds(init, low, last.from, i);
    }
  }

  lemma {:induction false} WithinBounds(intervals: seq<Interval>, low: int, high: int, i: nat)
    requires Ordered(intervals, low, high) && i < |intervals|
    ensures low <= intervals[i].from <= intervals[i].to <= high
  {
    var init, last := intervals[..|intervals| - 1], intervals[|intervals| - 1];
    if i < |init| {
      WithinBounds(init, low, last.from, i);
    } else {
      TotalFits(init, low, last.from);
    }
  }

  // ----- Every run -----

  /** The clock at time `now`, when nothing restarted the run after its first pause. */
  ghost predicate Valid(c: Clock, now: int) {
    && c.start <= c.end <= now
    && c.paused == c.pausedSince.Some?
    && c.waitingMs == Total(c.intervals)
    && match c.pausedSince
       case None => Ordered(c.intervals, c.start, c.end)
       case Some(since) => since <= c.end && Ordered(c.intervals, c.start, since)
  }

  /** A restart is harmless as long as no pause was recorded or begun. */
  ghost predicate Allowed(c: Clock, e: Event) {
    e == RunStarted ==> c.intervals == [] && c.pausedSince == None
  }

  lemma {:induction false} EventKeepsValid(c: Clock, e: Event, now: int, at: int)
    requires Valid(c, now) && now <= at && Allowed(c, e)
    ensures Valid(After(c, e, at), at)
  {
    match e
    case Snapshot(hint, idle, explicit) => SnapshotKeepsValid(c, hint, idle, explicit, now, at);
    case RunResumed => ClosingKeepsValid(c.(end := at, status := Running, paused := false, sawLifecycle := true), c, now, at);
    case RunEnded(failed) =>
      ClosingKeepsValid(c.(end := at, status := if failed then Error else Success, paused := false), c, now, at);
    case _ => PausesAreOrdered(c, now, at);
  }

  lemma {:induction false} ClosingKeepsValid(changed: Clock, c: Clock, now: int, at: int)
    requires Valid(c, now) && now <= at
    requires changed == c.(end := at, status := changed.status, paused := false, sawLifecycle := changed.sawLifecycle)
    ensures Valid(Closed(changed, at), at)
  {
    PausesAreOrdered(c, now, at);
    assert Closed(changed, at).intervals == Closed(c, at).intervals;
  }

  lemma {:induction false} PausesAreOrdered(c: Clock, now: int, at: int)
    requires Valid(c, now) && now <= at
    ensures c.pausedSince.None? ==> Ordered(c.intervals, c.start, at)
    ensures Ordered(Closed(c, at).intervals, c.start, at) && Closed(c, at).waitingMs == Total(Closed(c, at).intervals)
  {
    match c.pausedSince
    case None => OrderedLater(c.intervals, c.start, c.end, at);
    case Some(since) => OrderedSnoc(c.intervals, c.start, since, at);
  }

  lemma {:induction false} SnapshotKeepsValid(c: Clock, hint: Hint, idle: bool, explicit: bool, now: int, at: int)
    requires Valid(c, now) && now <= at
    ensures Valid(After(c, Snapshot(hint, idle, explicit), at), at)
  {
    HintKeepsValid(c, hint, idle, now);
    LaterEnd(Hinted(c, hint, idle), now, at);
  }

  lemma {:induction false} HintKeepsValid(c: Clock, hint: Hint, idle: bool, now: int)
    requires Valid(c, now)
    ensures Valid(Hinted(c, hint, idle), now)
  {
    var h := Hinted(c, hint, idle);
    assert h.start == c.start && h.end == c.end && h.intervals == c.intervals && h.waitingMs == c.waitingMs;
    assert h.pausedSince == c.pausedSince || (c.pausedSince.None? && h.pausedSince == Some(c.end));
  }

  lemma {:induction false} LaterEnd(c: Clock, now: int, at: int)
    requires Valid(c, now) && now <= at
    ensures Valid(c.(end := at), at)
  {
    PausesAreOrdered(c, now, at);
  }

  lemma {:induction false} OrderedSnoc(intervals: seq<Interval>, low: int, from: int, to: int)
    requires Ordered(intervals, low, from) && from <= to
    ensures Ordered(intervals + [Interval(from, to)], low, to)
    ensures Total(intervals + [Interval(from, to)]) == Total(intervals) + Millis(from, to)
  {
    assert (intervals + [Interval(from, to)])[..|intervals|] == intervals;
  }

  /** A timed log and the clock after it. */
  datatype Timed = Timed(event: Event, at: int)

  function Played(c: Clock, log: seq<Timed>): Clock {
    if log == [] then c
    else After(Played(c, log[..|log| - 1]), log[|log| - 1].event, log[|log| - 1].at)
  }

  function LastTime(start: int, log: seq<Timed>): int {
    if log == [] then start else log[|log| - 1].at
  }

  /** Times never decrease and the run is not restarted after its first pause. */
  ghost predicate Orderly(start: int, log: seq<Timed>) {
    log == [] ||
    var init, last := log[..|log| - 1], log[|log| - 1];
    Orderly(start, init) && LastTime(start, init) <= last.at && Allowed(Played(NewClock(start), init), last.event)
  }

  lemma {:induction false} PlayedIsValid(start: int, log: seq<Timed>)
    requires Orderly(start, log)
    ensures Valid(Played(NewClock(start), log), LastTime(start, log))
  {
    if log != [] {
      var init := log[..|log| - 1];
      PlayedIsValid(start, init);
      EventKeepsValid(Played(NewClock(start), init), log[|log| - 1].event, LastTime(start, init), log[|log| - 1].at);
    }
  }

  lemma {:induction false} WaitingFits(c: Clock, now: int, hint: Hint, idle: bool, explicit: bool, at: int)
    requires Valid(c, now) && now <= at
    ensures var s := After(c, Snapshot(hint, idle, explicit), at); Waiting(s, at) <= Wall(s)
  {
    var s := After(c, Snapshot(hint, idle, explicit), at);
    EventKeepsValid(c, Snapshot(hint, idle, explicit), now, at);
    match s.pausedSince
    case None => TotalFits(s.intervals, s.start, s.end);
    case Some(since) => TotalFits(s.intervals, s.start, since);
  }

  /** At every snapshot of an orderly run, work and waiting add up to wall time exactly, and the
      recorded pauses are ordered and disjoint. */
  lemma {:induction false} WallTimeIsConserved(start: int, log: seq<Timed>, hint: Hint, idle: bool, explicit: bool, at: int)
    requires Orderly(start, log) && LastTime(start, log) <= at
    ensures var s := After(Played(NewClock(start), log), Snapshot(hint, idle, explicit), at);
      && Active(s, at) + Waiting(s, at) == Wall(s)
      && forall i, j :: 0 <= i < j < |s.intervals| ==>
           s.intervals[i].from <= s.intervals[i].to <= s.intervals[j].from <= s.intervals[j].to
  {
    var c := Played(NewClock(start), log);
    PlayedIsValid(start, log);
    WaitingFits(c, LastTime(start, log), hint, idle, explicit, at);
    var s := After(c, Snapshot(hint, idle, explicit), at);
    EventKeepsValid(c, Snapshot(hint, idle, explicit), LastTime(start, log), at);
    forall i, j | 0 <= i < j < |s.intervals|
      ensures s.intervals[i].from <= s.intervals[i].to <= s.intervals[j].from <= s.intervals[j].to
    {
      OrderedIsDisjoint(s.intervals, s.start, if s.pausedSince.Some? then s.pausedSince.value else s.end, i, j);
    }
  }

  /** A restart keeps the identity at every later snapshot if and only if no whole millisecond of
      waiting was recorded before it and no pause was already open. */
  lemma {:induction false} RestartIsHarmlessIff(c: Clock, now: int, at: int)
    requires Valid(c, now) && now <= at
    ensures var r := After(c, RunStarted, at);
      (forall t :: at <= t ==> ConservedAt(r, t)) <==>
      c.waitingMs == 0 && (c.pausedSince.Some? ==> c.pausedSince.value == at)
  {
    var r := After(c, RunStarted, at);
    if c.waitingMs > 0 {
      assert !ConservedAt(r, at);
    } else if c.pausedSince.Some? && c.pausedSince.value < at {
      var t := Max(at, c.pausedSince.value + 1000);
      assert Waiting(After(r, Snapshot(NoHint, false, false), t), t) == Millis(c.pausedSince.value, t);
      assert !ConservedAt(r, t);
    }
  }

  ghost predicate ConservedAt(c: Clock, t: int) {
    var s := After(c, Snapshot(NoHint, false, false), t);
    Active(s, t) + Waiting(s, t) == Wall(s)
  }
}
