/** How long a span really worked: its time outside every pause. The projector subtracts one
    truncated overlap per pause; the reference below counts single microseconds. */
module SpanTime {
  import opened Wrappers
  import opened PauseClock

  // ----- As the projector computes it -----

  function ClipMillis(start: int, end: int, from: int, to: int): nat {
    Millis(Max(start, from), Min(end, to))
  }

  function ClosedOverlap(intervals: seq<Interval>, start: int, end: int): nat {
    if intervals == [] then 0
    else
      var last := intervals[|intervals| - 1];
      ClosedOverlap(intervals[..|intervals| - 1], start, end) + ClipMillis(start, end, last.from, last.to)
  }

  /** Paused milliseconds inside a span; an open pause counts up to the span's end. */
  function PausedOverlap(c: Clock, start: int, end: int): nat {
    ClosedOverlap(c.intervals, start, end) +
    match c.pausedSince case None => 0 case Some(since) => ClipMillis(start, end, since, end)
  }

  function Duration(c: Clock, start: int, end: int): nat {
    Max(0, Millis(start, end) - PausedOverlap(c, start, end))
  }

  // ----- Counting microseconds -----

  predicate InClosedPause(intervals: seq<Interval>, t: int) {
    exists i :: 0 <= i < |intervals| && intervals[i].from <= t < intervals[i].to
  }

  predicate IsPaused(c: Clock, t: int) {
    InClosedPause(c.intervals, t) || (c.pausedSince.Some? && c.pausedSince.value <= t)
  }

  /** The microseconds of [start, end) in which the run was not paused. */
  function WorkedMicros(c: Clock, start: int, end: int): nat
    decreases end - start
  {
    if end <= start then 0 else WorkedMicros(c, start, end - 1) + if IsPaused(c, end - 1) then 0 else 1
  }

  // ----- Agreement -----

  function Whole(t: int): bool {
    t % 1000 == 0
  }

  predicate WholeClock(c: Clock) {
    && (forall i :: 0 <= i < |c.intervals| ==> Whole(c.intervals[i].from) && Whole(c.intervals[i].to))
    && (c.pausedSince.Some? ==> Whole(c.pausedSince.value))
  }

  lemma {:induction false} WholeMillis(from: int, to: int)
    requires Whole(from) && Whole(to)
    ensures 1000 * Millis(from, to) == Max(0, to - from)
  {
  }

  /** Recording one more pause at the end takes exactly its part of the span away. */
  lemma {:induction false} PauseTakesItsPart(c: Clock, last: Interval, low: int, start: int, end: int)
    requires c.pausedSince.None? && Ordered(c.intervals, low, last.from) && last.from <= last.to
    ensures WorkedMicros(c.(intervals := c.intervals + [last]), start, end)
         == WorkedMicros(c, start, end) - Max(0, Min(end, last.to) - Max(start, last.from))
    decreases end - start
  {
    if start < end {
      PauseTakesItsPart(c, last, low, start, end - 1);
      LastPauseIsNew(c.intervals, last, low, end - 1);
    }
  }

  lemma {:induction false} LastPauseIsNew(intervals: seq<Interval>, last: Interval, low: int, t: int)
    requires Ordered(intervals, low, last.from)
    ensures InClosedPause(intervals + [last], t) <==> InClosedPause(intervals, t) || last.from <= t < last.to
    ensures last.from <= t ==> !InClosedPause(intervals, t)
  {
    var all := intervals + [last];
    if InClosedPause(intervals, t) {
      var i :| 0 <= i < |intervals| && intervals[i].from <= t < intervals[i].to;
      assert all[i] == intervals[i];
      WithinBounds(intervals, low, last.from, i);
    }
    if last.from <= t < last.to {
      assert all[|intervals|] == last;
    }
  }

  lemma {:induction false} NoPauseTakesNothing(c: Clock, start: int, end: int)
    requires c.intervals == [] && c.pausedSince.None?
    ensures WorkedMicros(c, start, end) == Max(0, end - start)
    decreases end - start
  {
    if start < end {
      NoPauseTakesNothing(c, start, end - 1);
    }
  }

  lemma {:induction false} ClosedPausesAgree(c: Clock, low: int, high: int, start: int, end: int)
    requires c.pausedSince.None? && Ordered(c.intervals, low, high) && WholeClock(c) && Whole(start) && Whole(end)
    ensures WorkedMicros(c, start, end) == Max(0, end - start) - 1000 * ClosedOverlap(c.intervals, start, end)
    decreases |c.intervals|
  {
    if c.intervals == [] {
      NoPauseTakesNothing(c, start, end);
    } else {
      var init, last := c.intervals[..|c.intervals| - 1], c.intervals[|c.intervals| - 1];
      var earlier := c.(intervals := init);
      assert c.intervals == init + [last];
      assert c == earlier.(intervals := init + [last]);
      ClosedPausesAgree(earlier, low, last.from, start, end);
      PauseTakesItsPart(earlier, last, low, start, end);
      WholeMillis(Max(start, last.from), Min(end, last.to));
    }
  }

  /** An open pause takes everything from its start on. */
  lemma {:induction false} OpenPauseTakesTheRest(c: Clock, low: int, start: int, end: int)
    requires c.pausedSince.Some? && Ordered(c.intervals, low, c.pausedSince.value)
    ensures WorkedMicros(c, start, end)
         == WorkedMicros(c.(pausedSince := None), start, end) - Max(0, end - Max(start, c.pausedSince.value))
    decreases end - start
  {
    if start < end {
      OpenPauseTakesTheRest(c, low, start, end - 1);
      LastPauseIsNew(c.intervals, Interval(c.pausedSince.value, end), low, end - 1);
    }
  }

  /** On whole-millisecond timestamps a span's duration is exactly its unpaused time. */
  lemma {:induction false} DurationIsWorkedTime(c: Clock, now: int, start: int, end: int)
    requires Valid(c, now) && WholeClock(c) && Whole(start) && Whole(end)
    ensures 1000 * Duration(c, start, end) == WorkedMicros(c, start, end)
  {
    WholeMillis(start, end);
    match c.pausedSince
    case None =>
      ClosedPausesAgree(c, c.start, c.end, start, end);
    case Some(since) =>
      OpenPauseTakesTheRest(c, c.start, start, end);
      ClosedPausesAgree(c.(pausedSince := None), c.start, since, start, end);
      WholeMillis(Max(start, since), end);
  }

  /** The root's active time is its unpaused time as well, unless it is reported as finished while
      a pause is still open. */
  lemma {:induction false} ActiveIsWorkedTime(c: Clock, now: int, hint: Hint, idle: bool, explicit: bool, at: int)
    requires Valid(c, now) && now <= at && Whole(at)
    requires var s := After(c, Snapshot(hint, idle, explicit), at); WholeClock(s) && Whole(s.start)
    requires var s := After(c, Snapshot(hint, idle, explicit), at); s.pausedSince.Some? ==> !Terminal(s)
    ensures var s := After(c, Snapshot(hint, idle, explicit), at); 1000 * Active(s, at) == WorkedMicros(s, s.start, s.end)
  {
    var s := After(c, Snapshot(hint, idle, explicit), at);
    EventKeepsValid(c, Snapshot(hint, idle, explicit), now, at);
    DurationIsWorkedTime(s, at, s.start, s.end);
    RootOverlap(s.intervals, s.start, if s.pausedSince.Some? then s.pausedSince.value else s.end, s.end);
  }

  lemma {:induction false} RootOverlap(intervals: seq<Interval>, low: int, high: int, end: int)
    requires Ordered(intervals, low, high) && high <= end
    ensures ClosedOverlap(intervals, low, end) == Total(intervals)
  {
    if intervals != [] {
      TotalFits(intervals, low, high);
      TotalFits(intervals[..|intervals| - 1], low, intervals[|intervals| - 1].from);
      RootOverlap(intervals[..|intervals| - 1], low, intervals[|intervals| - 1].from, end);
    }
  }

  // ----- Standing still -----

  /** While the run stays paused, asking again later changes neither the clock's pauses nor the
      root's active time. */
  lemma {:induction false} PausedClockStandsStill(c: Clock, now: int, hint: Hint, idle: bool, explicit: bool, first: int, second: int)
    requires Valid(c, now) && now <= first <= second && hint in {NoHint, SaysPaused}
    requires Whole(first) && Whole(second)
    requires var s := After(c, Snapshot(hint, idle, explicit), first); s.paused && !Terminal(s) && WholeClock(s) && Whole(s.start)
    ensures var s := After(c, Snapshot(hint, idle, explicit), first);
            var t := After(s, Snapshot(hint, idle, explicit), second);
            && t.intervals == s.intervals && t.pausedSince == s.pausedSince && t.paused && !Terminal(t)
            && Active(t, second) == Active(s, first)
  {
    var s := After(c, Snapshot(hint, idle, explicit), first);
    EventKeepsValid(c, Snapshot(hint, idle, explicit), now, first);
    FrozenActive(s, first);
    SecondSnapshot(s, hint, idle, explicit, first, second);
    FrozenActive(After(s, Snapshot(hint, idle, explicit), second), second);
  }

  lemma {:induction false} SecondSnapshot(s: Clock, hint: Hint, idle: bool, explicit: bool, first: int, second: int)
    requires Valid(s, first) && s.end == first <= second && hint in {NoHint, SaysPaused}
    requires s.paused && !Terminal(s)
    ensures var t := After(s, Snapshot(hint, idle, explicit), second);
            && Valid(t, second) && t.end == second && t.paused && !Terminal(t)
            && t.start == s.start && t.waitingMs == s.waitingMs
            && t.intervals == s.intervals && t.pausedSince == s.pausedSince
  {
  }

  /** While paused, active time is the time from the start to the pause, less earlier pauses. */
  lemma {:induction false} FrozenActive(s: Clock, at: int)
    requires Valid(s, at) && s.end == at && s.paused && !Terminal(s)
    requires Whole(at) && Whole(s.start) && Whole(s.pausedSince.value)
    ensures 1000 * Active(s, at) == s.pausedSince.value - s.start - 1000 * s.waitingMs
  {
    var since := s.pausedSince.value;
    TotalFits(s.intervals, s.start, since);
    WholeMillis(s.start, at);
    WholeMillis(since, at);
  }
}
