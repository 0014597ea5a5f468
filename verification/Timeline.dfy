/** The execution timeline: a tree of spans built by events and rewritten by every snapshot.
    Spans are kept in an arena and named by their position; span 0 is the root, whose own times
    are the clock fields. */
module Timeline {
  import opened Wrappers
  import opened PauseClock
  import opened SpanTime
  import opened SpanTree
  import opened TokenUsage

  datatype Span = Span(parent: nat, children: seq<nat>, primitive: string, start: int, end: int, running: bool,
                       failed: bool, tokens: Tokens, durationMs: nat, relativeStartMs: nat)

  datatype Kind = Input | Output | Total | Reasoning

  function Count(t: Tokens, kind: Kind): nat {
    match kind case Input => t.input case Output => t.output case Total => t.total case Reasoning => t.reasoning
  }

  /** What a snapshot writes on the root. */
  datatype Report = Report(wallMs: nat, waitingMs: nat, activeMs: nat)

  function Parents(spans: seq<Span>): seq<nat> {
    seq(|spans|, i requires 0 <= i < |spans| => spans[i].parent)
  }

  /** The counts of one kind that each span adds; the root has none of its own. */
  function Own(spans: seq<Span>, kind: Kind): seq<nat> {
    seq(|spans|, i requires 0 <= i < |spans| => if i == 0 then 0 else Count(Reread(spans[i].tokens), kind))
  }

  ghost predicate WellFormed(spans: seq<Span>) {
    IsTree(Parents(spans)) && forall i :: 0 <= i < |spans| ==> spans[i].children == Kids(Parents(spans), i, |spans|)
  }

  /** Two arenas with the same tree, starting times and tokens. */
  predicate SameShape(a: seq<Span>, b: seq<Span>) {
    |a| == |b| && forall i :: 0 <= i < |a| ==>
      a[i].parent == b[i].parent && a[i].children == b[i].children && a[i].primitive == b[i].primitive
      && a[i].start == b[i].start && a[i].tokens == b[i].tokens
  }

  lemma {:induction false} SameShapeKeeps(a: seq<Span>, b: seq<Span>)
    requires SameShape(a, b)
    ensures Parents(a) == Parents(b) && (forall kind :: Own(a, kind) == Own(b, kind)) && (WellFormed(a) ==> WellFormed(b))
  {
    assert Parents(a) == Parents(b);
    forall kind ensures Own(a, kind) == Own(b, kind) {
      assert Own(a, kind) == Own(b, kind);
    }
  }

  // ----- Growing the tree -----

  function Grown(spans: seq<Span>, parent: nat, s: Span): seq<Span>
    requires parent < |spans|
  {
    spans[parent := spans[parent].(children := spans[parent].children + [|spans|])]
    + [s.(parent := parent, children := [])]
  }

  lemma {:induction false} KidsOfPrefix(parents: seq<nat>, longer: seq<nat>, i: nat, n: nat)
    requires IsTree(parents) && IsTree(longer) && parents <= longer && n <= |parents|
    ensures Kids(parents, i, n) == Kids(longer, i, n)
  {
    if n > 1 {
      KidsOfPrefix(parents, longer, i, n - 1);
    }
  }

  lemma {:induction false} GrownIsWellFormed(spans: seq<Span>, parent: nat, s: Span)
    requires WellFormed(spans) && parent < |spans|
    ensures WellFormed(Grown(spans, parent, s))
  {
    var n, after := |spans|, Grown(spans, parent, s);
    var longer := Parents(after);
    assert Parents(spans) <= longer && longer[n] == parent;
    NoKidsYet(longer, n, n + 1);
    forall i | 0 <= i < n ensures after[i].children == Kids(longer, i, n + 1) {
      GrownKids(Parents(spans), longer, i);
    }
  }

  lemma {:induction false} GrownKids(parents: seq<nat>, longer: seq<nat>, i: nat)
    requires IsTree(parents) && IsTree(longer) && parents <= longer && |longer| == |parents| + 1
    ensures Kids(longer, i, |longer|) ==
      if longer[|parents|] == i then Kids(parents, i, |parents|) + [|parents|] else Kids(parents, i, |parents|)
  {
    KidsOfPrefix(parents, longer, i, |parents|);
  }

  // ----- Finishing -----

  /** Children come after their parent. */
  predicate Forward(spans: seq<Span>) {
    forall i :: 0 <= i < |spans| ==> ForwardFrom(spans[i].children, i, |spans|)
  }

  predicate ForwardFrom(kids: seq<nat>, i: nat, n: nat) {
    forall k :: 0 <= k < |kids| ==> i < kids[k] < n
  }

  lemma {:induction false} WellFormedIsForward(spans: seq<Span>)
    requires WellFormed(spans)
    ensures Forward(spans)
  {
  }

  function ClosedSpan(s: Span, at: int, failed: bool): Span {
    s.(running := false, end := at, failed := failed, durationMs := Millis(s.start, at))
  }

  /** A span and, recursively, its children that still run, all closed at one time. */
  function Finished(spans: seq<Span>, i: nat, at: int, failed: bool): (r: seq<Span>)
    requires Forward(spans) && i < |spans|
    ensures SameShape(spans, r)
    decreases |spans| - i, 0
  {
    FinishedAll(spans[i := ClosedSpan(spans[i], at, failed)], spans[i].children, i, at, failed)
  }

  function FinishedAll(spans: seq<Span>, kids: seq<nat>, i: nat, at: int, failed: bool): (r: seq<Span>)
    requires Forward(spans) && i < |spans| && ForwardFrom(kids, i, |spans|)
    ensures SameShape(spans, r)
    decreases |spans| - i - 1, |kids| + 1
  {
    if kids == [] then spans
    else
      var r, k := FinishedAll(spans, kids[..|kids| - 1], i, at, failed), kids[|kids| - 1];
      if r[k].running then Finished(r, k, at, failed) else r
  }

  lemma {:induction false} FinishOneMoreKid(spans: seq<Span>, kids: seq<nat>, n: nat, i: nat, at: int, failed: bool)
    requires Forward(spans) && i < |spans| && ForwardFrom(kids, i, |spans|) && n < |kids|
    ensures var r := FinishedAll(spans, kids[..n], i, at, failed);
      FinishedAll(spans, kids[..n + 1], i, at, failed) == if r[kids[n]].running then Finished(r, kids[n], at, failed) else r
  {
    assert kids[..n + 1][..n] == kids[..n];
  }

  /** Finishing closes the span and all its children, and touches neither an earlier span nor
      one that had already ended. */
  lemma {:induction false} FinishedCloses(spans: seq<Span>, i: nat, at: int, failed: bool, j: nat)
    requires Forward(spans) && i < |spans| && j < |spans|
    ensures var r := Finished(spans, i, at, failed);
      && (j == i ==> r[j] == ClosedSpan(spans[j], at, failed))
      && (j != i && (j < i || !spans[j].running) ==> r[j] == spans[j])
      && (j in spans[i].children ==> !r[j].running)
      && (!spans[j].running ==> !r[j].running)
    decreases |spans| - i, 0
  {
    var first := spans[i := ClosedSpan(spans[i], at, failed)];
    FinishedAllCloses(first, spans[i].children, i, at, failed, j);
  }

  lemma {:induction false} FinishedAllCloses(spans: seq<Span>, kids: seq<nat>, i: nat, at: int, failed: bool, j: nat)
    requires Forward(spans) && i < |spans| && ForwardFrom(kids, i, |spans|) && j < |spans|
    ensures var r := FinishedAll(spans, kids, i, at, failed);
      && (j <= i || !spans[j].running ==> r[j] == spans[j])
      && (j in kids ==> !r[j].running)
      && (!spans[j].running ==> !r[j].running)
    decreases |spans| - i - 1, |kids| + 1
  {
    if kids != [] {
      var init, k := kids[..|kids| - 1], kids[|kids| - 1];
      var r := FinishedAll(spans, init, i, at, failed);
      FinishedAllCloses(spans, init, i, at, failed, j);
      assert kids == init + [k];
      if r[k].running {
        FinishedCloses(r, k, at, failed, j);
      }
    }
  }

  /** A span that has just begun. */
  function Begun(primitive: string, at: int): Span {
    Span(0, [], primitive, at, at, true, false, ZERO, 0, 0)
  }

  /** A span below a parent that is over as soon as it is there. */
  ghost predicate AddedAndFinished(before: seq<Span>, after: seq<Span>, parent: nat, s: Span, at: int, failed: bool)
    requires parent < |before|
  {
    var grown := Grown(before, parent, s);
    Forward(grown) && after == Finished(grown, |before|, at, failed)
  }

  function Took(duration: Option<nat>): nat {
    if duration.Some? then duration.value else 0
  }

  /** A tool reports how long it took; the next snapshot computes that again. */
  function Reported(spans: seq<Span>, i: nat, duration: Option<nat>): seq<Span>
    requires i < |spans|
  {
    if duration.Some? then spans[i := spans[i].(durationMs := duration.value)] else spans
  }

  // ----- What a snapshot does to one span -----

  /** A running span is cut at the snapshot's time, or at the pause while there is one. */
  function Refreshed(c: Clock, s: Span, cut: int): Span {
    var end := if s.running then cut else s.end;
    s.(end := end, durationMs := Duration(c, s.start, end), relativeStartMs := Millis(c.start, s.start))
  }

  predicate Frozen(c: Clock) {
    c.paused && !Terminal(c) && c.pausedSince.Some?
  }

  function Cut(c: Clock, at: int): int {
    if Frozen(c) then c.pausedSince.value else at
  }

  function Named(node: string): Span -> bool {
    (s: Span) => s.primitive == node
  }

  function IsRunning(): Span -> bool {
    (s: Span) => s.running
  }

  /** An empty sum is not stored. */
  function StoredRootTokens(before: Tokens, totals: Tokens): Tokens {
    if totals != ZERO then totals else before
  }

  class TimelineProjector {
    var spans: seq<Span>
    var start: int
    var end: int
    var status: RootStatus
    var paused: bool
    var pausedSince: Option<int>
    var waitingMs: nat
    var intervals: seq<Interval>
    var sawLifecycle: bool
    var rootTokens: Tokens
    var activeNative: map<string, nat>
    var activeTasks: map<string, nat>

    function ClockOf(): Clock
      reads this
    {
      Clock(start, end, status, paused, pausedSince, waitingMs, intervals, sawLifecycle)
    }

    ghost predicate Valid()
      reads this
    {
      && WellFormed(spans)
      && (forall key :: key in activeNative ==> 0 < activeNative[key] < |spans|)
      && (forall key :: key in activeTasks ==> 0 < activeTasks[key] < |spans|)
    }

    predicate Idle()
      reads this
    {
      activeNative == map[] && activeTasks == map[]
    }

    constructor (at: int)
      ensures Valid() && ClockOf() == NewClock(at) && |spans| == 1 && rootTokens == ZERO
    {
      spans := [Span(0, [], "lingxigraph.runtime", at, at, true, false, ZERO, 0, 0)];
      start, end, status, paused, pausedSince, waitingMs, intervals := at, at, Running, false, None, 0, [];
      sawLifecycle, rootTokens, activeNative, activeTasks := false, ZERO, map[], map[];
      new;
      NoKidsYet(Parents(spans), 0, 1);
    }

    // ----- Spans -----

    method Touch(at: int)
      modifies this`end
      ensures ClockOf() == After(old(ClockOf()), Other, at)
    {
      end := at;
    }

    method NewSpan(primitive: string, parent: nat, at: int) returns (i: nat)
      requires Valid() && parent < |spans|
      modifies this`spans, this`end
      ensures Valid() && i == |old(spans)| && ClockOf() == After(old(ClockOf()), Other, at)
      ensures spans == Grown(old(spans), parent, Begun(primitive, at))
    {
      Touch(at);
      i := |spans|;
      var s := Begun(primitive, at);
      GrownIsWellFormed(spans, parent, s);
      spans := Grown(spans, parent, s);
    }

    /** Finish a span and, recursively, its children that still run. */
    method Finish(i: nat, at: int, failed: bool)
      requires Forward(spans) && i < |spans|
      modifies this`spans, this`end
      ensures spans == Finished(old(spans), i, at, failed) && end == at
      decreases |spans| - i
    {
      Touch(at);
      var kids := spans[i].children;
      spans := spans[i := ClosedSpan(spans[i], at, failed)];
      ghost var first := spans;
      for n := 0 to |kids|
        invariant spans == FinishedAll(first, kids[..n], i, at, failed) && end == at
      {
        FinishOneMoreKid(first, kids, n, i, at, failed);
        if spans[kids[n]].running {
          Finish(kids[n], at, failed);
        }
      }
      assert kids[..|kids|] == kids;
    }

    method RecordUsage(i: nat, usage: Usage)
      requires Valid() && 0 < i < |spans|
      modifies this`spans
      ensures Valid() && |spans| == |old(spans)|
      ensures forall j :: 0 <= j < |spans| ==>
        spans[j] == if j == i && Normalised(usage) != ZERO then old(spans[j]).(tokens := Normalised(usage)) else old(spans[j])
    {
      var tokens := Normalised(usage);
      if tokens != ZERO {
        ghost var before := spans;
        spans := spans[i := spans[i].(tokens := tokens)];
        assert Parents(before) == Parents(spans);
      }
    }

    // ----- Run events -----

    method ClosePause(at: int)
      modifies this`waitingMs, this`intervals, this`pausedSince
      ensures ClockOf() == PauseClock.Closed(old(ClockOf()), at)
    {
      if pausedSince.Some? {
        waitingMs := waitingMs + Millis(pausedSince.value, at);
        intervals := intervals + [Interval(pausedSince.value, at)];
        pausedSince := None;
      }
    }

    method StartRun(at: int)
      modifies this`start, this`end, this`status, this`sawLifecycle
      ensures ClockOf() == After(old(ClockOf()), RunStarted, at)
    {
      Touch(at);
      sawLifecycle, status, start := true, Running, at;
    }

    method PauseRun(at: int)
      modifies this`end, this`status, this`paused, this`pausedSince
      ensures ClockOf() == After(old(ClockOf()), RunPaused, at)
    {
      Touch(at);
      status, paused := Running, true;
      if pausedSince.None? {
        pausedSince := Some(at);
      }
    }

    method ResumeRun(at: int)
      modifies this`end, this`status, this`paused, this`sawLifecycle, this`waitingMs, this`intervals, this`pausedSince
      ensures ClockOf() == After(old(ClockOf()), RunResumed, at)
    {
      Touch(at);
      sawLifecycle, status, paused := true, Running, false;
      ClosePause(at);
    }

    /** Close the native spans that still run, in any order. */
    method FinishNative(at: int, failed: bool)
      requires Valid() && end == at
      modifies this`spans, this`end
      ensures Valid() && SameShape(old(spans), spans) && ClockOf() == old(ClockOf())
      ensures forall key :: key in activeNative ==> !spans[activeNative[key]].running
    {
      var keys := activeNative.Keys;
      while keys != {}
        invariant Valid() && SameShape(old(spans), spans) && ClockOf() == old(ClockOf())
        invariant forall key :: key in activeNative && key !in keys ==> !spans[activeNative[key]].running
        decreases keys
      {
        var key :| key in keys;
        FinishOne(activeNative[key], at, failed);
        keys := keys - {key};
      }
    }

    method FinishOne(i: nat, at: int, failed: bool)
      requires Valid() && 0 < i < |spans| && end == at
      modifies this`spans, this`end
      ensures Valid() && SameShape(old(spans), spans) && ClockOf() == old(ClockOf())
      ensures !spans[i].running
      ensures forall j :: 0 <= j < |spans| && !old(spans[j]).running ==> !spans[j].running
    {
      if spans[i].running {
        WellFormedIsForward(spans);
        ghost var before := spans;
        Finish(i, at, failed);
        SameShapeKeeps(before, spans);
        forall j | 0 <= j < |spans| && (j == i || !before[j].running) ensures !spans[j].running {
          FinishedCloses(before, i, at, failed, j);
        }
      }
    }

    /** A terminal run event closes the pause and every native span that still runs. */
    method EndRun(failed: bool, at: int)
      requires Valid()
      modifies this
      ensures Valid() && SameShape(old(spans), spans) && rootTokens == old(rootTokens)
      ensures activeNative == old(activeNative) && activeTasks == old(activeTasks)
      ensures ClockOf() == After(old(ClockOf()), RunEnded(failed), at)
      ensures forall key :: key in activeNative ==> !spans[activeNative[key]].running
    {
      Touch(at);
      status, paused := if failed then Error else Success, false;
      ClosePause(at);
      FinishNative(at, failed);
    }

    // ----- Node and model events -----

    /** The latest of the first `n` keys whose active span passes the test; the root if none does. */
    function Latest(keys: seq<string>, n: nat, keep: Span -> bool): (i: nat)
      requires Valid() && n <= |keys|
      reads this
      ensures i < |spans| && (i > 0 ==> keep(spans[i]))
    {
      if n == 0 then 0
      else if keys[n - 1] in activeNative && keep(spans[activeNative[keys[n - 1]]]) then activeNative[keys[n - 1]]
      else Latest(keys, n - 1, keep)
    }

    /** The latest span of the named node, running or not; otherwise the latest running one;
        otherwise the root. */
    method CurrentNative(keys: seq<string>, node: string) returns (i: nat)
      requires Valid()
      ensures i < |spans|
      ensures var named := if node == "" then 0 else Latest(keys, |keys|, Named(node));
        i == if named > 0 then named else Latest(keys, |keys|, IsRunning())
    {
      if node != "" {
        for n := |keys| downto 0
          invariant Latest(keys, |keys|, Named(node)) == Latest(keys, n, Named(node))
        {
          if keys[n] in activeNative && spans[activeNative[keys[n]]].primitive == node {
            return activeNative[keys[n]];
          }
        }
      }
      for n := |keys| downto 0
        invariant Latest(keys, |keys|, IsRunning()) == Latest(keys, n, IsRunning())
      {
        if keys[n] in activeNative && spans[activeNative[keys[n]]].running {
          return activeNative[keys[n]];
        }
      }
      return 0;
    }

    method NodeStarted(key: string, primitive: string, at: int)
      requires Valid()
      modifies this`spans, this`end, this`activeNative
      ensures Valid() && ClockOf() == After(old(ClockOf()), Other, at)
      ensures key in activeNative && spans[activeNative[key]].running
      ensures if key in old(activeNative) && old(spans[activeNative[key]]).running then
                spans == old(spans) && activeNative == old(activeNative)
              else spans == Grown(old(spans), 0, Begun(primitive, at)) && activeNative == old(activeNative)[key := |old(spans)|]
    {
      Touch(at);
      if key in activeNative && spans[activeNative[key]].running {
        return;
      }
      var i := NewSpan(primitive, 0, at);
      activeNative := activeNative[key := i];
    }

    /** Completed, cached, failed and retrying nodes all close their span; one that never started
        gets an instantaneous span. */
    method NodeEnded(key: string, primitive: string, failed: bool, at: int)
      requires Valid()
      modifies this`spans, this`end, this`activeNative
      ensures Valid() && ClockOf() == After(old(ClockOf()), Other, at)
      ensures activeNative == old(activeNative) - {key}
      ensures key in old(activeNative) ==>
        spans == Finished(old(spans), old(activeNative[key]), at, failed)
      ensures key !in old(activeNative) ==> AddedAndFinished(old(spans), spans, 0, Begun(primitive, at), at, failed)
    {
      Touch(at);
      var i;
      if key in activeNative {
        i := activeNative[key];
      } else {
        i := NewSpan(primitive, 0, at);
      }
      WellFormedIsForward(spans);
      ghost var before := spans;
      Finish(i, at, failed);
      SameShapeKeeps(before, spans);
      activeNative := activeNative - {key};
    }

    /** Close a span; the duration that its tool reported, if any, is stored as it is. */
    method CloseTool(i: nat, duration: Option<nat>, failed: bool, at: int)
      requires Valid() && i < |spans|
      modifies this`spans, this`end
      ensures Valid() && ClockOf() == After(old(ClockOf()), Other, at)
      ensures Forward(old(spans)) && spans == Reported(Finished(old(spans), i, at, failed), i, duration)
      ensures spans[i].end == at && !spans[i].running && spans[i].start == old(spans[i].start)
      ensures duration.Some? ==> spans[i].durationMs == duration.value
    {
      WellFormedIsForward(spans);
      ghost var before := spans;
      Finish(i, at, failed);
      SameShapeKeeps(before, spans);
      FinishedCloses(before, i, at, failed, i);
      if duration.Some? {
        ghost var closed := spans;
        spans := spans[i := spans[i].(durationMs := duration.value)];
        SameShapeKeeps(closed, spans);
      }
    }

    /** A tool result closes the span of its call; without one it gets a span that started as long ago
        as the call took. */
    method ToolResult(call: Option<nat>, parent: nat, duration: Option<nat>, failed: bool, at: int) returns (i: nat)
      requires Valid() && parent < |spans| && (call.Some? ==> 0 < call.value < |spans|)
      modifies this`spans, this`end
      ensures Valid() && ClockOf() == After(old(ClockOf()), Other, at)
      ensures i == (if call.Some? then call.value else |old(spans)|) < |spans|
      ensures spans[i].end == at && !spans[i].running && (duration.Some? ==> spans[i].durationMs == duration.value)
      ensures var base := if call.Some? then old(spans) else Grown(old(spans), parent, Begun("tool", at - 1000 * Took(duration)));
        Forward(base) && spans == Reported(Finished(base, i, at, failed), i, duration)
    {
      Touch(at);
      if call.Some? {
        i := call.value;
      } else {
        i := NewSpan("tool", parent, at - 1000 * Took(duration));
      }
      CloseTool(i, duration, failed, at);
    }

    // ----- Snapshots -----

    method TakeHint(hint: Hint)
      modifies this`status, this`paused, this`pausedSince
      ensures ClockOf() == Hinted(old(ClockOf()), hint, Idle())
    {
      match hint {
        case NoHint =>
        case SaysFailed => status := Error;
        case SaysDone => status := Success;
        case SaysPaused =>
          status := Running;
          if !paused {
            if pausedSince.None? {
              pausedSince := Some(end);
            }
            paused := true;
          }
      }
      if !sawLifecycle && status == Running && Idle() {
        status := Completed;
      }
    }

    /** Walk the tree below `i`: bring each span's times up to date and add up its tokens. The
        clock `c` is read and not written. */
    method Update(c: Clock, i: nat, cut: int) returns (totals: Tokens)
      requires Forward(spans) && i < |spans|
      modifies this`spans
      ensures Walk(spans, totals) == Walked(c, old(spans), i, cut)
      decreases |spans| - i
    {
      var kids := spans[i].children;
      totals := OwnTokens(spans, i);
      spans := spans[i := Refreshed(c, spans[i], cut)];
      ghost var first := Walk(spans, totals);
      for n := 0 to |kids|
        invariant Walk(spans, totals) == WalkedAll(c, first, kids[..n], i, cut)
      {
        OneMoreKid(c, first, kids, n, i, cut);
        var below := Update(c, kids[n], cut);
        totals := Plus(totals, below);
      }
      assert kids[..|kids|] == kids;
    }

    /** The clock's part of a snapshot. */
    method Freeze(hint: Hint, explicit: bool, at: int)
      modifies this`status, this`paused, this`pausedSince, this`end
      ensures ClockOf() == After(old(ClockOf()), Event.Snapshot(hint, old(Idle()), explicit), at)
    {
      TakeHint(hint);
      end := if explicit && Terminal(ClockOf()) then at else Max(end, at);
    }

    /** The tree's part of a snapshot. */
    method Refresh(c: Clock, at: int)
      requires Valid()
      modifies this`spans, this`rootTokens
      ensures Valid() && SameShape(old(spans), spans)
      ensures var w := Walked(c, old(spans), 0, Cut(c, at));
        spans == w.spans && rootTokens == StoredRootTokens(old(rootTokens), w.totals)
    {
      ghost var before := spans;
      WellFormedIsForward(spans);
      var totals := Update(c, 0, Cut(c, at));
      SameShapeKeeps(before, spans);
      rootTokens := StoredRootTokens(rootTokens, totals);
    }

    /** Freeze the tree at one moment. `explicit` says that the caller named the moment. */
    method Snapshot(hint: Hint, explicit: bool, at: int) returns (report: Report)
      requires Valid()
      modifies this
      ensures Valid() && SameShape(old(spans), spans)
      ensures activeNative == old(activeNative) && activeTasks == old(activeTasks)
      ensures ClockOf() == After(old(ClockOf()), Event.Snapshot(hint, old(Idle()), explicit), at)
      ensures var w := Walked(ClockOf(), old(spans), 0, Cut(ClockOf(), at));
        spans == w.spans && rootTokens == StoredRootTokens(old(rootTokens), w.totals)
      ensures report == Report(Wall(ClockOf()), Waiting(ClockOf(), at), Active(ClockOf(), at))
    {
      Freeze(hint, explicit, at);
      var c := ClockOf();
      Refresh(c, at);
      var wall := Millis(start, end);
      var waiting := waitingMs + if Frozen(c) then Millis(pausedSince.value, at) else 0;
      report := Report(wall, waiting, Max(0, wall - waiting));
    }
  }

  // ----- The walk of a snapshot -----

  /** The arena and the token totals collected so far. */
  datatype Walk = Walk(spans: seq<Span>, totals: Tokens)

  function OwnTokens(spans: seq<Span>, i: nat): Tokens
    requires i < |spans|
  {
    if i == 0 then ZERO else Reread(spans[i].tokens)
  }

  function Walked(c: Clock, spans: seq<Span>, i: nat, cut: int): (w: Walk)
    requires Forward(spans) && i < |spans|
    ensures SameShape(spans, w.spans)
    decreases |spans| - i, 0
  {
    WalkedAll(c, Walk(spans[i := Refreshed(c, spans[i], cut)], OwnTokens(spans, i)), spans[i].children, i, cut)
  }

  function WalkedAll(c: Clock, first: Walk, kids: seq<nat>, i: nat, cut: int): (w: Walk)
    requires Forward(first.spans) && i < |first.spans| && ForwardFrom(kids, i, |first.spans|)
    ensures SameShape(first.spans, w.spans)
    decreases |first.spans| - i - 1, |kids| + 1
  {
    if kids == [] then first
    else
      var w := WalkedAll(c, first, kids[..|kids| - 1], i, cut);
      var below := Walked(c, w.spans, kids[|kids| - 1], cut);
      Walk(below.spans, Plus(w.totals, below.totals))
  }

  lemma {:induction false} OneMoreKid(c: Clock, first: Walk, kids: seq<nat>, n: nat, i: nat, cut: int)
    requires Forward(first.spans) && i < |first.spans| && ForwardFrom(kids, i, |first.spans|) && n < |kids|
    ensures var w := WalkedAll(c, first, kids[..n], i, cut);
      var below := Walked(c, w.spans, kids[n], cut);
      WalkedAll(c, first, kids[..n + 1], i, cut) == Walk(below.spans, Plus(w.totals, below.totals))
  {
    assert kids[..n + 1][..n] == kids[..n];
  }

  lemma {:induction false} RefreshedTwice(c: Clock, s: Span, cut: int)
    ensures Refreshed(c, Refreshed(c, s, cut), cut) == Refreshed(c, s, cut)
  {
  }

  /** The walk refreshes exactly the spans below its root. */
  lemma {:induction false} WalkedTimes(c: Clock, spans: seq<Span>, i: nat, cut: int, j: nat)
    requires WellFormed(spans) && Forward(spans) && i < |spans| && j < |spans|
    ensures Walked(c, spans, i, cut).spans[j]
         == if Under(Parents(spans), i, j) then Refreshed(c, spans[j], cut) else spans[j]
    decreases |spans| - i, 0
  {
    var first := Walk(spans[i := Refreshed(c, spans[i], cut)], OwnTokens(spans, i));
    SameShapeKeeps(spans, first.spans);
    WalkedAllTimes(c, spans, first, spans[i].children, i, cut, j);
    VisitedAll(Parents(spans), i, j);
  }

  lemma {:induction false} WalkedAllTimes(c: Clock, spans: seq<Span>, first: Walk, kids: seq<nat>, i: nat, cut: int, j: nat)
    requires WellFormed(spans) && SameShape(spans, first.spans) && Forward(first.spans)
    requires i < |spans| && ForwardFrom(kids, i, |spans|) && j < |spans|
    requires first.spans == spans[i := Refreshed(c, spans[i], cut)]
    ensures WalkedAll(c, first, kids, i, cut).spans[j]
         == if Visited(Parents(spans), i, kids, j) then Refreshed(c, spans[j], cut) else spans[j]
    decreases |spans| - i - 1, |kids| + 1
  {
    if kids != [] {
      var init, k := kids[..|kids| - 1], kids[|kids| - 1];
      assert kids == init + [k];
      WalkedAllTimes(c, spans, first, init, i, cut, j);
      var w := ShapeOfWalk(c, spans, first, init, i, cut);
      WalkedTimes(c, w, k, cut, j);
      OneMoreVisit(Parents(spans), i, init, k, j, c, spans[j], w[j], Walked(c, w, k, cut).spans[j], cut);
    }
  }

  lemma {:induction false} ShapeOfWalk(c: Clock, spans: seq<Span>, first: Walk, kids: seq<nat>, i: nat, cut: int) returns (w: seq<Span>)
    requires WellFormed(spans) && SameShape(spans, first.spans) && Forward(first.spans)
    requires i < |spans| && ForwardFrom(kids, i, |spans|)
    ensures w == WalkedAll(c, first, kids, i, cut).spans
    ensures |w| == |spans| && WellFormed(w) && Forward(w) && Parents(w) == Parents(spans)
  {
    w := WalkedAll(c, first, kids, i, cut).spans;
    SameShapeTransitive(spans, first.spans, w);
  }

  /** Refreshing a span that may already have been refreshed. */
  lemma {:induction false} OneMoreVisit(parents: seq<nat>, i: nat, kids: seq<nat>, last: nat, j: nat,
                     c: Clock, s: Span, before: Span, after: Span, cut: int)
    requires IsTree(parents) && j < |parents|
    requires before == if Visited(parents, i, kids, j) then Refreshed(c, s, cut) else s
    requires after == if Under(parents, last, j) then Refreshed(c, before, cut) else before
    ensures after == if Visited(parents, i, kids + [last], j) then Refreshed(c, s, cut) else s
  {
    RefreshedTwice(c, s, cut);
    VisitedSnoc(parents, i, kids, last, j);
  }

  /** The walk adds up exactly what SpanTree adds up. */
  lemma {:induction false} WalkedTokens(c: Clock, spans: seq<Span>, i: nat, cut: int, kind: Kind)
    requires WellFormed(spans) && Forward(spans) && i < |spans|
    ensures Count(Walked(c, spans, i, cut).totals, kind) == Below(Parents(spans), Own(spans, kind), i)
    decreases |spans| - i, 0
  {
    var first := Walk(spans[i := Refreshed(c, spans[i], cut)], OwnTokens(spans, i));
    SameShapeKeeps(spans, first.spans);
    WalkedAllTokens(c, spans, first, spans[i].children, i, cut, kind);
  }

  lemma {:induction false} WalkedAllTokens(c: Clock, spans: seq<Span>, first: Walk, kids: seq<nat>, i: nat, cut: int, kind: Kind)
    requires WellFormed(spans) && SameShape(spans, first.spans) && Forward(first.spans)
    requires i < |spans| && ForwardFrom(kids, i, |spans|)
    ensures Count(WalkedAll(c, first, kids, i, cut).totals, kind)
         == Count(first.totals, kind) + BelowAll(Parents(spans), Own(spans, kind), i, kids)
    decreases |spans| - i - 1, |kids| + 1
  {
    if kids != [] {
      var init, k := kids[..|kids| - 1], kids[|kids| - 1];
      var w := WalkedAll(c, first, init, i, cut);
      WalkedAllTokens(c, spans, first, init, i, cut, kind);
      SameShapeTransitive(spans, first.spans, w.spans);
      WalkedTokens(c, w.spans, k, cut, kind);
    }
  }

  lemma {:induction false} SameShapeTransitive(a: seq<Span>, b: seq<Span>, d: seq<Span>)
    requires SameShape(a, b) && SameShape(b, d) && WellFormed(a)
    ensures SameShape(a, d) && WellFormed(d) && Forward(d) && Parents(a) == Parents(d)
    ensures forall kind :: Own(a, kind) == Own(d, kind)
  {
    SameShapeKeeps(a, d);
  }

  /** Span `j` is `i` itself or lies below one of the given children of `i`. */
  predicate Visited(parents: seq<nat>, i: nat, kids: seq<nat>, j: nat)
    requires IsTree(parents) && j < |parents|
  {
    j == i || exists k :: k in kids && Under(parents, k, j)
  }

  lemma {:induction false} VisitedSnoc(parents: seq<nat>, i: nat, kids: seq<nat>, last: nat, j: nat)
    requires IsTree(parents) && j < |parents|
    ensures Visited(parents, i, kids + [last], j) <==> Visited(parents, i, kids, j) || Under(parents, last, j)
  {
    if Under(parents, last, j) {
      assert last in kids + [last];
    }
    if k :| k in kids && Under(parents, k, j) {
      assert k in kids + [last];
    }
  }

  lemma {:induction false} VisitedAll(parents: seq<nat>, i: nat, j: nat)
    requires IsTree(parents) && j < |parents|
    ensures Visited(parents, i, Kids(parents, i, |parents|), j) <==> Under(parents, i, j)
  {
    if i < j {
      UnderViaKid(parents, i, j);
    } else if k :| k in Kids(parents, i, |parents|) && Under(parents, k, j) {
      UnderIsLater(parents, k, j);
    }
  }

  // ----- What a snapshot guarantees -----

  /** On whole-millisecond timestamps every span below the root reports exactly the time it ran
      outside pauses. */
  lemma {:induction false} DurationsAreWorkedTime(c: Clock, now: int, spans: seq<Span>, at: int, j: nat)
    requires Valid(c, now) && WholeClock(c) && Whole(at) && WellFormed(spans) && Forward(spans)
    requires 0 < j < |spans| && Whole(spans[j].start) && Whole(spans[j].end)
    ensures var s := Walked(c, spans, 0, Cut(c, at)).spans[j];
      && s.end == (if spans[j].running then Cut(c, at) else spans[j].end)
      && 1000 * s.durationMs == WorkedMicros(c, s.start, s.end)
  {
    EverySpanIsUnderTheRoot(Parents(spans), j);
    WalkedTimes(c, spans, 0, Cut(c, at), j);
    DurationIsWorkedTime(c, now, spans[j].start, if spans[j].running then Cut(c, at) else spans[j].end);
  }

  /** A later snapshot during the same pause changes no span at all. */
  lemma {:induction false} SpansStandStill(c: Clock, later: Clock, spans: seq<Span>, first: int, second: int, j: nat)
    requires WellFormed(spans) && Forward(spans) && j < |spans|
    requires c.paused && !Terminal(c) && c.pausedSince.Some?
    requires later.paused && !Terminal(later) && later.start == c.start
    requires later.pausedSince == c.pausedSince && later.intervals == c.intervals
    ensures var w := Walked(c, spans, 0, Cut(c, first));
      Forward(w.spans) && Walked(later, w.spans, 0, Cut(later, second)).spans[j] == w.spans[j]
  {
    var since := c.pausedSince.value;
    var w := Walked(c, spans, 0, since);
    SameShapeKeeps(spans, w.spans);
    EverySpanIsUnderTheRoot(Parents(spans), j);
    WalkedTimes(c, spans, 0, since, j);
    WalkedTimes(later, w.spans, 0, since, j);
    assert Refreshed(later, w.spans[j], since) == Refreshed(c, w.spans[j], since);
    RefreshedTwice(c, spans[j], since);
  }

  /** The totals collected at the root count every other span exactly once. */
  lemma {:induction false} TotalsCountEachSpanOnce(c: Clock, spans: seq<Span>, cut: int, kind: Kind)
    requires WellFormed(spans) && Forward(spans)
    ensures Count(Walked(c, spans, 0, cut).totals, kind) == Sum(Own(spans, kind), |spans|)
  {
    WalkedTokens(c, spans, 0, cut, kind);
    WalkCountsEachSpanOnce(Parents(spans), Own(spans, kind));
  }

  /** Asking again, at any time, adds up to the same totals. */
  lemma {:induction false} TotalsAreStable(c: Clock, spans: seq<Span>, cut: int, c': Clock, cut': int, kind: Kind)
    requires WellFormed(spans) && Forward(spans)
    ensures var w := Walked(c, spans, 0, cut);
      Forward(w.spans) && Count(Walked(c', w.spans, 0, cut').totals, kind) == Count(w.totals, kind)
  {
    var w := Walked(c, spans, 0, cut);
    SameShapeKeeps(spans, w.spans);
    TotalsCountEachSpanOnce(c, spans, cut, kind);
    TotalsCountEachSpanOnce(c', w.spans, cut', kind);
  }

  /** An empty sum is not stored, so the root's counts equal the sums if and only if the sum is
      not empty or the root had no counts before. */
  lemma {:induction false} RootTokensAreSumsIff(c: Clock, spans: seq<Span>, cut: int, before: Tokens)
    requires WellFormed(spans) && Forward(spans)
    ensures var totals := Walked(c, spans, 0, cut).totals;
      (forall kind :: Count(StoredRootTokens(before, totals), kind) == Sum(Own(spans, kind), |spans|)) <==>
      totals != ZERO || forall kind :: Count(before, kind) == 0
  {
    var totals := Walked(c, spans, 0, cut).totals;
    forall kind ensures Count(totals, kind) == Sum(Own(spans, kind), |spans|) {
      TotalsCountEachSpanOnce(c, spans, cut, kind);
    }
    if totals == ZERO && exists kind :: Count(before, kind) != 0 {
      var kind :| Count(before, kind) != 0;
      assert Count(StoredRootTokens(before, totals), kind) != Sum(Own(spans, kind), |spans|);
    }
  }

  /** A usage record with cache counts only is what can empty the sum again: it replaces a span's
      tokens but adds nothing to the totals. */
  lemma {:induction false} CacheOnlyUsageCountsNothing()
    ensures Normalised(map["cached_tokens" := 5]) != ZERO
    ensures forall kind :: Count(Reread(Normalised(map["cached_tokens" := 5])), kind) == 0
  {
    var t := Normalised(map["cached_tokens" := 5]);
    assert t.cacheRead == 5;
    RereadDropsCache(map["cached_tokens" := 5]);
  }
}
