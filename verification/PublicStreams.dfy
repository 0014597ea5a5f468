/** When the public stream is well formed: a watch over the events alone tells. A start that the encoder
    refuses opens its run and names its role without being published; what the run says and how it ends
    is published all the same. */
module PublicStreams {
  import opened Wrappers
  import opened PublicProjection

  // ----- What an event publishes -----

  /** The encoder accepts whatever the event gives rise to. */
  predicate Fits(e: Event) {
    match e
    case TurnNotice(status) => Encodes(Turn(status))
    case RunNotice(status) => Encodes(Run(status))
    case AgentStarted(_, run, role, kind, facts) => Encodes(SpanStart(run, Role(role), Kind(kind), facts))
    case NoticeEvent(_, _, fits) => fits
    case _ => true
  }

  function Told(r: Registry, e: Event): seq<Body> {
    if Fits(e) then Bodies(r, e) else []
  }

  lemma {:induction false} EncodedAll(bodies: seq<Body>)
    requires forall i :: 0 <= i < |bodies| ==> Encodes(bodies[i])
    ensures Encoded(bodies) == bodies
    decreases |bodies|
  {
    if bodies != [] {
      EncodedAll(bodies[1..]);
      assert bodies == [bodies[0]] + bodies[1..];
    }
  }

  /** No event fails after one of its bodies was encoded. */
  lemma {:induction false} EventIsWhole(r: Registry, e: Event)
    ensures Encoded(Bodies(r, e)) == Told(r, e)
  {
    var bodies := Bodies(r, e);
    if Fits(e) || bodies == [] {
      if e.ToolCalls? {
        ToolBodiesAreTools(RunOf(r, e.agent, e.run), e.calls);
      }
      EncodedAll(bodies);
    } else {
      assert !Encodes(bodies[0]);
    }
  }

  lemma {:induction false} ToolBodiesAreTools(run: string, calls: seq<(string, string)>)
    ensures forall i :: 0 <= i < |ToolBodies(run, calls)| ==> ToolBodies(run, calls)[i].Tool?
  {
    if calls != [] {
      ToolBodiesAreTools(run, calls[..|calls| - 1]);
    }
  }

  lemma {:induction false} ProducedSnoc(events: seq<Event>, e: Event)
    ensures var p := Produced(events);
      var told := Told(p.state.registry, e);
      Produced(events + [e]) == Stream(State(Changed(p.state.registry, e), p.state.next + |told|), p.out + Numbered(told, p.state.next))
  {
    assert (events + [e])[..|events|] == events;
    var p := Produced(events);
    EventIsWhole(p.state.registry, e);
    if Encoded(Bodies(p.state.registry, e)) != Bodies(p.state.registry, e) {
      assert p.out + [] == p.out + Numbered([], p.state.next);
    }
  }

  // ----- Numbers -----

  /** Every number that was used up is on a published envelope. */
  ghost predicate InStep(p: Stream) {
    p.state.next == |p.out| && forall i :: 0 <= i < |p.out| ==> p.out[i].seq_ == i
  }

  /** Whatever the encoder refuses: numbers are 0, 1, 2, ... without a gap, and the stream is completed
      at most once, by the first terminal event. */
  lemma {:induction false} NumbersAndCompletion(events: seq<Event>)
    ensures InStep(Produced(events))
    ensures Completes(Produced(events).out) == if Produced(events).state.registry.terminated then 1 else 0
  {
    if events != [] {
      var init, e := events[..|events| - 1], events[|events| - 1];
      assert events == init + [e];
      NumbersAndCompletion(init);
      ProducedSnoc(init, e);
      var p := Produced(init);
      CompletesAdds(p.out, Numbered(Told(p.state.registry, e), p.state.next));
      LastMayComplete(p.state.registry, e, p.state.next);
    }
  }

  lemma {:induction false} CompletesAdds(a: seq<Envelope>, b: seq<Envelope>)
    ensures Completes(a + b) == Completes(a) + Completes(b)
  {
    if b == [] {
      assert a + b == a;
    } else {
      CompletesAdds(a, b[..|b| - 1]);
      assert (a + b)[..|a + b| - 1] == a + b[..|b| - 1];
    }
  }

  lemma {:induction false} NoCompletes(out: seq<Envelope>)
    requires forall i :: 0 <= i < |out| ==> !out[i].body.Complete?
    ensures Completes(out) == 0
  {
    if out != [] {
      NoCompletes(out[..|out| - 1]);
    }
  }

  lemma {:induction false} LastMayComplete(r: Registry, e: Event, from: nat)
    ensures Completes(Numbered(Told(r, e), from)) == if Changed(r, e).terminated && !r.terminated then 1 else 0
    ensures r.terminated ==> Changed(r, e).terminated
  {
    var out := Numbered(Told(r, e), from);
    if e.ToolCalls? {
      ToolBodiesAreTools(RunOf(r, e.agent, e.run), e.calls);
    }
    if Changed(r, e).terminated && !r.terminated {
      NoCompletes(out[..|out| - 1]);
    } else {
      NoCompletes(out);
    }
  }

  // ----- Watching the events -----

  /** Kept from the events alone: the registry, the open runs whose start was refused, and the role that
      the latest published start of a run gave it. */
  datatype Watch = Watch(registry: Registry, lost: set<string>, shown: map<string, string>)

  function Watched(w: Watch, e: Event): Watch {
    var r := Changed(w.registry, e);
    match e
    case AgentStarted(_, run, role, _, _) =>
      if run == "" || run in w.registry.openSpans then Watch(r, w.lost, w.shown)
      else if Fits(e) then Watch(r, w.lost - {run}, w.shown[run := Role(role)])
      else Watch(r, w.lost + {run}, w.shown)
    case AgentEnded(agent, run, _) => Watch(r, w.lost - {RunOf(w.registry, agent, run)}, w.shown)
    case _ => Watch(r, w.lost, w.shown)
  }

  function WatchedAll(events: seq<Event>): Watch {
    if events == [] then Watch(Fresh().registry, {}, map[])
    else Watched(WatchedAll(events[..|events| - 1]), events[|events| - 1])
  }

  /** The run is registered as primary though its latest published start, if any, says otherwise. */
  predicate Pretends(w: Watch, run: string) {
    && run in w.registry.roles && w.registry.roles[run] == "primary"
    && !(run in w.shown && w.shown[run] == "primary")
  }

  /** The event ends a run whose start was refused, or speaks for a run that only pretends. */
  predicate Harms(w: Watch, e: Event) {
    match e
    case AgentEnded(agent, run, _) => RunOf(w.registry, agent, run) in w.lost
    case AgentOutput(agent, run, text) => text != "" && Pretends(w, RunOf(w.registry, agent, run))
    case AgentDelta(agent, run, delta) => delta != "" && Pretends(w, RunOf(w.registry, agent, run))
    case _ => false
  }

  predicate Harmless(events: seq<Event>) {
    events == [] || (
      Harmless(events[..|events| - 1]) && !Harms(WatchedAll(events[..|events| - 1]), events[|events| - 1]))
  }

  lemma {:induction false} WatchSnoc(events: seq<Event>, e: Event)
    ensures WatchedAll(events + [e]) == Watched(WatchedAll(events), e)
    ensures Harmless(events + [e]) <==> Harmless(events) && !Harms(WatchedAll(events), e)
  {
    assert (events + [e])[..|events|] == events;
  }

  ghost predicate Consistent(w: Watch) {
    w.lost <= w.registry.openSpans && "" !in w.registry.openSpans && "" !in w.registry.roles
  }

  lemma {:induction false} WatchIsConsistent(events: seq<Event>)
    ensures Consistent(WatchedAll(events))
    ensures WatchedAll(events).registry == Produced(events).state.registry
  {
    if events != [] {
      WatchIsConsistent(events[..|events| - 1]);
    }
  }

  // ----- The watch mirrors the stream -----

  function Snoc(out: seq<Envelope>, body: Body): seq<Envelope> {
    out + [Envelope(|out|, body)]
  }

  /** What one more envelope does to the observations. */
  lemma {:induction false} SnocObserved(out: seq<Envelope>, body: Body, run: string)
    ensures Completes(Snoc(out, body)) == Completes(out) + if body.Complete? then 1 else 0
    ensures Spans(Snoc(out, body), run) ==
      if body.SpanStart? && body.run == run then Spans(out, run) + [true]
      else if body.SpanEnd? && body.run == run then Spans(out, run) + [false]
      else Spans(out, run)
    ensures LatestRole(Snoc(out, body), run) ==
      if body.SpanStart? && body.run == run then Some(body.role) else LatestRole(out, run)
  {
    assert Snoc(out, body)[..|out|] == out;
  }

  /** A body that may follow a stream. */
  ghost predicate MayFollow(out: seq<Envelope>, body: Body) {
    && (body.SpanStart? ==> !IsOpen(Spans(out, body.run)))
    && (body.SpanEnd? ==> IsOpen(Spans(out, body.run)))
    && (body.Complete? ==> Completes(out) == 0)
    && (body.Text? && body.channel == Assistant ==> body.run != "" && LatestRole(out, body.run) == Some("primary"))
  }

  lemma {:induction false} SnocIsWellFormed(out: seq<Envelope>, body: Body)
    requires WellFormed(out) && MayFollow(out, body)
    ensures WellFormed(Snoc(out, body))
  {
    var longer := Snoc(out, body);
    forall run ensures Alternates(Spans(longer, run)) {
      SnocObserved(out, body, run);
      assert Alternates(Spans(out, run));
    }
    SnocObserved(out, body, "");
    forall i | 0 <= i < |longer| ensures TextAllowed(longer, i) {
      if i < |out| {
        assert TextAllowed(out, i) && longer[..i] == out[..i];
      } else {
        assert longer[..i] == out;
      }
    }
  }

  /** An end that was never started, or an assistant text without a primary start, spoils a stream. */
  lemma {:induction false} SnocIsIllFormed(out: seq<Envelope>, body: Body)
    requires WellFormed(out) && (body.SpanEnd? || body.Text?) && !MayFollow(out, body)
    ensures !WellFormed(Snoc(out, body))
  {
    var longer := Snoc(out, body);
    if body.SpanEnd? {
      SnocObserved(out, body, body.run);
      var spans := Spans(out, body.run);
      assert (spans + [false])[|spans|] == false;
      assert !Alternates(Spans(longer, body.run));
    } else {
      assert longer[..|out|] == out && longer[|out|].body == body;
      assert !TextAllowed(longer, |out|);
    }
  }

  /** What the stream shows of the watch: the published open runs, the published roles, and the end. */
  datatype View = View(open: set<string>, shown: map<string, string>, done: bool)

  function ViewOf(w: Watch): View {
    View(w.registry.openSpans - w.lost, w.shown, w.registry.terminated)
  }

  predicate Mirrored(v: View, out: seq<Envelope>, run: string) {
    && (run in v.open <==> IsOpen(Spans(out, run)))
    && LatestRole(out, run) == if run in v.shown then Some(v.shown[run]) else None
  }

  ghost predicate Mirrors(v: View, out: seq<Envelope>) {
    && (forall run :: Mirrored(v, out, run))
    && Completes(out) == if v.done then 1 else 0
  }

  /** The view after one more body. */
  function Following(v: View, body: Body): View {
    match body
    case SpanStart(run, role, _, _) => v.(open := v.open + {run}, shown := v.shown[run := role])
    case SpanEnd(run, _) => v.(open := v.open - {run})
    case Complete(_) => v.(done := true)
    case _ => v
  }

  lemma {:induction false} OneBody(v: View, out: seq<Envelope>, body: Body)
    requires WellFormed(out) && Mirrors(v, out) && MayFollow(out, body)
    ensures WellFormed(Snoc(out, body)) && Mirrors(Following(v, body), Snoc(out, body))
  {
    SnocIsWellFormed(out, body);
    SnocObserved(out, body, "");
    forall run ensures Mirrored(Following(v, body), Snoc(out, body), run) {
      assert Mirrored(v, out, run);
      MirroredSnoc(v, out, body, run);
    }
  }

  lemma {:induction false} MirroredSnoc(v: View, out: seq<Envelope>, body: Body, run: string)
    requires Mirrored(v, out, run)
    requires body.SpanStart? && body.run == run ==> !IsOpen(Spans(out, run))
    requires body.SpanEnd? && body.run == run ==> IsOpen(Spans(out, run))
    ensures Mirrored(Following(v, body), Snoc(out, body), run)
  {
    SnocObserved(out, body, run);
  }

  /** Bodies that no observation sees: everything but spans, completion and assistant text. */
  predicate Neutral(body: Body) {
    !body.SpanStart? && !body.SpanEnd? && !body.Complete? && (body.Text? ==> body.channel != Assistant)
  }

  lemma {:induction false} NumberedTail(bodies: seq<Body>, from: nat)
    requires bodies != []
    ensures Numbered(bodies, from) == [Envelope(from, bodies[0])] + Numbered(bodies[1..], from + 1)
  {
  }

  lemma {:induction false} NeutralBodies(v: View, out: seq<Envelope>, bodies: seq<Body>)
    requires WellFormed(out) && Mirrors(v, out) && forall i :: 0 <= i < |bodies| ==> Neutral(bodies[i])
    ensures WellFormed(out + Numbered(bodies, |out|)) && Mirrors(v, out + Numbered(bodies, |out|))
    decreases |bodies|
  {
    if bodies == [] {
      assert out + Numbered(bodies, |out|) == out;
    } else {
      OneBody(v, out, bodies[0]);
      NeutralBodies(v, Snoc(out, bodies[0]), bodies[1..]);
      NumberedTail(bodies, |out|);
      assert out + Numbered(bodies, |out|) == Snoc(out, bodies[0]) + Numbered(bodies[1..], |out| + 1);
    }
  }

  lemma {:induction false} OneNumbered(out: seq<Envelope>, body: Body)
    ensures out + Numbered([body], |out|) == Snoc(out, body)
  {
  }

  lemma {:induction false} TwoNumbered(out: seq<Envelope>, first: Body, second: Body)
    ensures out + Numbered([first, second], |out|) == Snoc(Snoc(out, first), second)
  {
  }

  // ----- One event -----

  function Longer(w: Watch, out: seq<Envelope>, e: Event): seq<Envelope> {
    out + Numbered(Told(w.registry, e), |out|)
  }

  ghost predicate Keeps(w: Watch, out: seq<Envelope>, e: Event) {
    WellFormed(Longer(w, out, e)) && Mirrors(ViewOf(Watched(w, e)), Longer(w, out, e))
  }

  ghost predicate Faithful(w: Watch, out: seq<Envelope>) {
    Consistent(w) && WellFormed(out) && Mirrors(ViewOf(w), out)
  }

  lemma {:induction false} SilentEvent(w: Watch, out: seq<Envelope>, e: Event)
    requires Faithful(w, out) && Told(w.registry, e) == [] && !Harms(w, e)
    ensures Keeps(w, out, e)
  {
    assert Longer(w, out, e) == out;
    assert ViewOf(Watched(w, e)) == ViewOf(w);
  }

  lemma {:induction false} SingleEvent(w: Watch, out: seq<Envelope>, e: Event, body: Body)
    requires Faithful(w, out) && Told(w.registry, e) == [body] && MayFollow(out, body)
    requires ViewOf(Watched(w, e)) == Following(ViewOf(w), body)
    ensures Keeps(w, out, e)
  {
    OneBody(ViewOf(w), out, body);
    OneNumbered(out, body);
  }

  lemma {:induction false} SpanEvent(w: Watch, out: seq<Envelope>, e: Event)
    requires Faithful(w, out) && Told(w.registry, e) != [] && !Harms(w, e) && (e.AgentStarted? || e.AgentEnded?)
    ensures Keeps(w, out, e)
  {
    var body := Told(w.registry, e)[0];
    assert Mirrored(ViewOf(w), out, body.run);
    var v, after := ViewOf(w), ViewOf(Watched(w, e));
    if e.AgentStarted? {
      assert body.run !in w.lost;
      assert after.open == v.open + {body.run};
    } else {
      assert after.open == v.open - {body.run};
    }
    SingleEvent(w, out, e, body);
  }

  lemma {:induction false} TerminalEvent(w: Watch, out: seq<Envelope>, e: Event)
    requires Faithful(w, out) && !w.registry.terminated && (e.RunEnded? || e.TaskEnded?)
    ensures Keeps(w, out, e)
  {
    var bodies, v := Told(w.registry, e), ViewOf(w);
    if |bodies| == 1 {
      SingleEvent(w, out, e, bodies[0]);
    } else {
      assert bodies == [bodies[0], bodies[1]];
      OneBody(v, out, bodies[0]);
      SnocObserved(out, bodies[0], "");
      OneBody(v, Snoc(out, bodies[0]), bodies[1]);
      TwoNumbered(out, bodies[0], bodies[1]);
    }
  }

  lemma {:induction false} SpokenEvent(w: Watch, out: seq<Envelope>, e: Event)
    requires Faithful(w, out) && Told(w.registry, e) != [] && !Harms(w, e) && (e.AgentOutput? || e.AgentDelta?)
    ensures Keeps(w, out, e)
  {
    var body := Told(w.registry, e)[0];
    assert Mirrored(ViewOf(w), out, body.run);
    SingleEvent(w, out, e, body);
  }

  lemma {:induction false} NeutralEvent(w: Watch, out: seq<Envelope>, e: Event)
    requires Faithful(w, out)
    requires e.TurnNotice? || e.RunNotice? || e.AgentStatus? || e.ToolCalls? || e.NoticeEvent? || e.Internal?
    ensures Keeps(w, out, e)
  {
    if e.ToolCalls? {
      ToolBodiesAreTools(RunOf(w.registry, e.agent, e.run), e.calls);
    }
    NeutralBodies(ViewOf(w), out, Told(w.registry, e));
  }

  /** An event that does no harm keeps the stream well formed and mirrored. */
  lemma {:induction false} HarmlessEvent(w: Watch, out: seq<Envelope>, e: Event)
    requires Faithful(w, out) && !Harms(w, e)
    ensures Keeps(w, out, e)
  {
    if Told(w.registry, e) == [] {
      SilentEvent(w, out, e);
    } else if e.RunEnded? || e.TaskEnded? {
      TerminalEvent(w, out, e);
    } else if e.AgentStarted? || e.AgentEnded? {
      SpanEvent(w, out, e);
    } else if e.AgentOutput? || e.AgentDelta? {
      SpokenEvent(w, out, e);
    } else {
      NeutralEvent(w, out, e);
    }
  }

  /** One that does harm spoils it. */
  lemma {:induction false} HarmfulEvent(w: Watch, out: seq<Envelope>, e: Event)
    requires Faithful(w, out) && Harms(w, e)
    ensures !WellFormed(Longer(w, out, e))
  {
    var body := Told(w.registry, e)[0];
    assert Told(w.registry, e) == [body];
    assert Mirrored(ViewOf(w), out, body.run);
    OneNumbered(out, body);
    SnocIsIllFormed(out, body);
  }

  // ----- Every log -----

  lemma {:induction false} SpansAdd(a: seq<Envelope>, b: seq<Envelope>, run: string)
    ensures Spans(a + b, run) == Spans(a, run) + Spans(b, run)
  {
    if b == [] {
      assert a + b == a;
    } else {
      SpansAdd(a, b[..|b| - 1], run);
      assert (a + b)[..|a + b| - 1] == a + b[..|b| - 1];
    }
  }

  /** A stream that was spoiled stays spoiled. */
  lemma {:induction false} WellFormedSoFar(a: seq<Envelope>, b: seq<Envelope>)
    requires WellFormed(a + b)
    ensures WellFormed(a)
  {
    forall run ensures Alternates(Spans(a, run)) {
      SpansAdd(a, b, run);
      assert Alternates(Spans(a + b, run));
      assert forall i :: 0 <= i < |Spans(a, run)| ==> Spans(a + b, run)[i] == Spans(a, run)[i];
    }
    CompletesAdds(a, b);
    forall i | 0 <= i < |a| ensures a[i].seq_ == i && TextAllowed(a, i) {
      assert (a + b)[i] == a[i] && (a + b)[..i] == a[..i];
      assert TextAllowed(a + b, i);
    }
  }

  /** The stream of a log is well formed, with alternating starts and ends for every run and assistant
      text only from runs that were shown as primary, if and only if no event of the log ends a run whose
      start was refused or speaks for a run that is primary in the registry alone. */
  lemma {:induction false} WellFormedIff(events: seq<Event>)
    ensures WellFormed(Produced(events).out) <==> Harmless(events)
    ensures Harmless(events) ==> Faithful(WatchedAll(events), Produced(events).out)
  {
    if events != [] {
      var init, e := events[..|events| - 1], events[|events| - 1];
      assert events == init + [e];
      WellFormedIff(init);
      NumbersAndCompletion(init);
      WatchIsConsistent(init);
      WatchIsConsistent(events);
      ProducedSnoc(init, e);
      var p, w := Produced(init), WatchedAll(init);
      assert Produced(events).out == Longer(w, p.out, e);
      if !Harmless(init) {
        if WellFormed(Longer(w, p.out, e)) {
          WellFormedSoFar(p.out, Numbered(Told(w.registry, e), |p.out|));
        }
      } else if Harms(w, e) {
        HarmfulEvent(w, p.out, e);
      } else {
        HarmlessEvent(w, p.out, e);
      }
    }
  }

  // ----- What may still come -----

  predicate StartsFit(events: seq<Event>) {
    forall i :: 0 <= i < |events| && events[i].AgentStarted? ==> Fits(events[i])
  }

  /** No run is open with a refused start, and none pretends to be primary. */
  ghost predicate Clean(w: Watch) {
    w.lost == {} && forall run :: !Pretends(w, run)
  }

  lemma {:induction false} CleanStep(w: Watch, e: Event)
    requires Clean(w) && (e.AgentStarted? ==> Fits(e))
    ensures Clean(Watched(w, e)) && !Harms(w, e)
  {
    forall run ensures !Pretends(Watched(w, e), run) {
      assert !Pretends(w, run);
    }
  }

  lemma {:induction false} CleanGoesOn(events: seq<Event>, more: seq<Event>)
    requires Harmless(events) && Clean(WatchedAll(events)) && StartsFit(more)
    ensures Harmless(events + more) && Clean(WatchedAll(events + more))
  {
    if more == [] {
      assert events + more == events;
    } else {
      var init, e := more[..|more| - 1], more[|more| - 1];
      CleanGoesOn(events, init);
      assert events + more == events + init + [e];
      WatchSnoc(events + init, e);
      CleanStep(WatchedAll(events + init), e);
    }
  }

  ghost predicate StaysWellFormed(events: seq<Event>) {
    forall more :: StartsFit(more) ==> WellFormed(Produced(events + more).out)
  }

  /** As long as no later start is refused, every continuation of a log is well formed if and only if the
      log does no harm, no run is open with a refused start, and none is primary in the registry alone. */
  lemma {:induction false} StaysWellFormedIff(events: seq<Event>)
    ensures StaysWellFormed(events) <==> Harmless(events) && Clean(WatchedAll(events))
  {
    var w := WatchedAll(events);
    if Harmless(events) && Clean(w) {
      forall more | StartsFit(more) ensures WellFormed(Produced(events + more).out) {
        CleanGoesOn(events, more);
        WellFormedIff(events + more);
      }
    } else {
      var more := Spoiling(events);
      WellFormedIff(events + more);
      assert StartsFit(more) && !WellFormed(Produced(events + more).out);
    }
  }

  /** The event that spoils a log which is not clean. */
  lemma {:induction false} Spoiling(events: seq<Event>) returns (more: seq<Event>)
    requires !(Harmless(events) && Clean(WatchedAll(events)))
    ensures StartsFit(more) && !Harmless(events + more)
  {
    var w := WatchedAll(events);
    WatchIsConsistent(events);
    if !Harmless(events) {
      more := [];
      assert events + more == events;
    } else if w.lost != {} {
      var run :| run in w.lost;
      assert RunOf(w.registry, "", run) == run;
      more := [AgentEnded("", run, EndedWell)];
      WatchSnoc(events, more[0]);
    } else {
      var run :| Pretends(w, run);
      assert RunOf(w.registry, "", run) == run;
      more := [AgentOutput("", run, "text")];
      WatchSnoc(events, more[0]);
    }
  }

  /** A log whose starts all fit is well formed; a refused start leaves its run lost, so that its end
      will spoil the stream. */
  lemma {:induction false} RefusedStartsSpoil(events: seq<Event>, start: Event)
    requires start.AgentStarted? && !Fits(start) && start.run != "" && start.run !in WatchedAll(events).registry.openSpans
    ensures StartsFit(events) ==> WellFormed(Produced(events).out)
    ensures !StaysWellFormed(events + [start])
  {
    if StartsFit(events) {
      assert [] + events == events;
      CleanGoesOn([], events);
      WellFormedIff(events);
    }
    WatchSnoc(events, start);
    assert start.run in WatchedAll(events + [start]).lost;
    StaysWellFormedIff(events + [start]);
  }

  // ----- Two such logs -----

  lemma {:induction false} TwoEvents(a: Event, b: Event)
    ensures var r, told := Changed(Fresh().registry, a), Told(Fresh().registry, a);
      Produced([a, b]).out == Numbered(told, 0) + Numbered(Told(r, b), |told|)
  {
    assert [a, b] == [] + [a] + [b];
    ProducedSnoc([], a);
    ProducedSnoc([] + [a], b);
    assert Produced([]).out + Numbered(Told(Fresh().registry, a), 0) == Numbered(Told(Fresh().registry, a), 0);
  }

  /** A start with the role "tutor" is refused and its end is published alone. */
  lemma {:induction false} UnknownRoleLosesItsStart()
    ensures var out := Produced([AgentStarted("a", "r", "tutor", "model", ""), AgentEnded("a", "r", EndedWell)]).out;
      out == [Envelope(0, SpanEnd("r", EndedWell))] && !WellFormed(out)
  {
    var a, b := AgentStarted("a", "r", "tutor", "model", ""), AgentEnded("a", "r", EndedWell);
    TwoEvents(a, b);
    assert Told(Fresh().registry, a) == [] && Told(Changed(Fresh().registry, a), b) == [SpanEnd("r", EndedWell)];
    var out := Produced([a, b]).out;
    assert out == [Envelope(0, SpanEnd("r", EndedWell))];
    assert out == Snoc([], SpanEnd("r", EndedWell));
    SnocIsIllFormed([], SpanEnd("r", EndedWell));
  }

  /** A primary start with the execution kind "human" is refused and its text is published as the
      assistant's. */
  lemma {:induction false} UnknownKindSpeaksAlone()
    ensures var out := Produced([AgentStarted("a", "r", "primary", "human", ""), AgentOutput("a", "r", "hello")]).out;
      out == [Envelope(0, Text(Assistant, "r", "hello", ""))] && !WellFormed(out)
  {
    var a, b := AgentStarted("a", "r", "primary", "human", ""), AgentOutput("a", "r", "hello");
    TwoEvents(a, b);
    var body := Text(Assistant, "r", "hello", "");
    assert Told(Fresh().registry, a) == [] && Told(Changed(Fresh().registry, a), b) == [body];
    var out := Produced([a, b]).out;
    assert out == [Envelope(0, body)];
    assert out == Snoc([], body);
    SnocIsIllFormed([], body);
  }
}
