/** The public event stream: native events become numbered envelopes. An envelope whose payload the
    encoder refuses raises; the state changes made before it stay, and the event yields nothing. */
module PublicProjection {
  import opened Wrappers

  datatype Channel = Assistant | System | Narration
  datatype EndStatus = EndedWell | EndedBadly | EndedEarly

  datatype Body =
    | Turn(status: string)
    | Run(status: string)
    | Complete(status: string)
    | Failure(message: string)
    | SpanStart(run: string, role: string, kind: string, facts: string)
    | SpanEnd(run: string, how: EndStatus)
    | Text(channel: Channel, run: string, text: string, delta: string)
    | Tool(run: string, id: string, name: string)
    | Notice(kind: string, id: string, fits: bool)

  datatype Envelope = Envelope(seq_: nat, body: Body)

  /** Native events. Run ids, roles, execution kinds and texts are empty when the payload has none.
      `facts` is whatever else a start says: provider, names, capability and parent. `NoticeEvent` stands
      for skills, interactions, tool results and resources, with whether its payload has the public shape;
      `Internal` for everything that is not public. */
  datatype Event =
    | TurnNotice(status: string)
    | RunNotice(status: string)
    | RunEnded(kind: string)
    | TaskEnded(kind: string, message: string)
    | AgentStarted(agent: string, run: string, role: string, kind: string, facts: string)
    | AgentEnded(agent: string, run: string, how: EndStatus)
    | AgentStatus(agent: string, run: string, text: string)
    | AgentOutput(agent: string, run: string, text: string)
    | AgentDelta(agent: string, run: string, delta: string)
    | ToolCalls(agent: string, run: string, calls: seq<(string, string)>)
    | NoticeEvent(kind: string, id: string, fits: bool)
    | Internal

  datatype Registry = Registry(agentRuns: map<string, string>, openSpans: set<string>, roles: map<string, string>,
                               terminated: bool)

  // ----- The encoder -----

  /** What the payload models of the public protocol accept. Only the fields that are not free text can
      be refused. */
  predicate Encodes(body: Body) {
    match body
    case Turn(status) => status in ["started", "awaiting_user", "resumed", "delivered", "failed", "cancelled"]
    case Run(status) => status in ["started", "checkpoint_pause", "resumed", "completed", "failed", "cancelled"]
    case Complete(status) => status in ["delivered", "failed", "cancelled", "awaiting_user"]
    case SpanStart(_, role, kind, _) => role in ["primary", "supporting", "background"] && kind in ["model", "deterministic"]
    case Notice(_, _, fits) => fits
    case _ => true
  }

  // ----- What the registry knows -----

  function Role(role: string): string {
    if role == "" then "supporting" else role
  }

  function Kind(kind: string): string {
    if kind == "" then "model" else kind
  }

  const RUN_IS_OVER := "\U{8FD0}\U{884C}\U{5DF2}\U{7ED3}\U{675F}"

  function RunStatus(kind: string): string {
    if kind == "run.completed" || kind == "run.ended" then "completed" else if kind == "run.cancelled" then "cancelled" else "failed"
  }

  function RunComplete(kind: string): string {
    if RunStatus(kind) == "completed" then "delivered" else RunStatus(kind)
  }

  function TaskStatus(kind: string): string {
    if kind == "task.completed" then "delivered" else if kind == "task.cancelled" then "cancelled" else "failed"
  }

  /** The payload's run, or the agent's latest one. */
  function RunOf(r: Registry, agent: string, run: string): string {
    if run != "" then run else if agent in r.agentRuns then r.agentRuns[agent] else ""
  }

  function ChannelFor(r: Registry, run: string): Channel {
    if run == "" then System
    else if run in r.roles && r.roles[run] == "primary" then Assistant
    else Narration
  }

  // ----- What an event changes and says -----

  function Changed(r: Registry, e: Event): Registry {
    match e
    case RunEnded(_) => r.(terminated := true)
    case TaskEnded(_, _) => r.(terminated := true)
    case AgentStarted(agent, run, role, _, _) =>
      if run == "" || run in r.openSpans then r
      else r.(openSpans := r.openSpans + {run},
              agentRuns := if agent != "" then r.agentRuns[agent := run] else r.agentRuns,
              roles := r.roles[run := Role(role)])
    case AgentEnded(agent, run, _) =>
      var id := RunOf(r, agent, run);
      if id == "" || id !in r.openSpans then r else r.(openSpans := r.openSpans - {id})
    case _ => r
  }

  function TextBodies(r: Registry, run: string, text: string, delta: string): seq<Body> {
    match ChannelFor(r, run)
    case Narration => if text == "" then [] else [Text(Narration, run, text, "")]
    case channel => [Text(channel, run, text, if text == "" then delta else "")]
  }

  function ToolBodies(run: string, calls: seq<(string, string)>): seq<Body> {
    if calls == [] then []
    else
      var init, call := ToolBodies(run, calls[..|calls| - 1]), calls[|calls| - 1];
      if call.0 == "" || call.1 == "" then init else init + [Tool(run, call.0, call.1)]
  }

  function Bodies(r: Registry, e: Event): seq<Body> {
    match e
    case TurnNotice(status) => [Turn(status)]
    case RunNotice(status) => [Run(status)]
    case RunEnded(kind) =>
      if r.terminated then []
      else [Run(RunStatus(kind)), Complete(RunComplete(kind))]
    case TaskEnded(kind, message) =>
      if r.terminated then []
      else (if kind == "task.failed" then [Failure(if message == "" then RUN_IS_OVER else message)] else [])
           + [Complete(TaskStatus(kind))]
    case AgentStarted(_, run, role, kind, facts) =>
      if run == "" || run in r.openSpans then [] else [SpanStart(run, Role(role), Kind(kind), facts)]
    case AgentEnded(agent, run, status) =>
      var id := RunOf(r, agent, run);
      if id == "" || id !in r.openSpans then [] else [SpanEnd(id, status)]
    case AgentStatus(agent, run, text) => if text == "" then [] else [Text(Narration, RunOf(r, agent, run), text, "")]
    case AgentOutput(agent, run, text) => if text == "" then [] else TextBodies(r, RunOf(r, agent, run), text, "")
    case AgentDelta(agent, run, delta) => if delta == "" then [] else TextBodies(r, RunOf(r, agent, run), "", delta)
    case ToolCalls(agent, run, calls) => ToolBodies(RunOf(r, agent, run), calls)
    case NoticeEvent(kind, id, fits) => if id == "" then [] else [Notice(kind, id, fits)]
    case Internal => []
  }

  /** The bodies up to the first one that does not encode. */
  function Encoded(bodies: seq<Body>): seq<Body> {
    if bodies == [] || !Encodes(bodies[0]) then [] else [bodies[0]] + Encoded(bodies[1..])
  }

  function Numbered(bodies: seq<Body>, from: nat): (r: seq<Envelope>)
    ensures |r| == |bodies|
  {
    seq(|bodies|, i requires 0 <= i < |bodies| => Envelope(from + i, bodies[i]))
  }

  datatype State = State(registry: Registry, next: nat)

  /** The state after an event. */
  function After(s: State, e: Event): State {
    State(Changed(s.registry, e), s.next + |Encoded(Bodies(s.registry, e))|)
  }

  /** The envelopes an event yields: all of its bodies, or nothing when one does not encode. */
  function Yield(s: State, e: Event): Option<seq<Envelope>> {
    var bodies := Bodies(s.registry, e);
    if Encoded(bodies) == bodies then Some(Numbered(bodies, s.next)) else None
  }

  class PublicProjector {
    var sequence: nat
    var agentRuns: map<string, string>
    var openSpans: set<string>
    var roles: map<string, string>
    var terminated: bool

    function Now(): State
      reads this
    {
      State(Registry(agentRuns, openSpans, roles, terminated), sequence)
    }

    constructor ()
      ensures Now() == Fresh()
    {
      sequence, agentRuns, openSpans, roles, terminated := 0, map[], {}, map[], false;
    }

    /** One envelope; the number is used up only when the body encodes. */
    method Emit(body: Body) returns (r: Option<Envelope>)
      modifies this`sequence
      ensures Encodes(body) ==> r == Some(Envelope(old(sequence), body)) && sequence == old(sequence) + 1
      ensures !Encodes(body) ==> r == None && sequence == old(sequence)
    {
      if !Encodes(body) {
        return None;
      }
      r := Some(Envelope(sequence, body));
      sequence := sequence + 1;
    }

    /** Emit one body after another until one raises. */
    method EmitAll(bodies: seq<Body>) returns (out: Option<seq<Envelope>>)
      modifies this`sequence
      ensures sequence == old(sequence) + |Encoded(bodies)|
      ensures out == if Encoded(bodies) == bodies then Some(Numbered(bodies, old(sequence))) else None
      decreases |bodies|
    {
      if bodies == [] {
        return Some([]);
      }
      var first := Emit(bodies[0]);
      if first.None? {
        return None;
      }
      var rest := EmitAll(bodies[1..]);
      EncodedTail(bodies, old(sequence));
      if rest.None? {
        return None;
      }
      out := Some([first.value] + rest.value);
    }

    method Started(agent: string, run: string, role: string, kind: string, facts: string) returns (out: Option<seq<Envelope>>)
      modifies this
      ensures Now() == After(old(Now()), AgentStarted(agent, run, role, kind, facts))
      ensures out == Yield(old(Now()), AgentStarted(agent, run, role, kind, facts))
    {
      if run == "" || run in openSpans {
        return Some([]);
      }
      openSpans := openSpans + {run};
      if agent != "" {
        agentRuns := agentRuns[agent := run];
      }
      roles := roles[run := Role(role)];
      out := EmitAll([SpanStart(run, Role(role), Kind(kind), facts)]);
    }

    method Ended(agent: string, run: string, status: EndStatus) returns (out: Option<seq<Envelope>>)
      modifies this
      ensures Now() == After(old(Now()), AgentEnded(agent, run, status))
      ensures out == Yield(old(Now()), AgentEnded(agent, run, status))
    {
      var id := if run != "" then run else if agent in agentRuns then agentRuns[agent] else "";
      if id == "" || id !in openSpans {
        return Some([]);
      }
      openSpans := openSpans - {id};
      out := EmitAll([SpanEnd(id, status)]);
    }

    /** Terminal events act once; the latch is set before anything is emitted. */
    method Terminal(e: Event) returns (out: Option<seq<Envelope>>)
      requires e.RunEnded? || e.TaskEnded?
      modifies this
      ensures Now() == After(old(Now()), e) && out == Yield(old(Now()), e)
    {
      if terminated {
        return Some([]);
      }
      terminated := true;
      if e.RunEnded? {
        var status := RunStatus(e.kind);
        out := EmitAll([Run(status), Complete(if status == "completed" then "delivered" else status)]);
      } else if e.kind == "task.failed" {
        out := EmitAll([Failure(if e.message == "" then RUN_IS_OVER else e.message)] + [Complete(TaskStatus(e.kind))]);
      } else {
        out := EmitAll([] + [Complete(TaskStatus(e.kind))]);
      }
    }

    /** Only a primary run's text goes to the assistant channel; narration needs a whole text. */
    method Say(agent: string, run: string, text: string, delta: string) returns (out: Option<seq<Envelope>>)
      requires text != "" || delta != ""
      modifies this`sequence
      ensures var e := if text != "" then AgentOutput(agent, run, text) else AgentDelta(agent, run, delta);
        Now() == After(old(Now()), e) && out == Yield(old(Now()), e)
    {
      var id := if run != "" then run else if agent in agentRuns then agentRuns[agent] else "";
      if id != "" && !(id in roles && roles[id] == "primary") {
        if text == "" {
          return Some([]);
        }
        out := EmitAll([Text(Narration, id, text, "")]);
      } else {
        out := EmitAll([Text(if id == "" then System else Assistant, id, text, if text == "" then delta else "")]);
      }
    }

    method Calls(agent: string, run: string, calls: seq<(string, string)>) returns (out: Option<seq<Envelope>>)
      modifies this`sequence
      ensures Now() == After(old(Now()), ToolCalls(agent, run, calls))
      ensures out == Yield(old(Now()), ToolCalls(agent, run, calls))
    {
      var id := if run != "" then run else if agent in agentRuns then agentRuns[agent] else "";
      var bodies := [];
      for n := 0 to |calls|
        invariant bodies == ToolBodies(id, calls[..n])
      {
        assert calls[..n + 1][..n] == calls[..n];
        if calls[n].0 != "" && calls[n].1 != "" {
          bodies := bodies + [Tool(id, calls[n].0, calls[n].1)];
        }
      }
      assert calls[..|calls|] == calls;
      out := EmitAll(bodies);
    }

    /** Map one native event to its envelopes; `None` when one of them raised. */
    method Consume(e: Event) returns (out: Option<seq<Envelope>>)
      modifies this
      ensures Now() == After(old(Now()), e) && out == Yield(old(Now()), e)
    {
      match e {
        case RunEnded(_) => out := Terminal(e);
        case TaskEnded(_, _) => out := Terminal(e);
        case AgentStarted(agent, run, role, kind, facts) => out := Started(agent, run, role, kind, facts);
        case AgentEnded(agent, run, status) => out := Ended(agent, run, status);
        case ToolCalls(agent, run, calls) => out := Calls(agent, run, calls);
        case AgentOutput(agent, run, text) =>
          if text == "" {
            out := Some([]);
          } else {
            out := Say(agent, run, text, "");
          }
        case AgentDelta(agent, run, delta) =>
          if delta == "" {
            out := Some([]);
          } else {
            out := Say(agent, run, "", delta);
          }
        case _ => out := EmitAll(Bodies(Registry(agentRuns, openSpans, roles, terminated), e));
      }
    }
  }

  function Fresh(): State {
    State(Registry(map[], {}, map[], false), 0)
  }

  lemma {:induction false} EncodedTail(bodies: seq<Body>, from: nat)
    requires bodies != [] && Encodes(bodies[0])
    ensures Encoded(bodies) == bodies <==> Encoded(bodies[1..]) == bodies[1..]
    ensures Numbered(bodies, from) == [Envelope(from, bodies[0])] + Numbered(bodies[1..], from + 1)
  {
    var rest := Encoded(bodies[1..]);
    assert bodies == [bodies[0]] + bodies[1..];
    assert ([bodies[0]] + rest)[1..] == rest;
    NumberedTail(bodies, from);
  }

  lemma {:induction false} NumberedTail(bodies: seq<Body>, from: nat)
    requires bodies != []
    ensures Numbered(bodies, from) == [Envelope(from, bodies[0])] + Numbered(bodies[1..], from + 1)
  {
  }

  // ----- Streams -----

  /** The public stream of a list of native events. */
  datatype Stream = Stream(state: State, out: seq<Envelope>)

  function Produced(events: seq<Event>): Stream {
    if events == [] then Stream(Fresh(), [])
    else
      var before, e := Produced(events[..|events| - 1]), events[|events| - 1];
      var yielded := Yield(before.state, e);
      Stream(After(before.state, e), before.out + if yielded.Some? then yielded.value else [])
  }

  /** How often each kind of thing occurs, and what the latest start said. */
  function Completes(out: seq<Envelope>): nat {
    if out == [] then 0 else Completes(out[..|out| - 1]) + if out[|out| - 1].body.Complete? then 1 else 0
  }

  /** The starts (true) and ends (false) of one run. */
  function Spans(out: seq<Envelope>, run: string): seq<bool> {
    if out == [] then []
    else
      var init, body := Spans(out[..|out| - 1], run), out[|out| - 1].body;
      if body.SpanStart? && body.run == run then init + [true]
      else if body.SpanEnd? && body.run == run then init + [false]
      else init
  }

  function LatestRole(out: seq<Envelope>, run: string): Option<string> {
    if out == [] then None
    else
      var body := out[|out| - 1].body;
      if body.SpanStart? && body.run == run then Some(body.role) else LatestRole(out[..|out| - 1], run)
  }

  /** Start, end, start, end, and so on. */
  predicate Alternates(spans: seq<bool>) {
    forall i :: 0 <= i < |spans| ==> spans[i] == (i % 2 == 0)
  }

  predicate IsOpen(spans: seq<bool>) {
    |spans| % 2 == 1
  }

  /** The latest start of a run makes its assistant texts legitimate. */
  predicate TextAllowed(out: seq<Envelope>, i: nat)
    requires i < |out|
  {
    var body := out[i].body;
    body.Text? && body.channel == Assistant ==> body.run != "" && LatestRole(out[..i], body.run) == Some("primary")
  }

  ghost predicate WellFormed(out: seq<Envelope>) {
    && (forall i :: 0 <= i < |out| ==> out[i].seq_ == i)
    && (forall run :: Alternates(Spans(out, run)))
    && Completes(out) <= 1
    && forall i :: 0 <= i < |out| ==> TextAllowed(out, i)
  }
}
