/** Who may consume an accepted learner command. Many executions of one conversation, in any
    number of processes, race for the commands of its ledger; each of their awaited calls is one
    atomic step, and any of them can crash between two steps. */
module CommandOwnership {
  import opened Wrappers

  type CommandId = string
  type ExecutionId = string

  datatype Kind = InitialPrompt | Message | InteractionAnswer(interactionId: string)
  datatype Disposition = Pending | TransferPending | Delivered | Applied

  /** One row of the command ledger. */
  datatype Command = Command(kind: Kind, steering: bool, disposition: Disposition, owner: Option<ExecutionId>,
                             deliveredAt: Option<int>, consumed: bool)

  type Ledger = map<CommandId, Command>

  datatype TaskStatus = Queued | Busy | Idle | Stopped
  datatype ThreadStatus = Open | AwaitingUser | ThreadRunning | Closed
  datatype Task = Task(status: TaskStatus, thread: ThreadStatus, current: Option<ExecutionId>)

  datatype Outcome = Completed | Waiting | Failed | Partial | Cancelled | TimedOut | OverBudget

  /** What the state of a graph that came to its end can say. */
  predicate IsFinal(o: Outcome) {
    o == Completed || o == Waiting || o == Failed || o == Partial
  }

  /** What an exception or a cancellation leaves behind. */
  predicate IsBreak(o: Outcome) {
    o == Failed || o == Cancelled || o == TimedOut || o == OverBudget
  }

  /** The outcomes after which commands are acknowledged. */
  predicate Durable(o: Outcome) {
    o == Completed || o == Waiting
  }

  // ----- The ledger's updates, each one conditional UPDATE statement -----

  const LEASE := 30

  predicate Claimable(c: Command, e: ExecutionId, now: int) {
    && !c.consumed
    && (c.disposition == Pending || c.disposition == TransferPending || c.owner == Some(e)
        || c.deliveredAt.None? || c.deliveredAt.value < now - LEASE)
  }

  function ClaimCommand(ledger: Ledger, id: CommandId, e: ExecutionId, now: int): Ledger {
    if id in ledger && Claimable(ledger[id], e, now)
    then ledger[id := ledger[id].(disposition := Delivered, owner := Some(e), deliveredAt := Some(now))]
    else ledger
  }

  /** A transfer also turns a steering command into an ordinary one. */
  function Release(ledger: Ledger, id: CommandId, transfer: bool): Ledger {
    if id in ledger && !ledger[id].consumed
    then ledger[id := ledger[id].(disposition := TransferPending, owner := None, steering := ledger[id].steering && !transfer)]
    else ledger
  }

  /** Steering is marked delivered whoever owned the row. */
  function MarkDelivered(ledger: Ledger, id: CommandId, e: ExecutionId, now: int): Ledger {
    if id in ledger && !ledger[id].consumed
    then ledger[id := ledger[id].(disposition := Delivered, owner := Some(e), deliveredAt := Some(now))]
    else ledger
  }

  function Heartbeat(ledger: Ledger, id: CommandId, e: ExecutionId, now: int): Ledger {
    if id in ledger && !ledger[id].consumed && ledger[id].owner == Some(e)
    then ledger[id := ledger[id].(deliveredAt := Some(now))]
    else ledger
  }

  /** With an execution given, only the owner's row is consumed. */
  function Consume(ledger: Ledger, id: CommandId, owner: Option<ExecutionId>): Ledger {
    if id in ledger && !ledger[id].consumed && (owner.None? || ledger[id].owner == owner)
    then ledger[id := ledger[id].(disposition := Applied, consumed := true)]
    else ledger
  }

  predicate TaskClaimable(t: Task, reclaim: bool) {
    t.thread != Closed && t.status != Stopped && (reclaim || t.status != Busy)
  }

  // ----- Executions -----

  /** Where an execution stands between two awaits. */
  datatype Phase =
    | Looked(seen: Command)
    | HoldsCommand(reclaim: bool)
    | Ready
    | LostTask
    | Started
    | Replaying(ids: set<CommandId>)
    | Streaming
    | Finishing(outcome: Outcome, ids: set<CommandId>)
    | Acking(ids: set<CommandId>)
    | Transferring
    | Over

  /** `wonCommand` and `wonTask` record the two claims for good, also after a crash; `picked` are the
      commands taken from the ledger for steering. */
  datatype Run = Run(primary: Option<CommandId>, wonCommand: bool, wonTask: bool, picked: set<CommandId>, phase: Phase)

  /** `applied` is the append-only list of command ids in the graph's checkpoint. */
  datatype State = State(ledger: Ledger, task: Task, applied: set<CommandId>, runs: map<ExecutionId, Run>,
                         outcomes: map<ExecutionId, Outcome>, now: int)

  datatype Action =
    | Accept(id: CommandId, kind: Kind, steering: bool)
    | Tick(seconds: nat)
    | TaskChanges(task: Task)
    | Crash(e: ExecutionId)
    | Look(e: ExecutionId, primary: Option<CommandId>)
    | TryCommand(e: ExecutionId)
    | TryTask(e: ExecutionId)
    | GiveBack(e: ExecutionId)
    | ReadCheckpoint(e: ExecutionId)
    | Replay(e: ExecutionId, id: CommandId)
    | StartStreaming(e: ExecutionId)
    | Pick(e: ExecutionId, id: CommandId)
    | Steer(e: ExecutionId, id: CommandId)
    | Beat(e: ExecutionId)
    | GraphWrites(e: ExecutionId, ids: set<CommandId>)
    | Fail(e: ExecutionId, outcome: Outcome)
    | ReadFinal(e: ExecutionId, outcome: Outcome)
    | Persist(e: ExecutionId)
    | Ack(e: ExecutionId, id: CommandId)
    | StartTransfer(e: ExecutionId)
    | Transfer(e: ExecutionId, id: CommandId)
    | DropMalformed(id: CommandId)

  predicate At(s: State, e: ExecutionId) {
    e in s.runs
  }

  function MoveTo(s: State, e: ExecutionId, phase: Phase): State
    requires At(s, e)
  {
    s.(runs := s.runs[e := s.runs[e].(phase := phase)])
  }

  predicate Malformed(c: Command) {
    c.kind.InteractionAnswer? && c.kind.interactionId == ""
  }

  /** Commands of the primary: none or one. */
  function Primary(r: Run): set<CommandId> {
    if r.primary.Some? then {r.primary.value} else {}
  }

  /** Only a row delivered to another execution, and not as steering, allows taking over a task
      that is still marked running. */
  predicate Reclaims(seen: Command, e: ExecutionId) {
    seen.disposition == Delivered && seen.owner != Some(e) && !seen.steering
  }

  /** Before both claims are decided. */
  function ClaimStep(s: State, a: Action): State {
    match a
    case Look(e, primary) =>
      if At(s, e) then s
      else if primary.None? then s.(runs := s.runs[e := Run(None, false, false, {}, Ready)])
      else if primary.value in s.ledger && !s.ledger[primary.value].consumed
      then s.(runs := s.runs[e := Run(primary, false, false, {}, Looked(s.ledger[primary.value]))])
      else s
    case TryCommand(e) =>
      if !At(s, e) || !s.runs[e].phase.Looked? || s.runs[e].primary.None? then s
      else
        var r, id := s.runs[e], s.runs[e].primary.value;
        if id in s.ledger && Claimable(s.ledger[id], e, s.now)
        then s.(ledger := ClaimCommand(s.ledger, id, e, s.now),
                runs := s.runs[e := r.(wonCommand := true, phase := HoldsCommand(Reclaims(r.phase.seen, e)))])
        else MoveTo(s, e, Over)
    case TryTask(e) =>
      if !At(s, e) || !(s.runs[e].phase.HoldsCommand? || s.runs[e].phase.Ready?) then s
      else
        var r := s.runs[e];
        if TaskClaimable(s.task, r.phase.HoldsCommand? && r.phase.reclaim)
        then s.(task := s.task.(status := Busy, current := Some(e)), runs := s.runs[e := r.(wonTask := true, phase := Started)])
        else MoveTo(s, e, if r.phase.HoldsCommand? then LostTask else Over)
    case GiveBack(e) =>
      if !At(s, e) || !s.runs[e].phase.LostTask? || s.runs[e].primary.None? then s
      else MoveTo(s, e, Over).(ledger := Release(s.ledger, s.runs[e].primary.value, false))
    case _ => s
  }

  /** A message that a live execution takes from the ledger. */
  predicate Steers(c: Command) {
    c.kind.Message? && c.steering && !c.consumed
  }

  /** An exception is caught from the first checkpoint read to the end of the stream. */
  predicate MayFail(p: Phase) {
    p.Started? || p.Replaying? || p.Streaming?
  }

  /** From the first checkpoint read to the end of the stream. Steering starts with the execution, and
      the mark that it was delivered can land at any later moment. */
  function StreamStep(s: State, a: Action): State {
    match a
    case ReadCheckpoint(e) =>
      if At(s, e) && s.runs[e].phase.Started? then MoveTo(s, e, Replaying(s.applied)) else s
    case Replay(e, id) =>
      if At(s, e) && s.runs[e].phase.Replaying? && id in s.runs[e].phase.ids
      then MoveTo(s, e, Replaying(s.runs[e].phase.ids - {id})).(ledger := Consume(s.ledger, id, None))
      else s
    case StartStreaming(e) =>
      if At(s, e) && s.runs[e].phase == Replaying({}) then MoveTo(s, e, Streaming) else s
    case Pick(e, id) =>
      if At(s, e) && s.runs[e].wonTask && !s.runs[e].phase.Over? && id in s.ledger && Steers(s.ledger[id])
      then s.(runs := s.runs[e := s.runs[e].(picked := s.runs[e].picked + {id})])
      else s
    case Steer(e, id) =>
      if At(s, e) && id in s.runs[e].picked then s.(ledger := MarkDelivered(s.ledger, id, e, s.now)) else s
    case Beat(e) =>
      if At(s, e) && s.runs[e].primary.Some? && s.runs[e].wonTask && !s.runs[e].phase.Over?
      then s.(ledger := Heartbeat(s.ledger, s.runs[e].primary.value, e, s.now))
      else s
    case GraphWrites(e, ids) =>
      if At(s, e) && s.runs[e].phase.Streaming? then s.(applied := s.applied + ids) else s
    case Fail(e, outcome) =>
      if At(s, e) && MayFail(s.runs[e].phase) && IsBreak(outcome) then MoveTo(s, e, Over).(outcomes := s.outcomes[e := outcome]) else s
    case _ => s
  }

  /** After the stream: the outcome is persisted before anything is acknowledged. */
  function FinishStep(s: State, a: Action): State {
    match a
    case ReadFinal(e, outcome) =>
      if At(s, e) && s.runs[e].phase.Streaming? && IsFinal(outcome)
      then MoveTo(s, e, Finishing(outcome, s.applied + Primary(s.runs[e])))
      else s
    case Persist(e) =>
      if At(s, e) && s.runs[e].phase.Finishing?
      then MoveTo(s, e, if Durable(s.runs[e].phase.outcome) then Acking(s.runs[e].phase.ids) else Over)
           .(outcomes := s.outcomes[e := s.runs[e].phase.outcome])
      else s
    case Ack(e, id) =>
      if At(s, e) && s.runs[e].phase.Acking? && id in s.runs[e].phase.ids
      then MoveTo(s, e, Acking(s.runs[e].phase.ids - {id})).(ledger := Consume(s.ledger, id, Some(e)))
      else s
    case StartTransfer(e) =>
      if At(s, e) && s.runs[e].phase == Acking({}) then MoveTo(s, e, Transferring) else s
    case Transfer(e, id) =>
      if At(s, e) && s.runs[e].phase.Transferring? && id in s.ledger && Steers(s.ledger[id])
      then s.(ledger := Release(s.ledger, id, true))
      else s
    case _ => s
  }

  /** Everything that happens around the executions. */
  function WorldStep(s: State, a: Action): State {
    match a
    case Accept(id, kind, steering) =>
      if id in s.ledger then s
      else s.(ledger := s.ledger[id := Command(kind, steering, Pending, None, None, false)])
    case Tick(seconds) => s.(now := s.now + seconds)
    case TaskChanges(task) => s.(task := task)
    case Crash(e) => if At(s, e) then MoveTo(s, e, Over) else s
    case DropMalformed(id) =>
      if id in s.ledger && Malformed(s.ledger[id]) then s.(ledger := Consume(s.ledger, id, None)) else s
    case _ => s
  }

  function Step(s: State, a: Action): State {
    if a.Accept? || a.Tick? || a.TaskChanges? || a.Crash? || a.DropMalformed? then WorldStep(s, a)
    else if a.Look? || a.TryCommand? || a.TryTask? || a.GiveBack? then ClaimStep(s, a)
    else if a.ReadFinal? || a.Persist? || a.Ack? || a.StartTransfer? || a.Transfer? then FinishStep(s, a)
    else StreamStep(s, a)
  }

  function After(s: State, actions: seq<Action>): State {
    if actions == [] then s else Step(After(s, actions[..|actions| - 1]), actions[|actions| - 1])
  }

  predicate Initial(s: State) {
    s.runs == map[] && s.outcomes == map[] && forall id :: id in s.ledger ==> !s.ledger[id].consumed
  }

  // ----- Why a command may be consumed -----

  /** The execution won both claims, has the command as its primary one and has persisted an
      outcome other than failed or partial. */
  predicate Owned(s: State, id: CommandId, e: ExecutionId) {
    && At(s, e) && s.runs[e].primary == Some(id) && s.runs[e].wonCommand && s.runs[e].wonTask
    && e in s.outcomes && Durable(s.outcomes[e])
  }

  ghost predicate Justified(s: State, id: CommandId) {
    id in s.applied || (id in s.ledger && Malformed(s.ledger[id])) || exists e :: Owned(s, id, e)
  }

  /** What an execution has established when it stands at a phase. */
  predicate RunOk(s: State, e: ExecutionId)
    requires At(s, e)
  {
    var r := s.runs[e];
    && (r.phase.HoldsCommand? ==> r.wonCommand)
    && (r.phase.Ready? ==> r.primary.None?)
    && (r.phase.Started? || r.phase.Replaying? || r.phase.Streaming? || r.phase.Finishing? || r.phase.Acking? || r.phase.Transferring? ==>
        r.wonTask && (r.primary.Some? ==> r.wonCommand))
    && (r.phase.Replaying? ==> r.phase.ids <= s.applied)
    && (r.phase.Finishing? ==> r.phase.ids <= s.applied + Primary(r))
    && (r.phase.Acking? ==> r.phase.ids <= s.applied + Primary(r) && e in s.outcomes && Durable(s.outcomes[e]))
    && (e in s.outcomes ==> r.phase.Acking? || r.phase.Transferring? || r.phase.Over?)
  }

  ghost predicate RunsOk(s: State) {
    (forall e :: At(s, e) ==> RunOk(s, e)) && forall e :: e in s.outcomes ==> At(s, e)
  }

  ghost predicate Inv(s: State) {
    RunsOk(s) && forall id :: id in s.ledger && s.ledger[id].consumed ==> Justified(s, id)
  }

  // ----- One step -----

  /** Rows are neither lost nor rewritten, and a consumed row stays consumed. */
  ghost predicate LedgerGrows(before: Ledger, after: Ledger) {
    forall id :: id in before ==>
      id in after && after[id].kind == before[id].kind && (before[id].consumed ==> after[id].consumed)
  }

  lemma {:induction false} StepGrowsLedger(s: State, a: Action)
    ensures LedgerGrows(s.ledger, Step(s, a).ledger) && s.applied <= Step(s, a).applied
  {
  }

  /** The actions that consume a command. */
  predicate Consumes(s: State, a: Action, id: CommandId) {
    match a
    case Replay(e, x) => x == id && At(s, e) && s.runs[e].phase.Replaying? && id in s.runs[e].phase.ids
    case Ack(e, x) => x == id && At(s, e) && s.runs[e].phase.Acking? && id in s.runs[e].phase.ids
    case DropMalformed(x) => x == id && id in s.ledger && Malformed(s.ledger[id])
    case _ => false
  }

  lemma {:induction false} OnlyTheseConsume(s: State, a: Action, id: CommandId)
    requires id in Step(s, a).ledger && Step(s, a).ledger[id].consumed && (id !in s.ledger || !s.ledger[id].consumed)
    ensures id in s.ledger && Consumes(s, a, id)
    ensures a.Ack? ==> s.ledger[id].owner == Some(a.e)
  {
  }

  lemma {:induction false} ClaimStepKeepsRun(s: State, a: Action, e: ExecutionId)
    requires RunsOk(s) && At(ClaimStep(s, a), e)
    ensures RunOk(ClaimStep(s, a), e)
  {
    if At(s, e) {
      assert RunOk(s, e);
    }
  }

  lemma {:induction false} StreamStepKeepsRun(s: State, a: Action, e: ExecutionId)
    requires RunsOk(s) && At(StreamStep(s, a), e)
    ensures RunOk(StreamStep(s, a), e)
  {
    assert RunOk(s, e);
  }

  lemma {:induction false} FinishStepKeepsRun(s: State, a: Action, e: ExecutionId)
    requires RunsOk(s) && At(FinishStep(s, a), e)
    ensures RunOk(FinishStep(s, a), e)
  {
    assert RunOk(s, e);
  }

  lemma {:induction false} StepKeepsRuns(s: State, a: Action)
    requires RunsOk(s)
    ensures RunsOk(Step(s, a))
  {
    forall e | At(Step(s, a), e) ensures RunOk(Step(s, a), e) {
      if Step(s, a) == ClaimStep(s, a) {
        ClaimStepKeepsRun(s, a, e);
      } else if Step(s, a) == StreamStep(s, a) {
        StreamStepKeepsRun(s, a, e);
      } else if Step(s, a) == FinishStep(s, a) {
        FinishStepKeepsRun(s, a, e);
      } else {
        assert RunOk(s, e);
      }
    }
  }

  lemma {:induction false} StepKeepsOwned(s: State, a: Action, id: CommandId, e: ExecutionId)
    requires RunsOk(s) && Owned(s, id, e)
    ensures Owned(Step(s, a), id, e)
  {
    assert RunOk(s, e);
  }

  lemma {:induction false} StepKeepsJustified(s: State, a: Action, id: CommandId)
    requires RunsOk(s) && Justified(s, id)
    ensures Justified(Step(s, a), id)
  {
    StepGrowsLedger(s, a);
    if e :| Owned(s, id, e) {
      StepKeepsOwned(s, a, id, e);
    }
  }

  lemma {:induction false} ConsumingIsJustified(s: State, a: Action, id: CommandId)
    requires RunsOk(s) && Consumes(s, a, id)
    ensures Justified(s, id)
  {
    if a.Replay? || a.Ack? {
      assert RunOk(s, a.e);
      if id !in s.applied {
        assert Owned(s, id, a.e);
      }
    }
  }

  lemma {:induction false} StepKeepsInv(s: State, a: Action)
    requires Inv(s)
    ensures Inv(Step(s, a))
  {
    var t := Step(s, a);
    StepKeepsRuns(s, a);
    forall id | id in t.ledger && t.ledger[id].consumed ensures Justified(t, id) {
      if id !in s.ledger || !s.ledger[id].consumed {
        OnlyTheseConsume(s, a, id);
        ConsumingIsJustified(s, a, id);
      }
      StepKeepsJustified(s, a, id);
    }
  }

  // ----- Every run -----

  lemma {:induction false} RunKeepsInv(s: State, actions: seq<Action>)
    requires Inv(s)
    ensures Inv(After(s, actions))
  {
    if actions != [] {
      RunKeepsInv(s, actions[..|actions| - 1]);
      StepKeepsInv(After(s, actions[..|actions| - 1]), actions[|actions| - 1]);
    }
  }

  /** Whatever the interleaving and the crashes since the first execution, a consumed command is
      in the checkpoint, or it is the primary command of an execution that won both claims and
      persisted a durable outcome, or it is an answer to no interaction. */
  lemma {:induction false} ConsumedMeansApplied(s: State, actions: seq<Action>, id: CommandId)
    requires Initial(s)
    ensures var t := After(s, actions);
      id in t.ledger && t.ledger[id].consumed && !Malformed(t.ledger[id]) ==>
        id in t.applied || exists e :: Owned(t, id, e)
  {
    RunKeepsInv(s, actions);
  }

  /** No accepted command is lost: from the moment it is in the ledger, a well-formed command that
      is in no checkpoint and nobody's primary with a durable outcome stays there, unconsumed. */
  lemma {:induction false} AcceptedCommandsAreNeverLost(s: State, actions: seq<Action>, id: CommandId)
    requires Inv(s) && id in s.ledger && !Malformed(s.ledger[id])
    ensures var t := After(s, actions);
      && id in t.ledger && t.ledger[id].kind == s.ledger[id].kind
      && (id !in t.applied && !(exists e :: Owned(t, id, e)) ==> !t.ledger[id].consumed)
  {
    RunKeepsInv(s, actions);
    RunGrowsLedger(s, actions);
  }

  lemma {:induction false} RunGrowsLedger(s: State, actions: seq<Action>)
    ensures LedgerGrows(s.ledger, After(s, actions).ledger) && s.applied <= After(s, actions).applied
  {
    if actions != [] {
      RunGrowsLedger(s, actions[..|actions| - 1]);
      StepGrowsLedger(After(s, actions[..|actions| - 1]), actions[|actions| - 1]);
    }
  }

  // ----- Losers -----

  /** The execution a step belongs to. */
  function Actor(a: Action): Option<ExecutionId> {
    match a
    case Replay(e, _) => Some(e)
    case Ack(e, _) => Some(e)
    case _ => None
  }

  /** An execution that has not won both of its claims consumes nothing. */
  lemma {:induction false} LosersConsumeNothing(s: State, actions: seq<Action>, a: Action, e: ExecutionId, id: CommandId)
    requires Inv(s) && Actor(a) == Some(e) && id in After(s, actions).ledger
    requires var t := After(s, actions);
      !At(t, e) || !t.runs[e].wonTask || (t.runs[e].primary.Some? && !t.runs[e].wonCommand)
    ensures Step(After(s, actions), a).ledger[id] == After(s, actions).ledger[id]
  {
    var t := After(s, actions);
    RunKeepsInv(s, actions);
    if At(t, e) {
      assert RunOk(t, e);
    }
  }

  // ----- A live owner -----

  /** Between winning both claims and the end. */
  predicate Working(p: Phase) {
    !p.Looked? && !p.HoldsCommand? && !p.Ready? && !p.LostTask? && !p.Over?
  }

  /** The row was delivered to the execution, which is at work on it as its primary command, and the
      lease has not run out. */
  predicate Holds(s: State, e: ExecutionId, id: CommandId) {
    && At(s, e) && s.runs[e].primary == Some(id) && s.runs[e].wonTask && Working(s.runs[e].phase)
    && id in s.ledger && s.ledger[id].disposition == Delivered && s.ledger[id].owner == Some(e) && !s.ledger[id].consumed
    && s.ledger[id].deliveredAt.Some? && s.now <= s.ledger[id].deliveredAt.value + LEASE
  }

  /** The run does not steer with the command and, unless it is the owner's, is not between the two
      claims with it. */
  predicate Harmless(r: Run, id: CommandId, mine: bool) {
    id !in r.picked && (mine || r.primary != Some(id) || !(r.phase.HoldsCommand? || r.phase.LostTask?))
  }

  ghost predicate Unrivalled(s: State, e: ExecutionId, id: CommandId) {
    && (id in s.ledger ==> !s.ledger[id].steering)
    && forall f :: At(s, f) ==> Harmless(s.runs[f], id, f == e)
  }

  /** What a live owner keeps until the command is consumed or the execution is over. */
  ghost predicate Kept(s: State, e: ExecutionId, id: CommandId) {
    || (id in s.ledger && s.ledger[id].consumed)
    || (At(s, e) && s.runs[e].phase.Over?)
    || (Holds(s, e, id) && Unrivalled(s, e, id))
  }

  lemma {:induction false} ClaimStepStaysHarmless(s: State, a: Action, e: ExecutionId, f: ExecutionId, id: CommandId)
    requires Holds(s, e, id) && At(ClaimStep(s, a), f) && (At(s, f) ==> Harmless(s.runs[f], id, f == e))
    ensures Harmless(ClaimStep(s, a).runs[f], id, f == e)
  {
  }

  lemma {:induction false} StreamStepStaysHarmless(s: State, a: Action, e: ExecutionId, f: ExecutionId, id: CommandId)
    requires Holds(s, e, id) && !s.ledger[id].steering && At(s, f) && Harmless(s.runs[f], id, f == e)
    ensures Harmless(StreamStep(s, a).runs[f], id, f == e)
  {
  }

  lemma {:induction false} FinishStepStaysHarmless(s: State, a: Action, e: ExecutionId, f: ExecutionId, id: CommandId)
    requires At(s, f) && Harmless(s.runs[f], id, f == e)
    ensures Harmless(FinishStep(s, a).runs[f], id, f == e)
  {
  }

  lemma {:induction false} StepStaysHarmless(s: State, a: Action, e: ExecutionId, f: ExecutionId, id: CommandId)
    requires Holds(s, e, id) && Unrivalled(s, e, id) && At(Step(s, a), f)
    ensures Harmless(Step(s, a).runs[f], id, f == e)
  {
    assert At(s, f) ==> Harmless(s.runs[f], id, f == e);
    if a.Look? || a.TryCommand? || a.TryTask? || a.GiveBack? {
      ClaimStepStaysHarmless(s, a, e, f, id);
    } else if a.ReadFinal? || a.Persist? || a.Ack? || a.StartTransfer? || a.Transfer? {
      FinishStepStaysHarmless(s, a, e, f, id);
    } else if !(a.Accept? || a.Tick? || a.TaskChanges? || a.Crash? || a.DropMalformed?) {
      StreamStepStaysHarmless(s, a, e, f, id);
    }
  }

  /** What one step leaves of the row and of its owner. */
  ghost predicate RowKept(s: State, a: Action, t: State, e: ExecutionId, id: CommandId)
    requires id in s.ledger
  {
    id in t.ledger
    && (t.ledger[id].consumed
        || t.ledger[id] == s.ledger[id].(deliveredAt := if a == Beat(e) then Some(s.now) else s.ledger[id].deliveredAt))
  }

  lemma {:induction false} ClaimStepKeepsRow(s: State, a: Action, e: ExecutionId, id: CommandId)
    requires Holds(s, e, id) && (a.GiveBack? && At(s, a.e) ==> Harmless(s.runs[a.e], id, a.e == e)) && a != Beat(e)
    ensures RowKept(s, a, ClaimStep(s, a), e, id)
  {
  }

  lemma {:induction false} StreamStepKeepsRow(s: State, a: Action, e: ExecutionId, id: CommandId)
    requires Holds(s, e, id) && (a.Steer? && At(s, a.e) ==> Harmless(s.runs[a.e], id, a.e == e))
    ensures RowKept(s, a, StreamStep(s, a), e, id)
  {
  }

  lemma {:induction false} FinishStepKeepsRow(s: State, a: Action, e: ExecutionId, id: CommandId)
    requires Holds(s, e, id) && !s.ledger[id].steering && a != Beat(e)
    ensures RowKept(s, a, FinishStep(s, a), e, id)
  {
  }

  lemma {:induction false} StepKeepsRow(s: State, a: Action, e: ExecutionId, id: CommandId)
    requires Holds(s, e, id) && Unrivalled(s, e, id)
    ensures RowKept(s, a, Step(s, a), e, id)
  {
    if a.Look? || a.TryCommand? || a.TryTask? || a.GiveBack? {
      ClaimStepKeepsRow(s, a, e, id);
    } else if a.ReadFinal? || a.Persist? || a.Ack? || a.StartTransfer? || a.Transfer? {
      FinishStepKeepsRow(s, a, e, id);
    } else if !(a.Accept? || a.Tick? || a.TaskChanges? || a.Crash? || a.DropMalformed?) {
      StreamStepKeepsRow(s, a, e, id);
    }
  }

  lemma {:induction false} StepKeepsOwner(s: State, a: Action, e: ExecutionId, id: CommandId)
    requires Holds(s, e, id)
    ensures var t := Step(s, a);
      && At(t, e) && t.runs[e].primary == Some(id) && t.runs[e].wonTask
      && (Working(t.runs[e].phase) || t.runs[e].phase.Over?)
      && t.now == s.now + if a.Tick? then a.seconds else 0
  {
  }

  /** Seconds that have passed since the last heartbeat of an execution, or since the start. */
  function Since(actions: seq<Action>, e: ExecutionId): nat {
    if actions == [] then 0
    else
      var last, before := actions[|actions| - 1], Since(actions[..|actions| - 1], e);
      if last == Beat(e) then 0 else if last.Tick? then before + last.seconds else before
  }

  /** The owner never lets a lease run out. */
  ghost predicate BeatsInTime(actions: seq<Action>, e: ExecutionId) {
    forall n :: 0 <= n <= |actions| ==> Since(actions[..n], e) <= LEASE
  }

  ghost predicate KeptSince(s: State, e: ExecutionId, id: CommandId, seconds: nat) {
    Kept(s, e, id)
    && (Holds(s, e, id) ==> s.ledger[id].deliveredAt.value + seconds >= s.now)
  }

  lemma {:induction false} StepKeepsHold(s: State, a: Action, e: ExecutionId, id: CommandId, before: nat, after: nat)
    requires KeptSince(s, e, id, before) && after <= LEASE
    requires after == (if a == Beat(e) then 0 else if a.Tick? then before + a.seconds else before)
    ensures KeptSince(Step(s, a), e, id, after)
  {
    if Holds(s, e, id) && Unrivalled(s, e, id) {
      StepKeepsRow(s, a, e, id);
      StepKeepsOwner(s, a, e, id);
      forall f | At(Step(s, a), f) ensures Harmless(Step(s, a).runs[f], id, f == e) {
        StepStaysHarmless(s, a, e, f, id);
      }
    } else if id in s.ledger && s.ledger[id].consumed {
      StepGrowsLedger(s, a);
    } else {
      OverStays(s, a, e);
    }
  }

  lemma {:induction false} OverStays(s: State, a: Action, e: ExecutionId)
    requires At(s, e) && s.runs[e].phase.Over?
    ensures At(Step(s, a), e) && Step(s, a).runs[e].phase.Over?
  {
  }

  lemma {:induction false} RunKeepsHold(s: State, actions: seq<Action>, e: ExecutionId, id: CommandId)
    requires Holds(s, e, id) && Unrivalled(s, e, id) && s.ledger[id].deliveredAt == Some(s.now)
    requires BeatsInTime(actions, e)
    ensures KeptSince(After(s, actions), e, id, Since(actions, e))
  {
    if actions != [] {
      var n := |actions|;
      var init := actions[..n - 1];
      assert BeatsInTime(init, e) by {
        forall k | 0 <= k <= n - 1 ensures Since(init[..k], e) <= LEASE {
          assert init[..k] == actions[..k];
        }
      }
      RunKeepsHold(s, init, e, id);
      assert actions[..n] == actions;
      StepKeepsHold(After(s, init), actions[n - 1], e, id, Since(init, e), Since(actions, e));
    }
  }

  /** As long as a heartbeat comes within every lease, the execution at work on a command keeps it over
      any interleaving: until the command is consumed or the execution is over, it owns the row and
      nobody else can claim it. */
  lemma {:induction false} HeartbeatKeepsOwnership(s: State, actions: seq<Action>, e: ExecutionId, id: CommandId, other: ExecutionId)
    requires Holds(s, e, id) && Unrivalled(s, e, id) && s.ledger[id].deliveredAt == Some(s.now)
    requires BeatsInTime(actions, e) && other != e
    ensures var t := After(s, actions);
      && id in t.ledger && At(t, e)
      && (t.ledger[id].consumed || t.runs[e].phase.Over? || (t.ledger[id].owner == Some(e) && !Claimable(t.ledger[id], other, t.now)))
  {
    RunKeepsHold(s, actions, e, id);
    RunGrowsLedger(s, actions);
    RunKeepsRuns(s, actions, e);
  }

  lemma {:induction false} RunKeepsRuns(s: State, actions: seq<Action>, e: ExecutionId)
    requires At(s, e)
    ensures At(After(s, actions), e)
  {
    if actions != [] {
      RunKeepsRuns(s, actions[..|actions| - 1], e);
    }
  }

  // ----- An abandoned command -----

  lemma {:induction false} AfterSnoc(s: State, actions: seq<Action>, a: Action)
    ensures After(s, actions + [a]) == Step(After(s, actions), a)
  {
    assert (actions + [a])[..|actions|] == actions;
  }

  function Replays(e: ExecutionId, ids: seq<CommandId>): seq<Action> {
    if ids == [] then [] else Replays(e, ids[..|ids| - 1]) + [Replay(e, ids[|ids| - 1])]
  }

  function Members(ids: seq<CommandId>): set<CommandId> {
    if ids == [] then {} else Members(ids[..|ids| - 1]) + {ids[|ids| - 1]}
  }

  /** How an execution that no crash interrupts ends: its graph ends, or it breaks. */
  datatype End = Ends(outcome: Outcome) | Breaks(outcome: Outcome)

  /** Everything such an execution does: it takes over the command, replays the checkpoint and ends. */
  function Claiming(e: ExecutionId, id: CommandId): seq<Action> {
    [Tick(LEASE + 1)] + [Look(e, Some(id))] + [TryCommand(e)] + [TryTask(e)]
  }

  function Ending(e: ExecutionId, id: CommandId, end: End): seq<Action> {
    match end
    case Ends(outcome) => [StartStreaming(e)] + [ReadFinal(e, outcome)] + [Persist(e)] + [Ack(e, id)]
    case Breaks(outcome) => [StartStreaming(e)] + [Fail(e, outcome)]
  }

  function Alone(e: ExecutionId, id: CommandId, ids: seq<CommandId>, end: End): seq<Action> {
    Claiming(e, id) + ([ReadCheckpoint(e)] + Replays(e, ids)) + Ending(e, id, end)
  }

  lemma {:induction false} AfterSplits(s: State, a: seq<Action>, b: seq<Action>)
    ensures After(s, a + b) == After(After(s, a), b)
  {
    if b == [] {
      assert a + b == a;
    } else {
      var init, last := b[..|b| - 1], b[|b| - 1];
      assert a + b == (a + init) + [last];
      AfterSplits(s, a, init);
      AfterSnoc(s, a + init, last);
    }
  }

  lemma {:induction false} AfterFour(s: State, a: Action, b: Action, c: Action, d: Action)
    ensures After(s, [a] + [b] + [c] + [d]) == Step(Step(Step(Step(s, a), b), c), d)
  {
    assert [] + [a] == [a];
    AfterSnoc(s, [], a);
    AfterSnoc(s, [a], b);
    AfterSnoc(s, [a] + [b], c);
    AfterSnoc(s, [a] + [b] + [c], d);
  }

  lemma {:induction false} AfterTwo(s: State, a: Action, b: Action)
    ensures After(s, [a] + [b]) == Step(Step(s, a), b)
  {
    assert [] + [a] == [a];
    AfterSnoc(s, [], a);
    AfterSnoc(s, [a], b);
  }

  lemma {:induction false} ClaimingWinsIff(s: State, e: ExecutionId, id: CommandId)
    requires !At(s, e) && id in s.ledger && !s.ledger[id].consumed
    requires s.ledger[id].deliveredAt.Some? ==> s.ledger[id].deliveredAt.value <= s.now
    ensures var t := After(s, Claiming(e, id));
      && At(t, e) && t.runs[e].primary == Some(id) && id in t.ledger && !t.ledger[id].consumed && t.applied == s.applied
      && t.ledger[id].owner == Some(e)
      && (if TaskClaimable(s.task, Reclaims(s.ledger[id], e)) then t.runs[e].phase == Started else t.runs[e].phase == LostTask)
  {
    AfterFour(s, Tick(LEASE + 1), Look(e, Some(id)), TryCommand(e), TryTask(e));
    var s0 := Step(s, Tick(LEASE + 1));
    var s1 := Step(s0, Look(e, Some(id)));
    assert s1 == s0.(runs := s.runs[e := Run(Some(id), false, false, {}, Looked(s.ledger[id]))]);
    var s2 := Step(s1, TryCommand(e));
    assert s2.task == s.task && s2.runs[e].phase == HoldsCommand(Reclaims(s.ledger[id], e));
  }

  /** Replaying comes to an end, consumes what is in the checkpoint and leaves alone what is not. */
  lemma {:induction false} ReplaysEnd(s: State, e: ExecutionId, ids: seq<CommandId>, id: CommandId)
    requires At(s, e) && s.runs[e].phase.Replaying? && Members(ids) <= s.runs[e].phase.ids && NoRepeats(ids)
    requires id in s.ledger
    ensures var t := After(s, Replays(e, ids));
      At(t, e) && t.runs[e] == s.runs[e].(phase := Replaying(s.runs[e].phase.ids - Members(ids)))
      && Replayed(s, t, id, id in Members(ids))
  {
    if ids != [] {
      var init, last := ids[..|ids| - 1], ids[|ids| - 1];
      assert ids == init + [last];
      MembersAre(init, last);
      ReplaysEnd(s, e, init, id);
      AfterSnoc(s, Replays(e, init), Replay(e, last));
      OneReplay(After(s, Replays(e, init)), e, last, id);
      assert (s.runs[e].phase.ids - Members(init)) - {last} == s.runs[e].phase.ids - Members(ids);
    }
  }

  predicate Replayed(s: State, t: State, id: CommandId, consumed: bool) {
    id in s.ledger && id in t.ledger && t.applied == s.applied
    && if consumed then t.ledger[id].consumed else t.ledger[id] == s.ledger[id]
  }

  lemma {:induction false} OneReplay(s: State, e: ExecutionId, x: CommandId, id: CommandId)
    requires At(s, e) && s.runs[e].phase.Replaying? && x in s.runs[e].phase.ids && id in s.ledger
    ensures var t := Step(s, Replay(e, x));
      && At(t, e) && t.runs[e] == s.runs[e].(phase := Replaying(s.runs[e].phase.ids - {x}))
      && Replayed(s, t, id, x == id) && (s.ledger[id].consumed ==> t.ledger[id].consumed)
  {
  }

  predicate NoRepeats(ids: seq<CommandId>) {
    forall i, j :: 0 <= i < j < |ids| ==> ids[i] != ids[j]
  }

  lemma {:induction false} MembersAre(ids: seq<CommandId>, id: CommandId)
    ensures id in Members(ids) <==> id in ids
  {
    if ids != [] {
      MembersAre(ids[..|ids| - 1], id);
      assert ids == ids[..|ids| - 1] + [ids[|ids| - 1]];
    }
  }

  /** The stream and the stored outcome. */
  function Stored(s: State, e: ExecutionId, outcome: Outcome): State
    requires At(s, e)
  {
    MoveTo(s, e, if Durable(outcome) then Acking(s.applied + Primary(s.runs[e])) else Over).(outcomes := s.outcomes[e := outcome])
  }

  lemma {:induction false} StoringIs(s: State, e: ExecutionId, outcome: Outcome)
    requires At(s, e) && s.runs[e].phase == Replaying({}) && IsFinal(outcome)
    ensures Step(Step(Step(s, StartStreaming(e)), ReadFinal(e, outcome)), Persist(e)) == Stored(s, e, outcome)
  {
    var s1, s2 := MoveTo(s, e, Streaming), MoveTo(s, e, Finishing(outcome, s.applied + Primary(s.runs[e])));
    assert Step(s, StartStreaming(e)) == s1;
    MovedTwice(s, e, Streaming, s2.runs[e].phase);
    assert Step(s1, ReadFinal(e, outcome)) == s2;
    MovedTwice(s, e, s2.runs[e].phase, Stored(s, e, outcome).runs[e].phase);
  }

  lemma {:induction false} MovedTwice(s: State, e: ExecutionId, a: Phase, b: Phase)
    requires At(s, e)
    ensures MoveTo(MoveTo(s, e, a), e, b) == MoveTo(s, e, b)
  {
    assert MoveTo(MoveTo(s, e, a), e, b).runs == MoveTo(s, e, b).runs;
  }

  lemma {:induction false} EndingConsumesIff(s: State, e: ExecutionId, id: CommandId, end: End)
    requires At(s, e) && s.runs[e].primary == Some(id) && id in s.ledger && s.runs[e].phase == Replaying({})
    requires s.ledger[id].consumed || s.ledger[id].owner == Some(e)
    ensures var t := After(s, Ending(e, id, end));
      id in t.ledger && (t.ledger[id].consumed <==> s.ledger[id].consumed || (end.Ends? && Durable(end.outcome)))
  {
    match end
    case Ends(outcome) =>
      AfterFour(s, StartStreaming(e), ReadFinal(e, outcome), Persist(e), Ack(e, id));
      if IsFinal(outcome) {
        StoringIs(s, e, outcome);
        AckOfStored(s, e, id, outcome);
      } else {
        NothingFinal(s, e, id, outcome);
      }
    case Breaks(outcome) =>
      AfterTwo(s, StartStreaming(e), Fail(e, outcome));
      BreakingKeepsRows(s, e, outcome);
  }

  lemma {:induction false} AckOfStored(s: State, e: ExecutionId, id: CommandId, outcome: Outcome)
    requires At(s, e) && s.runs[e].primary == Some(id) && id in s.ledger
    requires s.ledger[id].consumed || s.ledger[id].owner == Some(e)
    ensures var t := Step(Stored(s, e, outcome), Ack(e, id));
      id in t.ledger && (t.ledger[id].consumed <==> s.ledger[id].consumed || Durable(outcome))
  {
    assert Stored(s, e, outcome).ledger == s.ledger;
  }

  lemma {:induction false} NothingFinal(s: State, e: ExecutionId, id: CommandId, outcome: Outcome)
    requires At(s, e) && s.runs[e].phase == Replaying({}) && !IsFinal(outcome)
    ensures Step(Step(Step(Step(s, StartStreaming(e)), ReadFinal(e, outcome)), Persist(e)), Ack(e, id)).ledger == s.ledger
  {
    var s1 := Step(s, StartStreaming(e));
    assert s1.runs[e].phase == Streaming && s1.ledger == s.ledger;
    assert Step(s1, ReadFinal(e, outcome)) == s1;
    assert Step(s1, Persist(e)) == s1;
  }

  lemma {:induction false} BreakingKeepsRows(s: State, e: ExecutionId, outcome: Outcome)
    requires At(s, e) && s.runs[e].phase == Replaying({})
    ensures Step(Step(s, StartStreaming(e)), Fail(e, outcome)).ledger == s.ledger
  {
    assert Step(s, StartStreaming(e)).ledger == s.ledger;
  }

  lemma {:induction false} IdleEnding(s: State, e: ExecutionId, id: CommandId, end: End)
    requires At(s, e) && s.runs[e].phase == LostTask
    ensures After(s, Ending(e, id, end)) == s
  {
    match end
    case Ends(outcome) =>
      AfterFour(s, StartStreaming(e), ReadFinal(e, outcome), Persist(e), Ack(e, id));
      IdleStep(s, e, StartStreaming(e));
      IdleStep(s, e, ReadFinal(e, outcome));
      IdleStep(s, e, Persist(e));
      IdleStep(s, e, Ack(e, id));
    case Breaks(outcome) =>
      AfterTwo(s, StartStreaming(e), Fail(e, outcome));
      IdleStep(s, e, StartStreaming(e));
      IdleStep(s, e, Fail(e, outcome));
  }

  lemma {:induction false} IdleStep(s: State, e: ExecutionId, a: Action)
    requires At(s, e) && s.runs[e].phase == LostTask
    requires (a.StartStreaming? || a.Fail? || a.ReadFinal? || a.Persist? || a.Ack? || a.ReadCheckpoint? || a.Replay?) && a.e == e
    ensures Step(s, a) == s
  {
  }

  lemma {:induction false} IdleReplays(s: State, e: ExecutionId, ids: seq<CommandId>)
    requires At(s, e) && s.runs[e].phase == LostTask
    ensures After(s, [ReadCheckpoint(e)] + Replays(e, ids)) == s
  {
    if ids == [] {
      IdleStep(s, e, ReadCheckpoint(e));
      assert [] + [ReadCheckpoint(e)] == [ReadCheckpoint(e)] + [];
      AfterSnoc(s, [], ReadCheckpoint(e));
    } else {
      var init, last := ids[..|ids| - 1], ids[|ids| - 1];
      IdleReplays(s, e, init);
      IdleStep(s, e, Replay(e, last));
      assert [ReadCheckpoint(e)] + Replays(e, ids) == ([ReadCheckpoint(e)] + Replays(e, init)) + [Replay(e, last)];
      AfterSnoc(s, [ReadCheckpoint(e)] + Replays(e, init), Replay(e, last));
    }
  }

  /** A command that was left unfinished, by whomever and however, is consumed by the next execution
      that no crash interrupts, if and only if the task can be claimed and the command is already in the
      checkpoint or the graph ends completed or waiting. A task still marked running can be claimed for
      a row that was delivered to somebody, not as steering, and for no other. */
  lemma {:induction false} AbandonedIsFinishedIff(s: State, e: ExecutionId, id: CommandId, ids: seq<CommandId>, end: End)
    requires !At(s, e) && id in s.ledger && !s.ledger[id].consumed
    requires s.ledger[id].deliveredAt.Some? ==> s.ledger[id].deliveredAt.value <= s.now
    requires Members(ids) == s.applied && NoRepeats(ids)
    ensures var t := After(s, Alone(e, id, ids, end));
      id in t.ledger &&
      (t.ledger[id].consumed <==>
         TaskClaimable(s.task, Reclaims(s.ledger[id], e)) && (id in s.applied || (end.Ends? && Durable(end.outcome))))
  {
    var middle := [ReadCheckpoint(e)] + Replays(e, ids);
    AfterSplits(s, Claiming(e, id) + middle, Ending(e, id, end));
    AfterSplits(s, Claiming(e, id), middle);
    ClaimingWinsIff(s, e, id);
    var won := After(s, Claiming(e, id));
    if won.runs[e].phase == LostTask {
      IdleReplays(won, e, ids);
      IdleEnding(won, e, id, end);
    } else {
      CheckpointIsReplayed(won, e, id, ids);
      EndingConsumesIff(After(won, middle), e, id, end);
    }
  }

  lemma {:induction false} CheckpointIsReplayed(s: State, e: ExecutionId, id: CommandId, ids: seq<CommandId>)
    requires At(s, e) && s.runs[e].phase == Started && id in s.ledger
    requires Members(ids) == s.applied && NoRepeats(ids)
    ensures var t := After(s, [ReadCheckpoint(e)] + Replays(e, ids));
      At(t, e) && t.runs[e] == s.runs[e].(phase := Replaying({})) && Replayed(s, t, id, id in s.applied)
  {
    var read := MoveTo(s, e, Replaying(s.applied));
    ReadingIs(s, e);
    AfterSplits(s, [ReadCheckpoint(e)], Replays(e, ids));
    ReplaysEnd(read, e, ids, id);
    assert s.applied - Members(ids) == {};
  }

  lemma {:induction false} ReadingIs(s: State, e: ExecutionId)
    requires At(s, e) && s.runs[e].phase == Started
    ensures After(s, [ReadCheckpoint(e)]) == MoveTo(s, e, Replaying(s.applied))
  {
    assert [] + [ReadCheckpoint(e)] == [ReadCheckpoint(e)];
    AfterSnoc(s, [], ReadCheckpoint(e));
  }

  // ----- A late release -----

  /** An acknowledgement consumes exactly the rows that still belong to the execution. */
  lemma {:induction false} AckConsumesIff(s: State, e: ExecutionId, id: CommandId)
    requires At(s, e) && s.runs[e].phase.Acking? && id in s.runs[e].phase.ids && id in s.ledger && !s.ledger[id].consumed
    ensures Step(s, Ack(e, id)).ledger[id].consumed <==> s.ledger[id].owner == Some(e)
  {
  }

  const WAITING := State(map["c" := Command(Message, false, Pending, None, None, false)], Task(Busy, Open, None), {}, map[], map[], 0)

  /** The loser claims the command but not the running task; its lease runs out before its release. */
  const LOSING := [Look("loser", Some("c"))] + [TryCommand("loser")] + [TryTask("loser")] + [Tick(LEASE + 1)]
  const WINNING := [Look("winner", Some("c"))] + [TryCommand("winner")] + [TryTask("winner")] + [ReadCheckpoint("winner")]
  const ENDING := [StartStreaming("winner")] + [ReadFinal("winner", Completed)] + [Persist("winner")]

  lemma {:induction false} LosingIs()
    ensures var s := After(WAITING, LOSING);
      && s.now == LEASE + 1 && s.task == WAITING.task && s.applied == {}
      && s.ledger == map["c" := Command(Message, false, Delivered, Some("loser"), Some(0), false)]
      && s.runs == map["loser" := Run(Some("c"), true, false, {}, LostTask)]
  {
    AfterFour(WAITING, Look("loser", Some("c")), TryCommand("loser"), TryTask("loser"), Tick(LEASE + 1));
    var s1 := Step(WAITING, Look("loser", Some("c")));
    var s2 := Step(s1, TryCommand("loser"));
    assert s2.runs["loser"] == Run(Some("c"), true, false, {}, HoldsCommand(false));
  }

  /** The rows of a race that the second execution is about to win. */
  predicate Raced(s: State, mine: Run) {
    && s.applied == {} && "c" in s.ledger
    && s.ledger["c"] == Command(Message, false, Delivered, Some("winner"), Some(LEASE + 1), false)
    && At(s, "winner") && s.runs["winner"] == mine
    && At(s, "loser") && s.runs["loser"] == Run(Some("c"), true, false, {}, LostTask)
  }

  lemma {:induction false} WinningIs(s: State)
    requires s.now == LEASE + 1 && s.task == WAITING.task && s.applied == {}
    requires s.ledger == map["c" := Command(Message, false, Delivered, Some("loser"), Some(0), false)]
    requires s.runs == map["loser" := Run(Some("c"), true, false, {}, LostTask)]
    ensures Raced(After(s, WINNING), Run(Some("c"), true, true, {}, Replaying({})))
  {
    AfterFour(s, Look("winner", Some("c")), TryCommand("winner"), TryTask("winner"), ReadCheckpoint("winner"));
    var s1 := Step(s, Look("winner", Some("c")));
    var s2 := Step(s1, TryCommand("winner"));
    assert Raced(s2, Run(Some("c"), true, false, {}, HoldsCommand(true)));
    var s3 := Step(s2, TryTask("winner"));
    assert Raced(s3, Run(Some("c"), true, true, {}, Started));
  }

  lemma {:induction false} EndingIs(s: State)
    requires Raced(s, Run(Some("c"), true, true, {}, Replaying({})))
    ensures var t := After(s, ENDING);
      Raced(t, Run(Some("c"), true, true, {}, Acking({"c"}))) && "winner" in t.outcomes && t.outcomes["winner"] == Completed
  {
    assert [] + [StartStreaming("winner")] == [StartStreaming("winner")];
    AfterSnoc(s, [], StartStreaming("winner"));
    AfterSnoc(s, [StartStreaming("winner")], ReadFinal("winner", Completed));
    AfterSnoc(s, [StartStreaming("winner")] + [ReadFinal("winner", Completed)], Persist("winner"));
    StoringIs(s, "winner", Completed);
    assert {} + {"c"} == {"c"};
  }

  /** The winner has stored its outcome; the loser has not yet given the command back. */
  const RACE := LOSING + WINNING + ENDING

  lemma {:induction false} RaceIs()
    ensures var t := After(WAITING, RACE);
      Raced(t, Run(Some("c"), true, true, {}, Acking({"c"}))) && "winner" in t.outcomes && t.outcomes["winner"] == Completed
  {
    AfterSplits(WAITING, LOSING + WINNING, ENDING);
    AfterSplits(WAITING, LOSING, WINNING);
    LosingIs();
    WinningIs(After(WAITING, LOSING));
    EndingIs(After(WAITING, LOSING + WINNING));
  }

  predicate HasRow(s: State, disposition: Disposition, consumed: bool) {
    "c" in s.ledger && s.ledger["c"].disposition == disposition && s.ledger["c"].consumed == consumed
  }

  /** The release does not ask who owns the row. In this run the loser gives the command back only
      after the winner has taken it over, answered it and stored the outcome: the acknowledgement
      consumes nothing and the command will run again. Without the release it consumes the command. */
  lemma {:induction false} LateReleaseMakesTheAckMiss()
    ensures Initial(WAITING)
    ensures var late := After(WAITING, RACE + [GiveBack("loser")] + [Ack("winner", "c")]);
      Owned(late, "c", "winner") && HasRow(late, TransferPending, false)
    ensures HasRow(After(WAITING, RACE + [Ack("winner", "c")]), Applied, true)
  {
    RaceIs();
    AfterSnoc(WAITING, RACE + [GiveBack("loser")], Ack("winner", "c"));
    AfterSnoc(WAITING, RACE, GiveBack("loser"));
    AfterSnoc(WAITING, RACE, Ack("winner", "c"));
    LateRelease(After(WAITING, RACE));
  }

  lemma {:induction false} LateRelease(s: State)
    requires Raced(s, Run(Some("c"), true, true, {}, Acking({"c"}))) && "winner" in s.outcomes && s.outcomes["winner"] == Completed
    ensures var late := Step(Step(s, GiveBack("loser")), Ack("winner", "c"));
      Owned(late, "c", "winner") && HasRow(late, TransferPending, false)
    ensures HasRow(Step(s, Ack("winner", "c")), Applied, true)
  {
    var freed := Step(s, GiveBack("loser"));
    AckConsumesIff(freed, "winner", "c");
    AckConsumesIff(s, "winner", "c");
    assert freed.runs["winner"] == s.runs["winner"] && freed.ledger["c"].owner == None;
  }
}
