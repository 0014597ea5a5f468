/** The goal stack: a learner's goals bottom-up, and an undo record for every change. */
module GoalStacks {
  import opened Wrappers

  datatype GoalKind = LongTerm | CurrentGoal | Interrupt
  datatype GoalStatus = Open | Satisfied | Abandoned

  datatype Goal = Goal(id: string, kind: GoalKind, goalType: string, topic: string, knowledgePoints: seq<string>,
                       expectedOutcome: string, constraints: seq<string>, urgency: real, status: GoalStatus,
                       satisfiedWhen: map<string, string>, createdBy: string, rawUtterance: string, pushedAt: int)

  /** The dictionary form; any entry may be missing. */
  datatype Record = Record(id: Option<string>, kind: Option<GoalKind>, goalType: Option<string>, topic: Option<string>,
                           knowledgePoints: Option<seq<string>>, expectedOutcome: Option<string>,
                           constraints: Option<seq<string>>, urgency: Option<real>, status: Option<GoalStatus>,
                           satisfiedWhen: Option<map<string, string>>, createdBy: Option<string>,
                           rawUtterance: Option<string>, pushedAt: Option<int>)

  // ----- Storing and reading back -----

  function ToRecord(g: Goal): Record {
    Record(Some(g.id), Some(g.kind), Some(g.goalType), Some(g.topic), Some(g.knowledgePoints), Some(g.expectedOutcome),
           Some(g.constraints), Some(g.urgency), Some(g.status), Some(g.satisfiedWhen), Some(g.createdBy),
           Some(g.rawUtterance), Some(g.pushedAt))
  }

  /** A missing or empty text falls back to a default. */
  function TextOr(x: Option<string>, default_: string): string {
    if x.Some? && x.value != "" then x.value else default_
  }

  function ValueOr<T>(x: Option<T>, default_: T): T {
    if x.Some? then x.value else default_
  }

  /** A drawn id is never empty. */
  type Id = s: string | s != "" witness "goal"

  /** The ids and times drawn for the items of a list that have none. */
  type Draws = nat -> (Id, int)

  function FromRecord(r: Record, newId: Id, now: int): Goal {
    Goal(TextOr(r.id, newId), ValueOr(r.kind, CurrentGoal), TextOr(r.goalType, "learn"), TextOr(r.topic, ""),
         ValueOr(r.knowledgePoints, []), TextOr(r.expectedOutcome, ""), ValueOr(r.constraints, []),
         if r.urgency.Some? && r.urgency.value != 0.0 then r.urgency.value else 0.5,
         ValueOr(r.status, Open), ValueOr(r.satisfiedWhen, map[]), TextOr(r.createdBy, "goal_interpreter"),
         TextOr(r.rawUtterance, ""), ValueOr(r.pushedAt, now))
  }

  /** A goal survives storing exactly when it has an id, a type and a creator, and its urgency is
      not zero: zero is read back as one half. */
  predicate Normal(g: Goal) {
    g.id != "" && g.goalType != "" && g.createdBy != "" && g.urgency != 0.0
  }

  lemma {:induction false} GoalRoundTripIff(g: Goal, newId: Id, now: int)
    ensures FromRecord(ToRecord(g), newId, now) == g <==> Normal(g)
  {
  }

  function ToList(goals: seq<Goal>): seq<Record> {
    seq(|goals|, i requires 0 <= i < |goals| => ToRecord(goals[i]))
  }

  function FromList(records: seq<Record>, draws: Draws): seq<Goal> {
    seq(|records|, i requires 0 <= i < |records| => FromRecord(records[i], draws(i).0, draws(i).1))
  }

  ghost predicate AllNormal(goals: seq<Goal>) {
    forall i :: 0 <= i < |goals| ==> Normal(goals[i])
  }

  /** A stack of normal goals can be rebuilt from any record of it, and only such a stack can. */
  lemma {:induction false} StackRoundTripIff(goals: seq<Goal>, draws: Draws)
    ensures FromList(ToList(goals), draws) == goals <==> AllNormal(goals)
  {
    var again := FromList(ToList(goals), draws);
    forall i | 0 <= i < |goals| ensures again[i] == goals[i] <==> Normal(goals[i]) {
      GoalRoundTripIff(goals[i], draws(i).0, draws(i).1);
    }
    if AllNormal(goals) {
      assert forall i :: 0 <= i < |goals| ==> again[i] == goals[i];
      assert again == goals;
    }
  }

  /** A record that says everything a goal has, and nothing that reads as missing. */
  predicate Complete(r: Record) {
    && r.id.Some? && r.kind.Some? && r.goalType.Some? && r.topic.Some? && r.knowledgePoints.Some? && r.expectedOutcome.Some?
    && r.constraints.Some? && r.urgency.Some? && r.status.Some? && r.satisfiedWhen.Some? && r.createdBy.Some?
    && r.rawUtterance.Some? && r.pushedAt.Some?
    && r.id.value != "" && r.goalType.value != "" && r.createdBy.value != "" && r.urgency.value != 0.0
  }

  ghost predicate AllComplete(records: seq<Record>) {
    forall i :: 0 <= i < |records| ==> Complete(records[i])
  }

  lemma {:induction false} ReadingOne(r: Record, newId: Id, now: int)
    ensures Normal(FromRecord(r, newId, now))
    ensures ToRecord(FromRecord(r, newId, now)) == r <==> Complete(r)
  {
  }

  lemma {:induction false} CompleteIffNormal(goals: seq<Goal>)
    ensures AllComplete(ToList(goals)) <==> AllNormal(goals)
  {
    forall i | 0 <= i < |goals| ensures Complete(ToList(goals)[i]) <==> Normal(goals[i]) {
    }
  }

  /** Whatever is stored, reading it gives normal goals; it gives back what is stored exactly when
      every record is complete. */
  lemma {:induction false} ReadingIsFaithfulIff(records: seq<Record>, draws: Draws)
    ensures AllNormal(FromList(records, draws))
    ensures ToList(FromList(records, draws)) == records <==> AllComplete(records)
  {
    var goals := FromList(records, draws);
    forall i | 0 <= i < |records|
      ensures Normal(goals[i]) && (ToList(goals)[i] == records[i] <==> Complete(records[i]))
    {
      ReadingOne(records[i], draws(i).0, draws(i).1);
    }
  }

  lemma {:induction false} SameRecordsSameGoals(a: seq<Goal>, b: seq<Goal>)
    ensures ToList(a) == ToList(b) <==> a == b
  {
    if ToList(a) == ToList(b) {
      assert |a| == |b|;
      forall i | 0 <= i < |a| ensures a[i] == b[i] {
        assert ToList(a)[i] == ToList(b)[i];
      }
    }
  }

  // ----- The operations on a list of goals -----

  /** The position of the topmost open goal among the first `n`. */
  function Topmost(goals: seq<Goal>, n: nat): (k: Option<nat>)
    requires n <= |goals|
    ensures k.Some? ==> k.value < n && goals[k.value].status == Open
    ensures forall i :: 0 <= i < n && goals[i].status == Open ==> k.Some? && i <= k.value
  {
    if n == 0 then None
    else if goals[n - 1].status == Open then Some(n - 1)
    else Topmost(goals, n - 1)
  }

  function Current(goals: seq<Goal>): Option<Goal> {
    match Topmost(goals, |goals|) case None => None case Some(k) => Some(goals[k])
  }

  /** The first position of a goal equal to the given one. */
  function IndexOf(goals: seq<Goal>, g: Goal): (k: nat)
    requires g in goals
    ensures k < |goals| && goals[k] == g && forall i :: 0 <= i < k ==> goals[i] != g
  {
    if goals[0] == g then 0 else 1 + IndexOf(goals[1..], g)
  }

  function FirstWithId(goals: seq<Goal>, id: string): (g: Option<Goal>)
    ensures g.Some? ==> g.value in goals && g.value.id == id
    ensures g.None? ==> forall x :: x in goals ==> x.id != id
  {
    if goals == [] then None else if goals[0].id == id then Some(goals[0]) else FirstWithId(goals[1..], id)
  }

  datatype Op = Push(goal: Goal) | Pop(goalId: string) | Replace(goal: Goal) | Abandon

  function Marked(goals: seq<Goal>, target: Option<Goal>, status: GoalStatus): seq<Goal>
    requires target.Some? ==> target.value in goals
  {
    if target.None? then goals else goals[IndexOf(goals, target.value) := target.value.(status := status)]
  }

  function After(goals: seq<Goal>, op: Op): seq<Goal> {
    match op
    case Push(g) => goals + [g]
    case Pop(id) => Marked(goals, if id != "" then FirstWithId(goals, id) else Current(goals), Satisfied)
    case Abandon => Marked(goals, Current(goals), Abandoned)
    case Replace(g) =>
      match Current(goals)
      case None => goals + [g]
      case Some(target) => goals[IndexOf(goals, target) := g.(kind := target.kind)]
  }

  datatype StackOperation = StackOperation(op: Op, before: seq<Record>, after: seq<Record>)

  class GoalStack {
    var goals: seq<Goal>

    constructor (records: seq<Record>, draws: Draws)
      ensures goals == FromList(records, draws)
    {
      goals := FromList(records, draws);
    }

    method CurrentGoal() returns (g: Option<Goal>)
      ensures g == Current(goals)
    {
      for n := |goals| downto 0
        invariant Topmost(goals, n) == Topmost(goals, |goals|)
      {
        if goals[n].status == Open {
          return Some(goals[n]);
        }
      }
      return None;
    }

    method Apply(op: Op) returns (r: StackOperation)
      modifies this
      ensures goals == After(old(goals), op)
      ensures r == StackOperation(op, ToList(old(goals)), ToList(goals))
    {
      var before := ToList(goals);
      match op {
        case Push(g) => goals := goals + [g];
        case Pop(id) =>
          var target := if id != "" then FirstWithId(goals, id) else Current(goals);
          if target.Some? {
            goals := goals[IndexOf(goals, target.value) := target.value.(status := Satisfied)];
          }
        case Replace(g) =>
          var target := CurrentGoal();
          if target.None? {
            goals := goals + [g];
          } else {
            goals := goals[IndexOf(goals, target.value) := g.(kind := target.value.kind)];
          }
        case Abandon =>
          var target := CurrentGoal();
          if target.Some? {
            goals := goals[IndexOf(goals, target.value) := target.value.(status := Abandoned)];
          }
      }
      r := StackOperation(op, before, ToList(goals));
    }
  }

  // ----- Nothing is removed or reordered -----

  /** An operation adds one goal on top, or touches one position and nothing else; popping and
      abandoning only change a status, and what they abandon or replace was the current goal. */
  lemma {:induction false} OnePlaceChanges(goals: seq<Goal>, op: Op) returns (k: nat)
    ensures var after := After(goals, op);
      && |goals| <= |after| <= |goals| + 1 && k <= |goals|
      && (forall i :: 0 <= i < |goals| && i != k ==> after[i] == goals[i])
      && (|after| == |goals| + 1 ==> k == |goals| && (op.Push? || op.Replace?) && after[k] == op.goal)
      && (|after| == |goals| && k < |goals| ==>
          match op
          case Push(_) => false
          case Pop(id) => after[k] == goals[k].(status := Satisfied) && (id != "" ==> goals[k].id == id)
          case Replace(g) => after[k] == g.(kind := goals[k].kind) && Some(goals[k]) == Current(goals)
          case Abandon => after[k] == goals[k].(status := Abandoned) && Some(goals[k]) == Current(goals))
  {
    k := |goals|;
    match op {
      case Push(_) =>
      case Pop(id) =>
        var target := if id != "" then FirstWithId(goals, id) else Current(goals);
        if target.Some? {
          k := IndexOf(goals, target.value);
        }
      case Replace(_) =>
        if Current(goals).Some? {
          k := IndexOf(goals, Current(goals).value);
        }
      case Abandon =>
        if Current(goals).Some? {
          k := IndexOf(goals, Current(goals).value);
        }
    }
  }

  // ----- Balanced nesting -----

  /** Pushes with their pops, and anything balanced between and after them. */
  datatype Nest = Nothing | Around(goal: Goal, inner: Nest, next: Nest)

  /** The operations of a nest, in order. */
  function Ops(nest: Nest): seq<Op> {
    match nest
    case Nothing => []
    case Around(g, inner, next) => [Push(g)] + Ops(inner) + [Pop("")] + Ops(next)
  }

  function AfterAll(goals: seq<Goal>, ops: seq<Op>): seq<Goal> {
    if ops == [] then goals else After(AfterAll(goals, ops[..|ops| - 1]), ops[|ops| - 1])
  }

  lemma {:induction false} AfterAllSplits(goals: seq<Goal>, a: seq<Op>, b: seq<Op>)
    ensures AfterAll(goals, a + b) == AfterAll(AfterAll(goals, a), b)
  {
    if b == [] {
      assert a + b == a;
    } else {
      assert (a + b)[..|a + b| - 1] == a + b[..|b| - 1];
      AfterAllSplits(goals, a, b[..|b| - 1]);
    }
  }

  lemma {:induction false} AfterOne(goals: seq<Goal>, op: Op)
    ensures AfterAll(goals, [op]) == After(goals, op)
  {
    assert [op][..0] == [];
  }

  lemma {:induction false} AfterAround(goals: seq<Goal>, g: Goal, inner: Nest, next: Nest)
    ensures AfterAll(goals, Ops(Around(g, inner, next)))
         == AfterAll(After(AfterAll(goals + [g], Ops(inner)), Pop("")), Ops(next))
  {
    var first, middle, last := [Push(g)], Ops(inner), [Pop("")];
    AfterAllSplits(goals, first + middle + last, Ops(next));
    AfterAllSplits(goals, first + middle, last);
    AfterAllSplits(goals, first, middle);
    AfterOne(goals, Push(g));
    AfterOne(AfterAll(goals + [g], middle), Pop(""));
  }

  function PushedIds(nest: Nest): set<string> {
    match nest case Nothing => {} case Around(g, inner, next) => {g.id} + PushedIds(inner) + PushedIds(next)
  }

  function IdsOf(goals: seq<Goal>): set<string> {
    if goals == [] then {} else IdsOf(goals[..|goals| - 1]) + {goals[|goals| - 1].id}
  }

  /** Open goals are pushed, each with an id, and one that was not used before. */
  predicate Fresh(used: set<string>, nest: Nest)
    decreases nest
  {
    match nest
    case Nothing => true
    case Around(g, inner, next) =>
      && g.status == Open && g.id != "" && g.id !in used
      && Fresh(used + {g.id}, inner) && Fresh(used + {g.id} + PushedIds(inner), next)
  }

  /** What balanced nesting leaves on top: its goals in the order they were pushed, satisfied. */
  function Closed(nest: Nest): seq<Goal> {
    match nest
    case Nothing => []
    case Around(g, inner, next) => [g.(status := Satisfied)] + Closed(inner) + Closed(next)
  }

  lemma {:induction false} ClosedIsClosed(nest: Nest)
    ensures IdsOf(Closed(nest)) == PushedIds(nest)
    ensures forall i :: 0 <= i < |Closed(nest)| ==> Closed(nest)[i].status != Open
  {
    match nest {
      case Nothing =>
      case Around(g, inner, next) =>
        ClosedIsClosed(inner);
        ClosedIsClosed(next);
        IdsSnoc([], g.(status := Satisfied));
        assert [] + [g.(status := Satisfied)] == [g.(status := Satisfied)];
        IdsAppend([g.(status := Satisfied)], Closed(inner));
        IdsAppend([g.(status := Satisfied)] + Closed(inner), Closed(next));
    }
  }

  lemma {:induction false} IdsSnoc(goals: seq<Goal>, g: Goal)
    ensures IdsOf(goals + [g]) == IdsOf(goals) + {g.id}
  {
    assert (goals + [g])[..|goals|] == goals;
  }

  lemma {:induction false} IdsAppend(a: seq<Goal>, b: seq<Goal>)
    ensures IdsOf(a + b) == IdsOf(a) + IdsOf(b)
  {
    if b == [] {
      assert a + b == a;
    } else {
      var init, g := b[..|b| - 1], b[|b| - 1];
      assert a + b == (a + init) + [g];
      IdsAppend(a, init);
      IdsSnoc(a + init, g);
    }
  }

  lemma {:induction false} IdIsUsed(goals: seq<Goal>, g: Goal)
    requires g in goals
    ensures g.id in IdsOf(goals)
  {
    if goals[|goals| - 1] != g {
      IdIsUsed(goals[..|goals| - 1], g);
    }
  }

  lemma {:induction false} SkipClosed(goals: seq<Goal>, closed: seq<Goal>)
    requires forall i :: 0 <= i < |closed| ==> closed[i].status != Open
    ensures Topmost(goals + closed, |goals + closed|) == Topmost(goals, |goals|)
    ensures Current(goals + closed) == Current(goals)
  {
    SkipClosedUpTo(goals, closed, |closed|);
    SameTopmost(goals, goals + closed, |goals|);
  }

  lemma {:induction false} SkipClosedUpTo(goals: seq<Goal>, closed: seq<Goal>, n: nat)
    requires n <= |closed| && forall i :: 0 <= i < |closed| ==> closed[i].status != Open
    ensures Topmost(goals + closed, |goals| + n) == Topmost(goals + closed, |goals|)
  {
    if n > 0 {
      SkipClosedUpTo(goals, closed, n - 1);
    }
  }

  lemma {:induction false} SameTopmost(goals: seq<Goal>, longer: seq<Goal>, n: nat)
    requires goals <= longer && n <= |goals|
    ensures Topmost(longer, n) == Topmost(goals, n)
  {
    if n > 0 {
      SameTopmost(goals, longer, n - 1);
    }
  }

  lemma {:induction false} IndexInMiddle(goals: seq<Goal>, g: Goal, above: seq<Goal>)
    requires g !in goals
    ensures IndexOf(goals + [g] + above, g) == |goals|
  {
    var stack := goals + [g] + above;
    if goals != [] {
      assert stack[0] == goals[0] && stack[1..] == goals[1..] + [g] + above;
      IndexInMiddle(goals[1..], g, above);
    }
  }

  /** Popping with only closed goals above closes the goal that was pushed. */
  lemma {:induction false} PopCloses(goals: seq<Goal>, g: Goal, closed: seq<Goal>)
    requires g.status == Open && g !in goals && forall i :: 0 <= i < |closed| ==> closed[i].status != Open
    ensures After(goals + [g] + closed, Pop("")) == goals + [g.(status := Satisfied)] + closed
  {
    SkipClosed(goals + [g], closed);
    assert Current(goals + [g]) == Some(g);
    IndexInMiddle(goals, g, closed);
  }

  /** Balanced pushes and pops of fresh open goals leave the earlier goals as they were, below
      their own satisfied ones. */
  lemma {:induction false} BalancedLeavesClosed(goals: seq<Goal>, nest: Nest)
    requires Fresh(IdsOf(goals), nest)
    ensures AfterAll(goals, Ops(nest)) == goals + Closed(nest)
    decreases nest
  {
    match nest {
      case Nothing =>
      case Around(g, inner, next) =>
        AfterAround(goals, g, inner, next);
        IdsSnoc(goals, g);
        BalancedLeavesClosed(goals + [g], inner);
        var done := Unwound(goals, g, inner);
        BalancedLeavesClosed(done, next);
        ClosedInTurn(goals, g, inner, next);
    }
  }

  lemma {:induction false} ClosedInTurn(goals: seq<Goal>, g: Goal, inner: Nest, next: Nest)
    ensures (goals + [g.(status := Satisfied)] + Closed(inner)) + Closed(next) == goals + Closed(Around(g, inner, next))
  {
    var here, a, b := [g.(status := Satisfied)], Closed(inner), Closed(next);
    assert (goals + here + a) + b == goals + (here + a + b);
  }

  /** The stack after one push, something balanced, and the pop. */
  lemma {:induction false} Unwound(goals: seq<Goal>, g: Goal, inner: Nest) returns (done: seq<Goal>)
    requires g.status == Open && g.id !in IdsOf(goals)
    ensures done == After(goals + [g] + Closed(inner), Pop("")) == goals + [g.(status := Satisfied)] + Closed(inner)
    ensures IdsOf(done) == IdsOf(goals) + {g.id} + PushedIds(inner)
  {
    done := goals + [g.(status := Satisfied)] + Closed(inner);
    IdsSnoc(goals, g.(status := Satisfied));
    IdsAppend(goals + [g.(status := Satisfied)], Closed(inner));
    ClosedIsClosed(inner);
    if g in goals {
      IdIsUsed(goals, g);
    }
    PopCloses(goals, g, Closed(inner));
  }

  // ----- The stored stack and its undo log -----

  datatype LogEntry = LogEntry(sequence: nat, op: Op, before: seq<Record>, after: seq<Record>)

  /** The stored records, their undo log and their revision. */
  datatype Stored = Stored(records: seq<Record>, log: seq<LogEntry>, revision: nat)

  /** Every operation reads the stack from its records first. A change is stored together with its
      undo record; nothing is stored when nothing changed. */
  function Store(s: Stored, op: Op, draws: Draws): Stored {
    var goals := FromList(s.records, draws);
    var before, after := ToList(goals), ToList(After(goals, op));
    if before == after then s
    else Stored(after, s.log + [LogEntry(|s.log| + 1, op, before, after)], s.revision + 1)
  }

  function StoreAll(s: Stored, ops: seq<Op>, draws: nat -> Draws): Stored {
    if ops == [] then s else Store(StoreAll(s, ops[..|ops| - 1], draws), ops[|ops| - 1], draws(|ops|))
  }

  class AgentTaskState {
    var goalStack: seq<Record>
    var log: seq<LogEntry>
    var revision: nat

    function State(): Stored
      reads this
    {
      Stored(goalStack, log, revision)
    }

    method ApplyStackOperation(operation: StackOperation)
      modifies this
      ensures State() ==
        if operation.before == operation.after then old(State())
        else Stored(operation.after, old(log) + [LogEntry(|old(log)| + 1, operation.op, operation.before, operation.after)],
                    old(revision) + 1)
    {
      if operation.before != operation.after {
        log := log + [LogEntry(|log| + 1, operation.op, operation.before, operation.after)];
        goalStack, revision := operation.after, revision + 1;
      }
    }

    /** Load, change, store: what the goal and evaluation nodes do with the stack. */
    method Change(op: Op, draws: Draws) returns (stack: GoalStack)
      modifies this
      ensures State() == Store(old(State()), op, draws)
      ensures fresh(stack) && stack.goals == After(FromList(old(goalStack), draws), op)
    {
      stack := new GoalStack(goalStack, draws);
      var operation := stack.Apply(op);
      ApplyStackOperation(operation);
    }
  }

  // ----- What a run reads back -----

  /** A goal as it is read back; its id has to be there already. */
  function Reread(g: Goal): Goal {
    g.(goalType := if g.goalType != "" then g.goalType else "learn", urgency := if g.urgency != 0.0 then g.urgency else 0.5,
       createdBy := if g.createdBy != "" then g.createdBy else "goal_interpreter")
  }

  function RereadOp(op: Op): Op {
    match op case Push(g) => Push(Reread(g)) case Replace(g) => Replace(Reread(g)) case _ => op
  }

  function RereadOps(ops: seq<Op>): seq<Op> {
    if ops == [] then [] else RereadOps(ops[..|ops| - 1]) + [RereadOp(ops[|ops| - 1])]
  }

  predicate HasId(op: Op) {
    op.Push? || op.Replace? ==> op.goal.id != ""
  }

  ghost predicate HaveIds(ops: seq<Op>) {
    forall i :: 0 <= i < |ops| ==> HasId(ops[i])
  }

  /** Whatever is drawn, the records read back as these goals. */
  ghost predicate ReadsAs(records: seq<Record>, goals: seq<Goal>) {
    forall draws: Draws :: FromList(records, draws) == goals
  }

  lemma {:induction false} RereadOne(g: Goal, newId: Id, now: int)
    requires g.id != ""
    ensures FromRecord(ToRecord(g), newId, now) == Reread(g)
  {
  }

  lemma {:induction false} StoredReadsAs(goals: seq<Goal>, op: Op)
    requires AllNormal(goals) && HasId(op)
    ensures ReadsAs(ToList(After(goals, op)), After(goals, RereadOp(op)))
  {
    var after, reread := After(goals, op), After(goals, RereadOp(op));
    forall i | 0 <= i < |after| ensures after[i].id != "" && reread[i] == Reread(after[i]) {
      assert i < |goals| ==> Normal(goals[i]);
    }
    forall draws: Draws ensures FromList(ToList(after), draws) == reread {
      forall i | 0 <= i < |after| ensures FromList(ToList(after), draws)[i] == reread[i] {
        RereadOne(after[i], draws(i).0, draws(i).1);
      }
    }
  }

  lemma {:induction false} StoreReadsAs(s: Stored, goals: seq<Goal>, op: Op, draws: Draws)
    requires ReadsAs(s.records, goals) && HasId(op)
    ensures ReadsAs(Store(s, op, draws).records, After(goals, RereadOp(op)))
  {
    assert FromList(s.records, draws) == goals;
    ReadingIsFaithfulIff(s.records, draws);
    StoredReadsAs(goals, op);
    if ToList(goals) == ToList(After(goals, op)) {
      SameRecordsSameGoals(goals, After(goals, op));
      assert After(goals, op) == goals;
      StackRoundTripIff(goals, draws);
      assert FromList(ToList(goals), draws) == After(goals, RereadOp(op));
    }
  }

  /** The stored stack is read back as the operations applied in memory, to goals as they are read. */
  lemma {:induction false} RunReadsAs(s: Stored, goals: seq<Goal>, ops: seq<Op>, draws: nat -> Draws)
    requires ReadsAs(s.records, goals) && HaveIds(ops)
    ensures ReadsAs(StoreAll(s, ops, draws).records, AfterAll(goals, RereadOps(ops)))
  {
    if ops != [] {
      var init, op := ops[..|ops| - 1], ops[|ops| - 1];
      RunReadsAs(s, goals, init, draws);
      StoreReadsAs(StoreAll(s, init, draws), AfterAll(goals, RereadOps(init)), op, draws(|ops|));
      assert RereadOps(ops)[..|RereadOps(ops)| - 1] == RereadOps(init);
    }
  }

  function RereadNest(nest: Nest): Nest {
    match nest
    case Nothing => Nothing
    case Around(g, inner, next) => Around(Reread(g), RereadNest(inner), RereadNest(next))
  }

  lemma {:induction false} RereadOpsSplits(a: seq<Op>, b: seq<Op>)
    ensures RereadOps(a + b) == RereadOps(a) + RereadOps(b)
  {
    if b == [] {
      assert a + b == a;
    } else {
      assert (a + b)[..|a + b| - 1] == a + b[..|b| - 1];
      RereadOpsSplits(a, b[..|b| - 1]);
    }
  }

  lemma {:induction false} RereadNestOps(nest: Nest)
    ensures RereadOps(Ops(nest)) == Ops(RereadNest(nest)) && PushedIds(RereadNest(nest)) == PushedIds(nest)
  {
    match nest
    case Nothing =>
    case Around(g, inner, next) =>
      RereadNestOps(inner);
      RereadNestOps(next);
      RereadOpsSplits([Push(g)] + Ops(inner) + [Pop("")], Ops(next));
      RereadOpsSplits([Push(g)] + Ops(inner), [Pop("")]);
      RereadOpsSplits([Push(g)], Ops(inner));
      assert RereadOps([Push(g)]) == [Push(Reread(g))] && RereadOps([Pop("")]) == [Pop("")];
  }

  lemma {:induction false} FreshNest(used: set<string>, nest: Nest)
    requires Fresh(used, nest)
    ensures Fresh(used, RereadNest(nest))
    decreases nest
  {
    match nest
    case Nothing =>
    case Around(g, inner, next) =>
      RereadNestOps(inner);
      FreshNest(used + {g.id}, inner);
      FreshNest(used + {g.id} + PushedIds(inner), next);
  }

  lemma {:induction false} FreshNestHasIds(used: set<string>, nest: Nest)
    requires Fresh(used, nest)
    ensures HaveIds(Ops(nest))
    decreases nest
  {
    match nest
    case Nothing =>
    case Around(g, inner, next) =>
      FreshNestHasIds(used + {g.id}, inner);
      FreshNestHasIds(used + {g.id} + PushedIds(inner), next);
      AroundHasIds(Ops(inner), Ops(next), g);
  }

  lemma {:induction false} AroundHasIds(inner: seq<Op>, next: seq<Op>, g: Goal)
    requires HaveIds(inner) && HaveIds(next) && g.id != ""
    ensures HaveIds([Push(g)] + inner + [Pop("")] + next)
  {
  }

  /** Last in, first out, through the store: balanced nesting leaves the earlier goals where they were
      and the current goal as it was. */
  lemma {:induction false} BalancedRestoresCurrent(s: Stored, goals: seq<Goal>, nest: Nest, draws: nat -> Draws, later: Draws)
    requires ReadsAs(s.records, goals) && Fresh(IdsOf(goals), nest)
    ensures var again := FromList(StoreAll(s, Ops(nest), draws).records, later);
            goals <= again && Current(again) == Current(goals)
  {
    RereadNestOps(nest);
    FreshNest(IdsOf(goals), nest);
    FreshNestHasIds(IdsOf(goals), nest);
    RunReadsAs(s, goals, Ops(nest), draws);
    BalancedLeavesClosed(goals, RereadNest(nest));
    ClosedIsClosed(RereadNest(nest));
    SkipClosed(goals, Closed(RereadNest(nest)));
  }

  // ----- The undo log -----

  /** A log of changes from one stored stack to another: numbered from one, each entry starts where
      the previous one ended, and no entry is empty. */
  ghost predicate Faithful(log: seq<LogEntry>, first: seq<Record>, last: seq<Record>) {
    && (forall i :: 0 <= i < |log| ==> log[i].sequence == i + 1 && log[i].before != log[i].after)
    && (forall i, j :: 0 <= i && i + 1 == j < |log| ==> log[i].after == log[j].before)
    && (if log == [] then first == last else log[0].before == first && log[|log| - 1].after == last)
  }

  ghost predicate FaithfulRun(first: seq<Record>, ops: seq<Op>, draws: nat -> Draws) {
    var s := StoreAll(Stored(first, [], 0), ops, draws);
    Faithful(s.log, first, s.records)
  }

  predicate WritesNormal(op: Op) {
    op.Push? || op.Replace? ==> Normal(op.goal)
  }

  predicate WriteNormal(ops: seq<Op>) {
    ops == [] || (WriteNormal(ops[..|ops| - 1]) && WritesNormal(ops[|ops| - 1]))
  }

  lemma {:induction false} WriteNormalIff(ops: seq<Op>)
    ensures WriteNormal(ops) <==> forall i :: 0 <= i < |ops| ==> WritesNormal(ops[i])
  {
    if ops != [] {
      WriteNormalIff(ops[..|ops| - 1]);
    }
  }

  /** Where a run stands: the records end the log, and revisions count its entries. */
  ghost predicate EndsLog(s: Stored, first: seq<Record>) {
    s.revision == |s.log| && s.records == if s.log == [] then first else s.log[|s.log| - 1].after
  }

  lemma {:induction false} NormalStep(goals: seq<Goal>, op: Op)
    requires AllNormal(goals)
    ensures AllNormal(After(goals, op)) <==> WritesNormal(op)
  {
    var after := After(goals, op);
    var k := OnePlaceChanges(goals, op);
    if WritesNormal(op) {
      forall i | 0 <= i < |after| ensures Normal(after[i]) {
        assert i < |goals| ==> Normal(goals[i]);
      }
    } else {
      match Current(goals)
      case None => assert after[|goals|] == op.goal;
      case Some(target) =>
        if op.Push? {
          assert after[|goals|] == op.goal;
        } else {
          assert after[IndexOf(goals, target)] == op.goal.(kind := target.kind);
        }
    }
  }

  /** From complete records the log goes on faithfully, and the records stay complete exactly when
      the goal that is written is normal. */
  lemma {:induction false} CompleteStep(s: Stored, op: Op, draws: Draws, first: seq<Record>)
    requires AllComplete(s.records) && EndsLog(s, first) && Faithful(s.log, first, s.records)
    ensures var after := Store(s, op, draws);
      && Faithful(after.log, first, after.records) && EndsLog(after, first)
      && (AllComplete(after.records) <==> WritesNormal(op))
  {
    var goals := FromList(s.records, draws);
    ReadingIsFaithfulIff(s.records, draws);
    NormalStep(goals, op);
    CompleteIffNormal(After(goals, op));
  }

  /** From records that are not complete, the next entry does not start where the last one ended. */
  lemma {:induction false} IncompleteStep(s: Stored, op: Op, draws: Draws, first: seq<Record>)
    requires EndsLog(s, first)
    requires !AllComplete(s.records) || !Faithful(s.log, first, s.records)
    ensures var after := Store(s, op, draws);
      && EndsLog(after, first) && (after == s || !Faithful(after.log, first, after.records))
  {
    ReadingIsFaithfulIff(s.records, draws);
    var after := Store(s, op, draws);
    if after != s && Faithful(after.log, first, after.records) {
      var n := |s.log|;
      assert after.log[..n] == s.log;
      assert n > 0 ==> after.log[n - 1].after == after.log[n].before;
      assert after.log[n].before == s.records;
      assert Faithful(s.log, first, s.records);
    }
  }

  ghost predicate Sound(s: Stored, first: seq<Record>) {
    AllComplete(s.records) && Faithful(s.log, first, s.records)
  }

  lemma {:induction false} StepIsSoundIff(s: Stored, op: Op, draws: Draws, first: seq<Record>)
    requires EndsLog(s, first)
    ensures EndsLog(Store(s, op, draws), first)
    ensures Sound(Store(s, op, draws), first) <==> Sound(s, first) && WritesNormal(op)
  {
    if Sound(s, first) {
      CompleteStep(s, op, draws, first);
    } else {
      IncompleteStep(s, op, draws, first);
    }
  }

  lemma {:induction false} RunIsSoundIff(first: seq<Record>, ops: seq<Op>, draws: nat -> Draws)
    ensures EndsLog(StoreAll(Stored(first, [], 0), ops, draws), first)
    ensures Sound(StoreAll(Stored(first, [], 0), ops, draws), first) <==> AllComplete(first) && WriteNormal(ops)
  {
    if ops != [] {
      var init, op := ops[..|ops| - 1], ops[|ops| - 1];
      RunIsSoundIff(first, init, draws);
      var s := StoreAll(Stored(first, [], 0), init, draws);
      StepIsSoundIff(s, op, draws(|ops|), first);
      assert StoreAll(Stored(first, [], 0), ops, draws) == Store(s, op, draws(|ops|));
    }
  }

  /** Whatever is drawn: the undo log stays faithful over one more operation, whichever it is, if and
      only if the first records are complete and every goal pushed or replaced so far is normal. */
  lemma {:induction false} FaithfulRunIff(first: seq<Record>, ops: seq<Op>, draws: nat -> Draws)
    ensures (forall op :: FaithfulRun(first, ops + [op], draws)) <==>
      AllComplete(first) && forall i :: 0 <= i < |ops| ==> WritesNormal(ops[i])
  {
    WriteNormalIff(ops);
    RunIsSoundIff(first, ops, draws);
    var s := StoreAll(Stored(first, [], 0), ops, draws);
    forall op ensures StoreAll(Stored(first, [], 0), ops + [op], draws) == Store(s, op, draws(|ops| + 1)) {
      assert (ops + [op])[..|ops|] == ops;
    }
    if AllComplete(first) && WriteNormal(ops) {
      forall op ensures FaithfulRun(first, ops + [op], draws) {
        CompleteStep(s, op, draws(|ops| + 1), first);
      }
    } else {
      var op := Push(PLAIN);
      IncompleteStep(s, op, draws(|ops| + 1), first);
      assert Store(s, op, draws(|ops| + 1)) != s;
      assert !FaithfulRun(first, ops + [op], draws);
    }
  }

  const PLAIN := Goal("g", CurrentGoal, "learn", "", [], "", [], 0.5, Open, map[], "goal_interpreter", "", 0)

  /** A goal of urgency zero, and one more push: the second entry does not start where the first ended. */
  lemma {:induction false} ZeroUrgencyBreaksTheLog(draws: nat -> Draws)
    ensures var log := StoreAll(Stored([], [], 0), [Push(PLAIN.(urgency := 0.0)), Push(PLAIN)], draws).log;
      && |log| == 2 && |log[0].after| == |log[1].before| == 1
      && log[0].after[0].urgency == Some(0.0) && log[1].before[0].urgency == Some(0.5)
  {
    var none, idle := Stored([], [], 0), PLAIN.(urgency := 0.0);
    var first := StorePush(none, idle, draws(1));
    var second := StorePush(first, PLAIN, draws(2));
    var ops := [Push(idle), Push(PLAIN)];
    assert ops[..1] == [Push(idle)] && ops[..1][..0] == [];
    assert StoreAll(none, ops[..1], draws) == first;
    assert StoreAll(none, ops, draws) == second;
    RereadOne(idle, draws(2)(0).0, draws(2)(0).1);
  }

  lemma {:induction false} StorePush(s: Stored, g: Goal, draws: Draws) returns (after: Stored)
    ensures after == Store(s, Push(g), draws) && |after.log| == |s.log| + 1 && s.log <= after.log
    ensures after.records == ToList(FromList(s.records, draws)) + [ToRecord(g)]
    ensures after.log[|s.log|].before == ToList(FromList(s.records, draws)) && after.log[|s.log|].after == after.records
  {
    after := Store(s, Push(g), draws);
    var goals := FromList(s.records, draws);
    assert ToList(goals + [g]) == ToList(goals) + [ToRecord(g)];
  }
}
