# LingxiLearn runtime: a Dafny model

LingxiLearn's backend is an event-sourced learning runtime. Graded answers become rows of an
append-only evidence ledger and are folded into a learning profile; plans, native graph events and
runtime events are folded into an execution graph, a timeline and a public stream; accepted learner
commands wait in a ledger until an execution applies them. These modules model those folds and the
planning layer around them, and prove what each of them keeps over every input and every run.

Check everything with `dafny verify dfyconfig.toml`.

| file | part of the system |
|---|---|
| `Rounding`, `Mastery`, `Scheduling` | the arithmetic of one observation: mastery and review interval |
| `EvidenceLedger`, `EvidenceProjection`, `EvidenceFolds`, `EvidenceRuns`, `EvidenceJams`, `StateUpdater` | the evidence ledger, its fold behind two watermarks, crashes and learner overrides, what mastery and interval depend on, when a fold gets through, and the store as it is updated in place |
| `PlanGraph`, `PlanEdges`, `Json`, `ExecutionSnapshot`, `ExecutionProjection`, `PlanArrival` | the visible dependency graph of a plan with hidden tasks, and the snapshot that carries it |
| `PauseClock`, `SpanTime`, `TokenUsage`, `SpanTree`, `Timeline` | the span tree with pauses, frozen times and token totals |
| `CommandOwnership` | which execution may consume an accepted command |
| `DependencyChains`, `Ordering`, `PlanContracts`, `Guardrails`, `Gain`, `Preconditions`, `Candidates`, `Completion`, `GoalStack` | the planning layer |
| `EventPaging`, `PublicProjection`, `PublicStreams`, `ExecutionGraph` | reading events back, the public stream, the graph of agent runs |

Code that computes is modelled by functions and lemmas. Code that changes things step by step is
modelled by classes and loops (`RuntimeState`, `ExecutionProjector`, `TimelineProjector`,
`PublicProjector`, `GoalStack`, `AgentTaskState`, `Budget`, and the loops of tiering, paging, plan
checking, grouping and ranking), each proved against functions whose properties are lemmas. Interleavings and crashes
are step systems: `EvidenceProjection` and `CommandOwnership`.

Times are integers (microseconds), mastery and stability are exact reals with explicit
four-decimal rounding, ids are opaque strings.

## Where the code keeps less than one might expect

Each of these is proved, with the exact condition or a concrete input.

- An ungraded row counts towards the learning rate only from the next batch on
  (`UngradedRowMovesTheBoundary`). Mastery therefore depends on where a backlog is cut, unless the
  first part is graded throughout or six rows are counted by then (`SplitBatchAgreesIff`); counts and
  watermarks never do (`CaughtUpRunsAgree`).
- The learner's own correction may set any mastery. One outside 0..1 stops the projection: the next
  change of that point is refused when no row of it is scored, the whole fold ends there, and every
  later fold meets the same rows (`CorrectionOutOfRange` gives the day). A fold gets through if and only
  if each point it writes was read in range or has a scored row (`FoldGetsThroughIff`); over runs, the
  backlog of every point stands still until a scored row or another correction comes
  (`NothingPassesTheRow`), and nothing stops as long as corrections stay in range
  (`CorrectionsInRangeNeverBlock`).
- A stored mastery of zero is read as the default of 0.35. Folds alone never store one
  (`MasteryStaysReadable`). A learner's override can: that zero is lost at the next reading, and
  `EveryBatchIsReadBackIff` says exactly when the values that later batches store are read back. An
  overridden difficulty changes the intervals of later batches unless it reads as the default
  (`DifficultyIsHarmlessIff`).
- Edge ids are made with `->`, and two linked pairs can share one: four announcements do it
  (`ArrowsInIdsHideAnEdge`). The edges are exact if and only if the ids tell the linked pairs apart
  (`EdgesAreTheContractionIff`), and only then independent of the order in which the tasks are
  announced: of two pairs with one id, the one whose target comes first is joined
  (`ArrivalOrderDoesNotMatterIff`).
- Announcing a visible task again changes its dependencies but not the edges
  (`RepeatedAnnouncementGoesStale`); they stay right exactly when the nodes just behind the task stay
  the same (`RepeatStaysRightIff`).
- `run.started` after a pause breaks the wall-time identity, exactly when a whole millisecond of
  waiting was recorded or a pause was open (`RestartIsHarmlessIff`).
- An empty token sum is not stored, so the root can keep old counts (`RootTokensAreSumsIff`,
  `CacheOnlyUsageCountsNothing`).
- The goal stack is read from its records before every operation, and an urgency of zero, which the
  interpreter allows, is read as one half. The next undo entry then does not start where the last one
  ended (`ZeroUrgencyBreaksTheLog`); the log is faithful exactly while every goal written is in normal
  form (`FaithfulRunIff`).
- The reason of a candidate names the first prerequisite of least mastery, so its text can change with
  the order of the prerequisites (`ReasonForgetsOrderIff`); its gain and its rank cannot.
- The documentation of the gain estimate says that a request raises a rank; in one corner it lowers
  the estimate (`RequestLowersIff`).
- A stale event count stops the loader early and still reports a complete read; the whole log is
  read exactly under the condition of `WholeLogIff`.
- A span start with an unknown role or execution kind is refused by the encoder but stays in the
  registry. Its end is published alone (`UnknownRoleLosesItsStart`), and a run that only claims to be
  primary speaks in the assistant channel (`UnknownKindSpeaksAlone`). A stream is well formed if and only
  if neither happens in its log (`WellFormedIff`), and stays so if and only if no such run is left
  (`StaysWellFormedIff`). Numbers and the single completion hold for every log
  (`NumbersAndCompletion`).
- The comment on `claim_agent_task` says that a running task is never claimable; the code does take
  one over, exactly for a row that was delivered to another execution and is not steering. What that
  execution then consumes depends on the checkpoint and on how its graph ends
  (`AbandonedIsFinishedIff`).
- Releasing a command does not ask who owns it, so a late release makes the new owner's
  acknowledgement miss and the command runs again (`LateReleaseMakesTheAckMiss` gives the run). Nothing
  is lost.

## Model

| member | source | states |
|---|---|---|
| Rounding.Round4Properties | server/lingxilearn/kernel/mastery.py:84 | rounding to four decimals moves a number by at most half a unit, keeps the order, lands on the grid and leaves grid numbers alone |
| Rounding.Round4StaysWithin | server/lingxilearn/kernel/mastery.py:84 | rounding cannot leave an interval with four-decimal end points |
| Mastery.RateBounds | server/lingxilearn/kernel/mastery.py:27-32 | every learning rate lies between 0.18 and 0.55 |
| Mastery.MovedContracts | server/lingxilearn/kernel/mastery.py:55-88 | one observation keeps the estimate in [0, 1] and leaves at most 0.82 of its distance to the discounted credit, plus half a rounding unit |
| Mastery.MovedMonotone | server/lingxilearn/kernel/mastery.py:55-88 | a higher start, a higher score and no more hints never end lower after one observation |
| Mastery.FoldStaysInUnitInterval | server/lingxilearn/kernel/mastery.py:55-88 | any number of graded rows keeps mastery in [0, 1] |
| Mastery.RepeatedObservationsConverge | server/lingxilearn/kernel/mastery.py:18-88 | n observations of one credit end within 0.82^n of the first gap plus at most 1/3600 of that credit |
| Mastery.FoldMonotone | server/lingxilearn/kernel/mastery.py:18-88 | a pointwise at least as good record, with no more hints, never ends lower |
| Mastery.FoldAppend | server/lingxilearn/kernel/mastery.py:18-88 | folding one more observation moves the folded value once, at the count reached so far |
| Mastery.AppliedIsPointwise | server/lingxilearn/kernel/mastery.py:55-88 | each scored concept moves exactly once from its old value or the prior, is explained by the change at its place, and every other concept keeps its value |
| Mastery.Apply | server/lingxilearn/kernel/mastery.py:55-88 | the loop over scored concepts returns the model and the changes that AppliedIsPointwise speaks about |
| Scheduling.FactorMonotone | server/lingxilearn/state/scheduling.py:19-39 | better recalls have larger factors, across the pass threshold too; a pass has a factor of at least one, a lapse of at most 0.46 |
| Scheduling.PassNeverShortens | server/lingxilearn/state/scheduling.py:19-39 | a pass never shortens a stored interval, and a lapse keeps at most 46 percent of it |
| Scheduling.NextMonotone | server/lingxilearn/state/scheduling.py:19-39 | a longer interval and a better recall never give a shorter next interval |
| Scheduling.FoldStaysInRange | server/lingxilearn/runtime/state_updater.py:198-221 | after the first graded row the interval is always a four-decimal number in [0.25, 180] |
| Scheduling.FoldStabilityMonotone | server/lingxilearn/runtime/state_updater.py:198-221 | from one start a pointwise at least as good record never gives a shorter interval |
| Scheduling.FoldSplits | server/lingxilearn/runtime/state_updater.py:198-221 | the interval does not depend on where a record is cut into batches |
| EvidenceLedger.AppendKeepsNumbering | server/lingxilearn/store/runtime_state.py:242-273 | appending only extends the ledger, numbers stay 1, 2, 3, ... without repeats, and exactly the old and the handed-in ids are recorded, each once |
| EvidenceLedger.PendingIsSlice | server/lingxilearn/store/runtime_state.py:275-290 | the rows past a cursor, up to a limit, are a slice of the ledger with no row skipped |
| EvidenceLedger.AcceptedIff | server/lingxilearn/domain/learning_profile.py:55-70 | a change can be made if and only if the mastery that was read lies in 0..1 or some unseen row is scored; a frozen row is no exception |
| EvidenceLedger.FoldMasteryIsFold | server/lingxilearn/runtime/state_updater.py:192-215 | the mastery that a batch of rows folds to is the kernel fold of its scored observations, so all that is proved of that fold holds of it |
| EvidenceLedger.UpdatedConverges | server/lingxilearn/runtime/state_updater.py:192-260 | a batch of observations of one credit writes a mastery in [0, 1], within the convergence bound of that credit |
| EvidenceLedger.UpdatedIsMonotone | server/lingxilearn/runtime/state_updater.py:192-260 | from a row with at least as much mastery and as much evidence, a pointwise at least as good batch never writes a lower mastery |
| EvidenceLedger.WrittenAsFolded | server/lingxilearn/store/profile_writer.py:187-222 | rounding on writing changes nothing: a fold ends on a four-decimal number |
| EvidenceProjection.UnseenIsTail | server/lingxilearn/runtime/state_updater.py:148-160 | the rows a fold finds unseen for a point are exactly its rows past its own watermark, also when a batch overlaps an earlier, crashed one |
| EvidenceProjection.UpdateKeepsAccount | server/lingxilearn/runtime/state_updater.py:182-260 | writing the unseen rows of a point leaves its count and watermark equal to those of all its rows up to the watermark |
| EvidenceProjection.FoldIsExact | server/lingxilearn/runtime/state_updater.py:140-180 | folding any batch that starts at the cursor, from an earlier reading of the profile, keeps every account exact and covers the whole batch, whatever a crashed fold already wrote and whatever the learner overrode in between |
| EvidenceProjection.OverrideKeepsInv | server/lingxilearn/store/runtime_state.py:359-376 | an override, which writes mastery and difficulty at any moment of a fold, changes no count, watermark or coverage |
| EvidenceProjection.StepKeepsInv | server/lingxilearn/runtime/state_updater.py:140-180 | every append, read, profile write or refusal, cursor advance, learner override and crash keeps all accounts exact and everything below the cursor covered |
| EvidenceProjection.RunKeepsInv | server/lingxilearn/runtime/state_updater.py:140-180 | so does every run from the empty store |
| EvidenceProjection.ExactlyOnce | server/lingxilearn/runtime/state_updater.py:140-180 | in every reachable state each point has counted exactly its ledger rows up to its own watermark, each once, and every named row at or below the learner cursor is counted |
| EvidenceProjection.CaughtUpRunsAgree | server/lingxilearn/runtime/state_updater.py:140-180 | two caught-up runs over one ledger agree on points, counts and watermarks, however batches, crashes and overrides interleaved |
| EvidenceProjection.StepIsMonotone | server/lingxilearn/store/runtime_state.py:186-290 | no step loses a ledger row, a point, a counted row or cursor progress |
| EvidenceFolds.FoldMasterySplits | server/lingxilearn/runtime/state_updater.py:192-215 | inside one batch only graded rows count towards the learning rate |
| EvidenceFolds.RateSettles | server/lingxilearn/kernel/mastery.py:27-32 | from six counted rows on the learning rate is 0.18 for good; before, one more row lowers it by at least 0.02 |
| EvidenceFolds.SplitBatchAgreesIff | server/lingxilearn/runtime/state_updater.py:192-215 | cutting a backlog gives the same mastery for every second part if and only if the first part is graded throughout or six rows are counted by the cut |
| EvidenceFolds.UngradedRowMovesTheBoundary | server/lingxilearn/runtime/state_updater.py:192-215 | an ungraded row counts towards the learning rate only from the next batch on: two rows and both results |
| EvidenceFolds.EveryBatchIsReadBackIff | server/lingxilearn/runtime/state_updater.py:193 | whatever batch the row accepts next, the mastery stored by that batch is read back as it is, if and only if the row is frozen and does not read as zero, or is not frozen and not negative; a zero stored before is itself read as the default |
| EvidenceFolds.DifficultyIsHarmlessIff | server/lingxilearn/runtime/state_updater.py:216-224 | every batch gives the interval that the default difficulty gives if and only if the overridden difficulty reads as that default |
| EvidenceRuns.RunKeepsVirtue | server/lingxilearn/runtime/state_updater.py:140-180 | over every run whose overrides it permits, each row keeps the interval of its own record, the mastery of its own settled record, a readable mastery, or one in 0..1 |
| EvidenceRuns.CaughtUpIntervalsAgree | server/lingxilearn/runtime/state_updater.py:140-180 | two caught-up runs over one ledger agree on review intervals as long as no override moves a difficulty off its default |
| EvidenceRuns.CaughtUpMasteriesAgree | server/lingxilearn/runtime/state_updater.py:140-180 | they agree on the mastery of a point, however it was cut into batches, when no ungraded row of the point comes before one of its first six graded rows; overrides may touch the difficulty only |
| EvidenceRuns.MasteryStaysReadable | server/lingxilearn/runtime/state_updater.py:193 | without overrides to zero or less every stored mastery of every run is read back as it was stored |
| StateUpdater.RuntimeState.AppendEvidence | server/lingxilearn/store/runtime_state.py:242-273 | appends in place; every record is answered with the row of its id, old or new |
| StateUpdater.RuntimeState.Find | server/lingxilearn/store/runtime_state.py:242-262 | finds a row by id if and only if it is recorded |
| StateUpdater.RuntimeState.EvidenceAfter | server/lingxilearn/store/runtime_state.py:275-290 | returns the pending slice |
| StateUpdater.RuntimeState.AdvanceProjectionCursor | server/lingxilearn/store/runtime_state.py:196-219 | the cursor moves forward or stays |
| StateUpdater.RuntimeState.ApplyProfileDeltas | server/lingxilearn/store/profile_writer.py:87-142 | writes each change to the row stored by then: a frozen row keeps its mastery and a watermark never moves back |
| StateUpdater.RuntimeState.OverrideProfile | server/lingxilearn/store/profile_writer.py:144-183 | the override in place is the override step of the system; there is none without a row |
| StateUpdater.GroupByPoint | server/lingxilearn/runtime/state_updater.py:109-115 | every named point once, in order of first appearance, with exactly its rows; rows without a point are dropped |
| StateUpdater.DeltaFor | server/lingxilearn/runtime/state_updater.py:182-260 | the loop over fresh rows computes the change that UpdateKeepsAccount speaks about, or refuses exactly when the mastery read is outside 0..1 and no fresh row is scored |
| StateUpdater.DeltasAreTheFold | server/lingxilearn/runtime/state_updater.py:148-178 | writing the computed changes one by one is the fold of the batch |
| StateUpdater.FoldIsARun | server/lingxilearn/runtime/state_updater.py:140-180 | an uninterrupted fold is a run of the step system, so all its invariants hold of it |
| StateUpdater.FoldGetsThroughIff | server/lingxilearn/runtime/state_updater.py:140-180 | from every valid store and for every limit, a fold gets through its whole slice if and only if each point that it writes was read with a mastery in 0..1 or has a scored row; otherwise it changes nothing |
| StateUpdater.Apply | server/lingxilearn/runtime/state_updater.py:124-180 | the whole update in place: the store becomes the folded one and the reported deltas are what was written; it raises, and writes nothing, exactly when a change is refused |
| EvidenceJams.CorrectionOutOfRange | server/lingxilearn/store/profile_writer.py:144-183 | a row is folded, the learner sets the mastery to 1.5 or to -0.2, an ungraded row arrives: from then on every fold leaves the store as it is |
| EvidenceJams.NothingPassesTheRow | server/lingxilearn/runtime/state_updater.py:140-180 | once a point with a mastery outside 0..1 has an unseen row, no run of folds up to a given size moves the cursor past that row or counts a row at or past it for any point, as long as no scored row of the point comes within reach and no correction helps |
| EvidenceJams.CorrectionsInRangeNeverBlock | server/lingxilearn/runtime/state_updater.py:140-180 | as long as every correction sets a mastery that rounds into 0..1, each fold of every run gets through its whole slice |
| PlanGraph.AncestorsAreReached | server/lingxilearn/runtime/execution.py:637-648 | every node the search returns is led to by a path through hidden tasks |
| PlanGraph.ReachedAreAncestors | server/lingxilearn/runtime/execution.py:637-648 | every node that such a path leads to is returned, also when the path runs through cycles |
| PlanGraph.AncestorsAreExact | server/lingxilearn/runtime/execution.py:637-648 | the search returns exactly the nodes that hidden paths lead to; its recursion ends on every graph |
| PlanGraph.ConnectedAreLinked | server/lingxilearn/runtime/execution.py:650-667 | the pairs joined dependency by dependency are exactly the pairs linked by a path with hidden intermediate tasks |
| PlanGraph.SearchesIgnoreVisible | server/lingxilearn/runtime/execution.py:637-648 | what a visible task needs changes no search: hidden paths end at visible tasks |
| PlanGraph.RenewedConnectsTheSameIff | server/lingxilearn/runtime/execution.py:604-612 | the connected pairs change with the needs of one visible task if and only if the nodes just behind that task change |
| PlanEdges.JoinedKeepsGood | server/lingxilearn/runtime/execution.py:703-727 | joining two nodes keeps ids unique and end points present, adds no self-loop and never drops an edge |
| PlanEdges.EdgeIdIsInjective | server/lingxilearn/runtime/execution.py:714 | an edge id determines its two nodes when neither contains an arrow |
| PlanEdges.EdgesAreTheContractionIff | server/lingxilearn/runtime/execution.py:637-727 | a list built from a plan joins two nodes exactly when they differ and one reaches the other through hidden tasks alone, if and only if the edge ids tell the linked pairs apart |
| PlanEdges.CleanIdsTellApart | server/lingxilearn/runtime/execution.py:714-716 | node ids without an arrow tell all linked pairs apart |
| PlanEdges.LinkedNodesAreJoinedIff | server/lingxilearn/runtime/execution.py:650-727 | with transition edges present a linked pair is joined unless an edge between other nodes has its id |
| ExecutionProjection.ArrowsInIdsHideAnEdge | server/lingxilearn/runtime/execution.py:596-727 | four announcements after which two linked pairs share one edge id, so that no list built from the plan is its contraction |
| PlanEdges.RepeatStaysRightIff | server/lingxilearn/runtime/execution.py:604-612 | edges that were right stay right when a visible task is announced again with other needs, if and only if the nodes just behind it, but for its own, are the same |
| PlanEdges.RepeatedAnnouncementGoesStale | server/lingxilearn/runtime/execution.py:604-612 | announcing a visible task again with a new dependency leaves its edge out |
| Json.SafeIsSafe | server/lingxilearn/runtime/execution.py:407-416 | normalising any value reaches the normal form |
| Json.SafeIsIdentityOnSafe | server/lingxilearn/runtime/execution.py:407-416 | and changes nothing that is already normal |
| ExecutionSnapshot.SnapshotRoundTrip | server/lingxilearn/runtime/execution.py:440-521 | a written snapshot is read back unchanged under its own identity and rejected as foreign under any other |
| ExecutionProjection.ExecutionProjector.constructor | server/lingxilearn/runtime/execution.py:524-556 | a new projection is empty and valid |
| ExecutionProjection.ExecutionProjector.Connect | server/lingxilearn/runtime/execution.py:703-727 | adds the edge unless an end is empty, both are equal or the id is taken |
| ExecutionProjection.ExecutionProjector.RebuildPlannedEdges | server/lingxilearn/runtime/execution.py:650-667 | afterwards the planned edges reflect the plan and all edges are valid; without transitions exactly those pairs are joined that some task asks for before any task asks for another pair with the same id |
| ExecutionProjection.ExecutionProjector.EnsurePlannedNode | server/lingxilearn/runtime/execution.py:596-635 | the plan after an announcement; hidden and newly visible tasks rebuild the edges, and for a repeated visible task the edges stay right exactly when the nodes just behind it stay the same |
| ExecutionProjection.ExecutionProjector.AnnounceAll | server/lingxilearn/runtime/execution.py:596-667 | after any sequence of announcements of new tasks the edges are the contraction of the announced plan if and only if its ids tell the linked pairs apart, and in every case they are those that a rebuild in order of arrival leaves |
| PlanArrival.PlanForgetsOrder | server/lingxilearn/runtime/execution.py:596-612 | the plan graph itself is the same for every order of the announcements |
| PlanArrival.SomeOrderJoins | server/lingxilearn/runtime/execution.py:650-667 | every linked pair is joined in some order, the one that announces its target first |
| PlanArrival.EdgesAfter | server/lingxilearn/runtime/execution.py:524-727 | a new projector that is given the announcements joins exactly the pairs that the order of arrival keeps |
| PlanArrival.ArrivalOrderDoesNotMatterIff | server/lingxilearn/runtime/execution.py:596-727 | all orders of one list of announcements of different tasks end with the same edges if and only if the edge ids tell the linked pairs apart |
| ExecutionProjection.ExecutionProjector.UpdatePlannedExecution | server/lingxilearn/runtime/execution.py:669-694 | a runtime event about a planned task names its node, sets status and provider, merges what it reports into the details, and changes nothing else |
| ExecutionProjection.ReportsKeepOtherDetails | server/lingxilearn/runtime/execution.py:686-693 | each reported fact becomes its own detail, missing facts and all other details stay |
| ExecutionProjection.ExecutionProjector.PromotePlannedNode | server/lingxilearn/runtime/execution.py:696-701 | the first planned node of the shape that has not started, and none exactly when all have |
| ExecutionProjection.ExecutionProjector.EnsureNode | server/lingxilearn/runtime/execution.py:563-594 | one node for each run of a visible provider: the known one, the first of its shape that still waits, or a new one with the next number of the provider |
| ExecutionProjection.ExecutionProjector.LinkStarted | server/lingxilearn/runtime/execution.py:836-840 | a started node is linked to every node that started one step earlier |
| ExecutionProjection.ExecutionProjector.ConsumeNodeEvent | server/lingxilearn/runtime/execution.py:761-860 | every node event keeps the projection valid; providers without a visible name change nothing |
| ExecutionProjection.ExecutionProjector.ConsumeRunEvent | server/lingxilearn/runtime/execution.py:861-885 | every run event keeps the projection valid and sets the run status it names |
| ExecutionProjection.ExecutionProjector.ConsumeStateUpdate | server/lingxilearn/runtime/execution.py:886-893 | the last value of each key wins and every other variable keeps its value |
| ExecutionProjection.ExecutionProjector.SnapshotIsAccepted | server/lingxilearn/runtime/execution.py:440-521 | in every valid state the snapshot is accepted under its own identity and returned unchanged |
| ExecutionProjection.Project | server/lingxilearn/runtime/execution.py:440-893 | after any list of announcements, executions, node events, run events and state updates the snapshot is accepted and returned unchanged |
| PauseClock.EventKeepsValid | server/lingxilearn/runtime/timeline.py:728-776 | every run event and snapshot at a later time keeps pauses ordered, waiting equal to their truncated sum and the end after the start |
| PauseClock.PlayedIsValid | server/lingxilearn/runtime/timeline.py:728-776 | so does every orderly log |
| PauseClock.TotalFits | server/lingxilearn/runtime/timeline.py:192-200 | truncating every pause separately never adds up to more than the time they lie in |
| PauseClock.OrderedIsDisjoint | server/lingxilearn/runtime/timeline.py:746-757 | recorded pauses follow one another without overlap |
| PauseClock.WallTimeIsConserved | server/lingxilearn/runtime/timeline.py:1455-1532 | at every snapshot of an orderly run active and waiting time add up to wall time exactly |
| PauseClock.RestartIsHarmlessIff | server/lingxilearn/runtime/timeline.py:728-737 | a restart keeps that identity at every later snapshot if and only if no waiting was recorded and no pause is open before it |
| SpanTime.DurationIsWorkedTime | server/lingxilearn/runtime/timeline.py:1435-1453 | on whole milliseconds a duration is the number of microseconds of the span that lie in no pause |
| SpanTime.ActiveIsWorkedTime | server/lingxilearn/runtime/timeline.py:1523-1531 | the root active time is its unpaused time as well |
| SpanTime.PausedClockStandsStill | server/lingxilearn/runtime/timeline.py:1455-1532 | a later snapshot in the same pause changes neither the pauses nor the root active time |
| SpanTime.FrozenActive | server/lingxilearn/runtime/timeline.py:1523-1531 | while paused, active time is the time up to the pause less earlier pauses |
| TokenUsage.RereadDropsCache | server/lingxilearn/runtime/timeline.py:216-242 | normalising a stored record again keeps four counts and drops the two cache counts |
| SpanTree.WalkCountsEachSpanOnce | server/lingxilearn/runtime/timeline.py:1499-1521 | the recursive walk from the root adds up every span of the tree exactly once |
| Timeline.TimelineProjector.NewSpan | server/lingxilearn/runtime/timeline.py:349-390 | a new span joins its parent, keeps the tree well formed and moves the end of the root |
| Timeline.TimelineProjector.Finish | server/lingxilearn/runtime/timeline.py:392-425 | closes a span and its running children in place |
| Timeline.FinishedCloses | server/lingxilearn/runtime/timeline.py:392-425 | finishing closes the span and all its children and touches neither an earlier span nor one that had ended |
| Timeline.TimelineProjector.RecordUsage | server/lingxilearn/runtime/timeline.py:1132-1137 | nonempty usage replaces the tokens of that span only |
| Timeline.TimelineProjector.StartRun | server/lingxilearn/runtime/timeline.py:728-745 | sets start, end and status of the root |
| Timeline.TimelineProjector.PauseRun | server/lingxilearn/runtime/timeline.py:746-752 | opens a pause unless one is open |
| Timeline.TimelineProjector.ResumeRun | server/lingxilearn/runtime/timeline.py:905-912 | closes the open pause and records it |
| Timeline.TimelineProjector.EndRun | server/lingxilearn/runtime/timeline.py:746-766 | closes the pause and every native span that still runs, and keeps the tree |
| Timeline.TimelineProjector.CurrentNative | server/lingxilearn/runtime/timeline.py:468-480 | the latest span of the named node, running or not; otherwise the latest running one; otherwise the root |
| Timeline.TimelineProjector.NodeStarted | server/lingxilearn/runtime/timeline.py:775-820 | a node without a running span gets one below the root, remembered as its own; a second start changes nothing |
| Timeline.TimelineProjector.NodeEnded | server/lingxilearn/runtime/timeline.py:820-850 | closes the span of the node and forgets it; a node that never started gets an instantaneous one below the root |
| Timeline.TimelineProjector.ToolResult | server/lingxilearn/runtime/timeline.py:1248-1300 | closes the span of the call, or adds one that started as long ago as the call took; a reported duration is stored as it is |
| Timeline.TimelineProjector.Update | server/lingxilearn/runtime/timeline.py:1499-1521 | the recursive rewrite of the tree in place, returning the token totals |
| Timeline.TimelineProjector.Snapshot | server/lingxilearn/runtime/timeline.py:1455-1532 | the clock, the whole tree, the root tokens and the three reported times after a snapshot |
| Timeline.WalkedTimes | server/lingxilearn/runtime/timeline.py:1499-1513 | the walk brings exactly the spans below its start up to date |
| Timeline.WalkedTokens | server/lingxilearn/runtime/timeline.py:1513-1521 | and adds up exactly their tokens |
| Timeline.DurationsAreWorkedTime | server/lingxilearn/runtime/timeline.py:1499-1513 | on whole milliseconds every span below the root reports exactly the time it ran outside pauses |
| Timeline.SpansStandStill | server/lingxilearn/runtime/timeline.py:1455-1507 | a later snapshot during the same pause changes no span at all |
| Timeline.TotalsCountEachSpanOnce | server/lingxilearn/runtime/timeline.py:1499-1521 | the totals of the root are the sums over all other spans, for each kind of count |
| Timeline.TotalsAreStable | server/lingxilearn/runtime/timeline.py:1499-1521 | repeated snapshots at any time add up to the same totals |
| Timeline.RootTokensAreSumsIff | server/lingxilearn/runtime/timeline.py:1519-1521 | the stored root counts, the one timeline_total_tokens returns among them, equal the sums if and only if the sum is not empty or the root had none before |
| Timeline.CacheOnlyUsageCountsNothing | server/lingxilearn/runtime/timeline.py:216-242 | a usage record with cache counts only replaces tokens and adds nothing to the totals |
| CommandOwnership.RunGrowsLedger | server/lingxilearn/store/repositories/work_ledger.py:285-372 | over any interleaving no command is lost or rewritten, a consumed one stays consumed and the checkpoint only grows |
| CommandOwnership.StepKeepsInv | server/lingxilearn/application/runtime_adapter.py:394-1233 | every awaited call, every steering delivery, however late, and every crash keeps each consumed command justified |
| CommandOwnership.RunKeepsInv | server/lingxilearn/application/runtime_adapter.py:599-1233 | so does every interleaving |
| CommandOwnership.ConsumedMeansApplied | server/lingxilearn/application/runtime_adapter.py:1197-1219 | a consumed well-formed command is in the checkpoint, or is the primary command of an execution that won both claims and had persisted an outcome other than failed or partial |
| CommandOwnership.AcceptedCommandsAreNeverLost | server/lingxilearn/application/runtime_adapter.py:637-664 | every other accepted command stays in the ledger unconsumed, whatever crashes |
| CommandOwnership.LosersConsumeNothing | server/lingxilearn/application/runtime_adapter.py:637-664 | an execution that has not won both claims changes no row by consuming |
| CommandOwnership.LateReleaseMakesTheAckMiss | server/lingxilearn/store/repositories/work_ledger.py:354-372 | a run from an initial ledger in which a release that comes late makes the acknowledgement of the new owner consume nothing; without the release it consumes |
| CommandOwnership.HeartbeatKeepsOwnership | server/lingxilearn/application/runtime_adapter.py:488-495 | as long as a heartbeat comes within every lease, the execution at work on a command owns it over any interleaving, and nobody else can claim it, until it is consumed or the execution is over |
| CommandOwnership.AbandonedIsFinishedIff | server/lingxilearn/application/runtime_adapter.py:629-1219 | a command left unfinished, by whomever, is consumed by the next execution that nothing crashes if and only if the task can be claimed and the command is already in the checkpoint or the graph ends completed or waiting; an execution that ends failed, partial, cancelled, timed out or over budget consumes only what the checkpoint held |
| Ordering.SortSorts | server/lingxilearn/runtime/contracts.py:240 | sorting yields an ordered rearrangement |
| Ordering.SortForgetsOrder | server/lingxilearn/runtime/candidates.py:347-353 | when keys tell items apart, sorting depends only on what is sorted |
| Ordering.SortedIsUnique | server/lingxilearn/runtime/candidates.py:347-353 | two ordered lists of the same items, told apart by their keys, are equal |
| Ordering.SortIsStable | server/lingxilearn/runtime/candidates.py:347-353 | the sort keeps the order of ties, so it also sorts by any finer key that settles them that way |
| Ordering.BagForgetsOrder | server/lingxilearn/runtime/candidates.py:301-345 | what a loop collects over some items does not depend on their order |
| DependencyChains.CycleHasEveryChain | server/lingxilearn/runtime/contracts.py:233-245 | chains of every length start on a cycle |
| DependencyChains.StuckIsCyclic | server/lingxilearn/runtime/contracts.py:238-239 | a nonempty set of tasks that all wait for one another contains a cycle |
| PlanContracts.Validate | server/lingxilearn/runtime/contracts.py:209-222 | accepts exactly the plans with unique ids, known dependencies and no self-dependency; otherwise names the first offending task |
| PlanContracts.Tiers | server/lingxilearn/runtime/contracts.py:229-245 | ends on every valid plan; fails if and only if there is a cycle, naming exactly the tasks that wait for ever; otherwise tier k holds exactly the tasks whose longest chain has length k, by gain and name |
| PlanContracts.TierOrder | server/lingxilearn/runtime/contracts.py:240 | inside a tier higher gains run first and equal gains in the order of their names |
| PlanContracts.ReadyIsShort | server/lingxilearn/runtime/contracts.py:235-237 | after k tiers a task is ready exactly when it has no chain longer than k |
| PlanContracts.TiersPartition | server/lingxilearn/runtime/contracts.py:224-227 | the run order is a rearrangement of the tasks |
| PlanContracts.DependenciesRunFirst | server/lingxilearn/runtime/contracts.py:224-227 | every dependency runs before the task that needs it |
| PlanContracts.TiersForgetOrder | server/lingxilearn/runtime/contracts.py:229-245 | the tiers do not depend on the order in which tasks were listed |
| Guardrails.Budget.SpendStep | server/lingxilearn/runtime/guardrails.py:149-154 | a step is counted, and time and tokens never decrease |
| Guardrails.BudgetRunsOut | server/lingxilearn/runtime/guardrails.py:138-154 | an exhausted budget stays exhausted and a budget lasts for at most its remaining steps |
| Guardrails.CheckPlan | server/lingxilearn/runtime/guardrails.py:186-322 | the verdict for an exhausted budget, an empty plan, and otherwise the allowed tasks and findings described below |
| Guardrails.ObjectionIff | server/lingxilearn/runtime/guardrails.py:242-320 | the checks in their order object to a task exactly when it breaks one of the rules |
| Guardrails.AllowedIsSubsequence | server/lingxilearn/runtime/guardrails.py:242-320 | the allowed tasks are exactly the passing ones among the first three, in order |
| Guardrails.EveryTaskIsDecided | server/lingxilearn/runtime/guardrails.py:242-320 | each considered task is either allowed or has exactly one finding |
| Guardrails.AllowedTasksAreDecent | server/lingxilearn/runtime/guardrails.py:242-307 | allowed tasks obey every allow-list, rationale, confirmation and negotiation rule, and at most one is conversational |
| Guardrails.HeavyIsCounted | server/lingxilearn/runtime/guardrails.py:308-318 | planned heavy use is the old use plus the allowed heavy tasks |
| Guardrails.HeavyIsCapped | server/lingxilearn/runtime/guardrails.py:308-318 | heavy use never passes the larger of the old use and the cap |
| Guardrails.NoFindingsIff | server/lingxilearn/runtime/guardrails.py:186-322 | there are no findings exactly when every task of the plan is allowed |
| Guardrails.ApplyHoldPolicy | server/lingxilearn/runtime/guardrails.py:325-362 | up to six holds each decision about an open hold is settled in order; above that every hold is closed and no instruction survives |
| Guardrails.SettledAreOpen | server/lingxilearn/runtime/guardrails.py:337-354 | a settled decision is about an open hold, and revises only with an instruction, a revision to spare, a live budget and an open goal |
| Guardrails.AllPass | server/lingxilearn/runtime/guardrails.py:242-322 | a plan whose tasks all pass has no finding |
| Completion.FactsOnlyHelp | server/lingxilearn/runtime/completion.py:59-142 | a satisfied condition, however nested, stays satisfied when artifacts, evidence or mastery are added |
| Completion.MissingIsUnsatisfied | server/lingxilearn/runtime/completion.py:127-139 | what a verdict names as missing is unsatisfied, and an unsatisfied condition always names something |
| Completion.SupplyingTheMissingSuffices | server/lingxilearn/runtime/completion.py:127-139 | supplying everything the verdict names satisfies the condition, whatever else is learnt meanwhile |
| Completion.UnknownFailsClosed | server/lingxilearn/runtime/completion.py:141-142 | a condition that needs an unknown kind is never satisfied |
| Gain.WorthIsShare | server/lingxilearn/state/gain.py:304-305 | every estimate is a four-decimal number in [0, 1] |
| Gain.RequestLowersIff | server/lingxilearn/state/gain.py:135-301 | a request lowers an estimate in exactly one case: a second visual of a point whose difficulty is so negative that it is worth less than the fixed worth of one |
| Gain.WeakPrerequisiteHoldsBack | server/lingxilearn/state/gain.py:135-301 | a weak prerequisite caps what teaching or testing the point is worth at 0.35 and raises it in exactly one case, a visual of a point of negative difficulty; it never lowers what analysing prerequisites is worth and changes nothing else |
| Gain.ValueForgetsOrder | server/lingxilearn/state/gain.py:151-153 | what a capability is worth depends on which prerequisites there are, not on their order |
| Gain.ReasonForgetsOrderIff | server/lingxilearn/state/gain.py:151-153 | the whole estimate, with the prerequisite its reason names, is the same in every order if and only if it names none or all prerequisites of least mastery have one name |
| Preconditions.SubjectsAre | server/lingxilearn/runtime/candidates.py:119-134 | a subject is a target of the goal or a prerequisite not yet met, and the first one is always a target |
| Candidates.Generate | server/lingxilearn/runtime/candidates.py:289-354 | the three nested loops and the two sorts give a ranking of every candidate they make |
| Candidates.EligibleFirst | server/lingxilearn/runtime/candidates.py:347-354 | eligible candidates come first, by descending utility of at least 0.05, equals by name |
| Candidates.RankedOnce | server/lingxilearn/runtime/candidates.py:301-345 | with keyed rows and tags declared once, every subject, skill and known tag gives exactly one candidate and nothing else does |
| Candidates.RankingForgetsOrder | server/lingxilearn/runtime/candidates.py:301-354 | any order of the targets, of the prerequisites and of the skill rows gives the same list |
| Candidates.EligibleAreAllowed | server/lingxilearn/runtime/candidates.py:184-266 | a direct question leaves three capabilities, without an artifact request nothing heavy is offered, an open quiz closes quizzes and probing of the target, and eight capabilities are never offered for a prerequisite |
| Candidates.PrerequisitesSeeNoTaskFacts | server/lingxilearn/runtime/candidates.py:102-117 | the candidates for a prerequisite are the same whatever happened for the targets |
| Candidates.RestrictionsOnlyRestrict | server/lingxilearn/runtime/candidates.py:207-217 | a direct question and a missing artifact request only take candidates away; what is left is offered unchanged without them |
| GoalStacks.StackRoundTripIff | server/lingxilearn/state/agent_task_state.py:121-188 | a stack can be rebuilt from its record exactly when every goal has an id, a type and a creator and an urgency other than zero |
| GoalStacks.ReadingIsFaithfulIff | server/lingxilearn/state/agent_task_state.py:139-188 | reading always gives such goals, and gives back what is stored exactly when every record is complete |
| GoalStacks.GoalStack.CurrentGoal | server/lingxilearn/state/agent_task_state.py:190-196 | the topmost open goal |
| GoalStacks.GoalStack.Apply | server/lingxilearn/state/agent_task_state.py:206-245 | the operation in place, with an undo record whose two sides are the stacks before and after |
| GoalStacks.OnePlaceChanges | server/lingxilearn/state/agent_task_state.py:206-245 | no operation removes or reorders goals: it adds one on top or touches one place, and what it replaces or abandons was the current goal |
| GoalStacks.BalancedLeavesClosed | server/lingxilearn/state/agent_task_state.py:206-223 | balanced pushes and pops of fresh open goals leave the earlier goals as they were, below their own satisfied ones |
| GoalStacks.BalancedRestoresCurrent | server/lingxilearn/store/runtime_state.py:413-507 | last in, first out, through the store, which is read before every operation: the earlier goals and the current goal are as they were |
| GoalStacks.FaithfulRunIff | server/lingxilearn/store/runtime_state.py:413-507 | the undo log stays faithful over one more operation, whichever it is, if and only if the first records are complete and every goal pushed or replaced so far is in normal form |
| GoalStacks.ZeroUrgencyBreaksTheLog | server/lingxilearn/runtime/nodes/goal.py:41-69 | after a goal of urgency zero the next entry starts with one half where the last one ended with zero |
| GoalStacks.RunReadsAs | server/lingxilearn/store/runtime_state.py:413-507 | what a run stores is read back as its operations applied in memory to goals as they are read |
| GoalStacks.AgentTaskState.Change | server/lingxilearn/runtime/nodes/goal.py:41-69 | load, change and store in place: the records, the undo log and the revision |
| EventPaging.TakePage | server/lingxilearn/application/agent_events.py:183-203 | keeps the rows with a new number beyond the cursor and the rows without a number |
| EventPaging.KeptAreNew | server/lingxilearn/application/agent_events.py:183-203 | the numbers kept are distinct, beyond the cursor and not seen before |
| EventPaging.Load | server/lingxilearn/application/agent_events.py:161-241 | ends against any repository with bounded numbers, loads no number twice and is complete exactly when not truncated; from a log it loads the rows in order up to the page that reaches the expected count, and is complete if and only if the count is unknown or not too large |
| EventPaging.LogPage | server/lingxilearn/application/agent_events.py:168-178 | each page of a log is kept whole and moves the cursor to its last row |
| EventPaging.WholeLogIff | server/lingxilearn/application/agent_events.py:211-217 | the whole log is read if and only if no count is known, it is not too small, or its last page is the last page of the log |
| PublicProjection.PublicProjector.Emit | server/lingxilearn/runtime/public_projection.py:641-659 | a number is used up exactly when the body encodes |
| PublicProjection.PublicProjector.Started | server/lingxilearn/runtime/public_projection.py:242-280 | opens the span before emitting; a second start is silent |
| PublicProjection.PublicProjector.Ended | server/lingxilearn/runtime/public_projection.py:282-317 | ends an open span of the payload or of the agent; any other end is silent |
| PublicProjection.PublicProjector.Terminal | server/lingxilearn/runtime/public_projection.py:200-241 | terminal events act once |
| PublicProjection.PublicProjector.Say | server/lingxilearn/runtime/public_projection.py:465-505 | only a run known as primary writes to the assistant channel |
| PublicProjection.PublicProjector.Calls | server/lingxilearn/runtime/public_projection.py:535-566 | one envelope for each call with an id and a name |
| PublicProjection.PublicProjector.Consume | server/lingxilearn/runtime/public_projection.py:89-111 | maps one native event in place to its envelopes, or to none when the encoder refuses one |
| PublicStreams.NumbersAndCompletion | server/lingxilearn/runtime/public_projection.py:200-241 | for every log, whatever the encoder refuses, the numbers are 0, 1, 2, ... without a gap, and the stream is completed once if a terminal event came and never otherwise |
| PublicStreams.EventIsWhole | server/lingxilearn/contracts/mothership_stream_v1.py:145-250 | no event fails after one of its bodies was encoded: only turns, runs, starts and notices can be refused, and each of them is alone in its event |
| PublicStreams.WellFormedIff | server/lingxilearn/runtime/public_projection.py:242-505 | the stream of a log is well formed (alternating starts and ends for each run, assistant text only from runs shown as primary) if and only if no event ends a run whose start was refused or speaks for a run that is primary in the registry alone |
| PublicStreams.StaysWellFormedIff | server/lingxilearn/runtime/public_projection.py:242-505 | as long as no later start is refused, every continuation of a log is well formed if and only if the log did no harm, no run is open with a refused start and none is primary in the registry alone |
| PublicStreams.RefusedStartsSpoil | server/lingxilearn/contracts/mothership_stream_v1.py:49-64 | a log whose starts all carry known roles and kinds is well formed; after a refused start some continuation is not |
| PublicStreams.UnknownRoleLosesItsStart | server/lingxilearn/contracts/mothership_stream_v1.py:340-351 | a start with the role "tutor" is refused and its end is published alone |
| PublicStreams.UnknownKindSpeaksAlone | server/lingxilearn/contracts/mothership_stream_v1.py:340-351 | a primary start with an unknown execution kind is refused and its text is published as the assistant speaking |
| ExecutionGraph.OverlapsIffSharedMoment | server/lingxilearn/runtime/execution_graph.py:134-141 | two runs that last overlap if and only if some moment belongs to both |
| ExecutionGraph.AddEdge | server/lingxilearn/runtime/execution_graph.py:68-75 | adds an edge once, never a self-loop or one with an empty end |
| ExecutionGraph.BuildEdges | server/lingxilearn/runtime/execution_graph.py:65-89 | the edges are exactly the delegations and work dependencies between different runs, each once |
| ExecutionGraph.ParallelGroups | server/lingxilearn/runtime/execution_graph.py:94-125 | a run has a group if and only if another run of its execution and parent overlaps it with no dependency between them |
| ExecutionGraph.JoinKeeps | server/lingxilearn/runtime/execution_graph.py:115-123 | whatever is linked, every grouped run came in through a parallel run of its own group |
| ExecutionGraph.GroupIsConnected | server/lingxilearn/runtime/execution_graph.py:94-125 | any two runs of a group are joined by a chain of parallel runs inside it |
| ExecutionGraph.GroupSharesParent | server/lingxilearn/runtime/execution_graph.py:94-125 | all runs of a group share execution and parent |

## Left out

- Floating-point error in mastery, stability, utilities and gains: exact reals with explicit four-decimal rounding.
- Candidates.Generate: the candidate id (a hash of fields that are in the list), version and checksum, latency class and the two scheduling flags are not carried, nor is the text of a reason; the vocabulary of capability tags is a parameter.
- EvidenceProjection.ExactlyOnce: one learner at a time and one folding process, because only an in-process lock keeps two folds of one learner apart; misconceptions, recent performance, review dates and the other texts of the profile row are not folded.
- StateUpdater.GroupByPoint: point names are taken as already stripped.
- CommandOwnership.RunKeepsInv: the claims and consumptions are atomic conditional updates, as server/lingxilearn/store/repositories/work_ledger.py and agent_tasks.py write them; which turn a steering command belongs to, and which pending command a drain picks, are left open, so every choice is covered.
- CommandOwnership.AbandonedIsFinishedIff: says what one uninterrupted execution does, not that somebody eventually starts one.
- GoalStacks.AgentTaskState.Change: reading, changing and storing is one step; two runners of one conversation are kept apart by the claims of CommandOwnership.
- ExecutionProjection.ExecutionProjector.ConsumeNodeEvent: execution groups (loops and parallels), which are therefore empty in every snapshot of the model, the returned envelope and the legacy span list of the execution projector (server/lingxilearn/runtime/execution.py): bookkeeping beside nodes and edges.
- ExecutionSnapshot.SnapshotRoundTrip: identity fields are compared as strings; printing a list or a dictionary found there is not modelled.
- Timeline.TimelineProjector.Snapshot: spans live in an arena and are named by position instead of being shared dictionaries; a call cannot break the tree by handing in a span of another projector.
- Agent, model, handoff, artifact and sidecar events of the timeline (server/lingxilearn/runtime/timeline.py): sequences of new, finished and usage-recording spans.
- Timestamps and their parsing: integers; malformed timestamps, which count as zero milliseconds, are not modelled.
- PublicProjection.PublicProjector.Consume: skill, interaction, tool-result and resource envelopes share one form, and whether such a payload has the public shape is part of the event; of other payloads only ids, roles, execution kinds, messages, channels and the remaining facts of a start are carried.
- EventPaging.Load: the page counter and the timestamp of the truncation are not modelled, nor a repository that raises.
- Guardrails.CheckPlan: stripping knows the four ASCII blanks only; the texts shown to the learner are not modelled.
- ExecutionGraph.ParallelGroups: display fields of nodes; run ids are unique, as durable rows have them.
- The runtime status table (server/lingxilearn/state/agent_task_state.py): one lookup.
- Completion.MissingIsUnsatisfied: the verdict's sentence is modelled by the simple conditions it speaks of, not by its text.
- Routes, authentication, model calls, prompts, files, manifests, SQL and the graph engine itself: inputs and outputs of the code modelled here.
- EvidenceRuns.CaughtUpMasteriesAgree: for a record in which an ungraded row comes early, the scores may still happen to agree; the exact statement there is SplitBatchAgreesIff, for one cut and every continuation.
