/** The orchestration plan: validated tasks, their dependency tiers and a run order. */
module PlanContracts {
  import opened Wrappers
  import opened Ordering
  import opened DependencyChains

  datatype Task = Task(id: string, dependsOn: seq<string>, gain: real)

  datatype PlanError = DuplicateIds | UnknownDependency(id: string, unknown: seq<string>) | SelfDependency(id: string)

  function Ids(tasks: seq<Task>): set<string> {
    set t | t in tasks :: t.id
  }

  predicate UniqueIds(tasks: seq<Task>) {
    forall i, j :: 0 <= i < j < |tasks| ==> tasks[i].id != tasks[j].id
  }

  predicate Sound(tasks: seq<Task>, t: Task) {
    (forall dep :: dep in t.dependsOn ==> dep in Ids(tasks)) && t.id !in t.dependsOn
  }

  ghost predicate Valid(tasks: seq<Task>) {
    UniqueIds(tasks) && forall t :: t in tasks ==> Sound(tasks, t)
  }

  /** A plan is accepted if and only if it is valid; otherwise the first bad task is named. */
  method Validate(tasks: seq<Task>) returns (error: Option<PlanError>)
    ensures error.None? <==> Valid(tasks)
    ensures error == Some(DuplicateIds) <==> !UniqueIds(tasks)
    ensures error.Some? && error.value != DuplicateIds ==>
      exists n :: 0 <= n < |tasks| && tasks[n].id == error.value.id && !Sound(tasks, tasks[n])
                  && forall m :: 0 <= m < n ==> Sound(tasks, tasks[m])
  {
    var known := Ids(tasks);
    CountIds(tasks);
    if |tasks| != |known| {
      return Some(DuplicateIds);
    }
    for n := 0 to |tasks|
      invariant forall m :: 0 <= m < n ==> Sound(tasks, tasks[m])
    {
      var unknown := Filter(tasks[n].dependsOn, dep => dep !in known);
      if unknown != [] {
        assert unknown[0] in unknown;
        return Some(UnknownDependency(tasks[n].id, unknown));
      }
      assert forall dep :: dep in tasks[n].dependsOn && dep !in known ==> dep in unknown;
      if tasks[n].id in tasks[n].dependsOn {
        return Some(SelfDependency(tasks[n].id));
      }
    }
    return None;
  }

  lemma {:induction false} CountIds(tasks: seq<Task>)
    ensures |Ids(tasks)| <= |tasks|
    ensures |Ids(tasks)| == |tasks| <==> UniqueIds(tasks)
  {
    if tasks != [] {
      var init, last := tasks[..|tasks| - 1], tasks[|tasks| - 1];
      CountIds(init);
      assert tasks == init + [last];
      assert Ids(tasks) == Ids(init) + {last.id};
      UniqueSnoc(init, last);
    }
  }

  lemma {:induction false} UniqueSnoc(init: seq<Task>, last: Task)
    ensures UniqueIds(init + [last]) <==> UniqueIds(init) && last.id !in Ids(init)
  {
    var tasks := init + [last];
    if last.id in Ids(init) {
      var t :| t in init && t.id == last.id;
      var i :| 0 <= i < |init| && init[i] == t;
      assert tasks[i].id == tasks[|init|].id;
    }
    if UniqueIds(tasks) {
      assert forall i :: 0 <= i < |init| ==> init[i] == tasks[i];
    }
  }

  // ----- Tiers -----

  function EdgesOf(tasks: seq<Task>): Edges {
    set t, dep | t in tasks && dep in t.dependsOn :: (t.id, dep)
  }

  /** The longest chain from the task has exactly `n` dependencies. */
  ghost predicate AtLevel(edges: Edges, t: Task, n: nat) {
    HasChain(edges, t.id, n) && !HasChain(edges, t.id, n + 1)
  }

  function TierKey(t: Task): Key {
    Key(t.gain, [t.id])
  }

  ghost function Level(edges: Edges, n: nat): Task -> bool {
    (t: Task) => AtLevel(edges, t, n)
  }

  ghost function Chained(edges: Edges, n: nat): Task -> bool {
    (t: Task) => HasChain(edges, t.id, n)
  }

  function ReadyAfter(done: set<string>): Task -> bool {
    (t: Task) => Ready(done, t)
  }

  function Except(ids: set<string>): Task -> bool {
    (t: Task) => t.id !in ids
  }

  /** Exactly the tasks whose longest chain has length `n`, highest gain first, then by name. */
  ghost predicate IsTier(tasks: seq<Task>, n: nat, tier: seq<Task>) {
    Sorted(tier, TierKey) && Selects(tier, tasks, Level(EdgesOf(tasks), n))
  }

  ghost predicate AreTiers(tasks: seq<Task>, tiers: seq<seq<Task>>) {
    forall k :: 0 <= k < |tiers| ==> IsTier(tasks, k, tiers[k]) && tiers[k] != []
  }

  /** Inside a tier higher gains run first, and equal gains in the order of their names. */
  lemma {:induction false} TierOrder(tasks: seq<Task>, n: nat, tier: seq<Task>, i: nat, j: nat)
    requires IsTier(tasks, n, tier) && i < j < |tier|
    ensures tier[i].gain >= tier[j].gain
    ensures tier[i].gain == tier[j].gain ==> StringLe(tier[i].id, tier[j].id)
  {
    assert Le(TierKey(tier[i]), TierKey(tier[j]));
    StringOrder(tier[i].id, tier[j].id, tier[i].id);
  }

  predicate Ready(done: set<string>, t: Task) {
    forall dep :: dep in t.dependsOn ==> dep in done
  }

  /** Exactly the tasks without a chain of length `n` are done. */
  ghost predicate DoneBelow(tasks: seq<Task>, done: set<string>, n: nat) {
    forall id :: id in done <==> id in Ids(tasks) && !HasChain(EdgesOf(tasks), id, n)
  }

  lemma {:induction false} SameId(tasks: seq<Task>, t: Task, u: Task)
    requires UniqueIds(tasks) && t in tasks && u in tasks && t.id == u.id
    ensures t == u
  {
    var i :| 0 <= i < |tasks| && tasks[i] == t;
    var j :| 0 <= j < |tasks| && tasks[j] == u;
    assert i == j;
  }

  lemma {:induction false} EdgeOf(tasks: seq<Task>, t: Task, dep: string)
    requires Valid(tasks) && t in tasks
    ensures (t.id, dep) in EdgesOf(tasks) <==> dep in t.dependsOn
    ensures dep in t.dependsOn ==> dep in Ids(tasks)
  {
    assert Sound(tasks, t);
    if (t.id, dep) in EdgesOf(tasks) {
      var u :| u in tasks && u.id == t.id && dep in u.dependsOn;
      SameId(tasks, t, u);
    }
  }

  /** Once `n` tiers are done, a task is ready if and only if it has no longer chain. */
  lemma {:induction false} ReadyIsShort(tasks: seq<Task>, done: set<string>, n: nat, t: Task)
    requires Valid(tasks) && t in tasks && DoneBelow(tasks, done, n)
    ensures Ready(done, t) <==> !HasChain(EdgesOf(tasks), t.id, n + 1)
    ensures HasChain(EdgesOf(tasks), t.id, n + 1) ==> HasChain(EdgesOf(tasks), t.id, n)
  {
    if HasChain(EdgesOf(tasks), t.id, n + 1) {
      ShorterChain(EdgesOf(tasks), t.id, n);
      var dep :| (t.id, dep) in EdgesOf(tasks) && HasChain(EdgesOf(tasks), dep, n);
      EdgeOf(tasks, t, dep);
    }
    if !Ready(done, t) {
      var dep :| dep in t.dependsOn && dep !in done;
      EdgeOf(tasks, t, dep);
    }
  }

  /** Exactly the tasks with a chain of length `n` are left. */
  ghost predicate IsLeft(tasks: seq<Task>, n: nat, remaining: seq<Task>) {
    Selects(remaining, tasks, Chained(EdgesOf(tasks), n))
  }

  /** The ready tasks among those left are the next tier. */
  lemma {:induction false} ReadyIsNextTier(tasks: seq<Task>, remaining: seq<Task>, done: set<string>, n: nat)
    requires Valid(tasks) && DoneBelow(tasks, done, n) && IsLeft(tasks, n, remaining)
    ensures IsTier(tasks, n, Sort(Filter(remaining, ReadyAfter(done)), TierKey))
  {
    var edges, ready := EdgesOf(tasks), Filter(remaining, ReadyAfter(done));
    forall t | t in tasks ensures AtLevel(edges, t, n) == (HasChain(edges, t.id, n) && Ready(done, t)) {
      ReadyIsShort(tasks, done, n, t);
    }
    FilterSelects(remaining, ReadyAfter(done));
    SelectsTwice(ready, remaining, tasks, ReadyAfter(done), Chained(edges, n), Level(edges, n));
    SortSorts(ready, TierKey);
  }

  /** Without the ready tasks, those with a longer chain are left. */
  lemma {:induction false} OthersAreLeft(tasks: seq<Task>, remaining: seq<Task>, done: set<string>, n: nat)
    requires Valid(tasks) && DoneBelow(tasks, done, n) && IsLeft(tasks, n, remaining)
    ensures var ready := Ids(Filter(remaining, ReadyAfter(done)));
      DoneBelow(tasks, done + ready, n + 1) && IsLeft(tasks, n + 1, Filter(remaining, Except(ready)))
  {
    var edges, ready := EdgesOf(tasks), Ids(Filter(remaining, ReadyAfter(done)));
    forall t | t in tasks
      ensures HasChain(edges, t.id, n + 1) == (HasChain(edges, t.id, n) && t.id !in ready)
      ensures HasChain(edges, t.id, n + 1) ==> HasChain(edges, t.id, n)
    {
      ReadyIsShort(tasks, done, n, t);
      ReadyIds(tasks, remaining, done, n, t);
    }
    forall id | id in Ids(tasks) ensures id in done + ready <==> !HasChain(edges, id, n + 1) {
      var t :| t in tasks && t.id == id;
    }
    forall id | id in ready ensures id in Ids(tasks) {
      var t :| t in remaining && t.id == id;
      SelectedAre(remaining, tasks, Chained(edges, n), t);
    }
    FilterSelects(remaining, Except(ready));
    SelectsTwice(Filter(remaining, Except(ready)), remaining, tasks, Except(ready), Chained(edges, n), Chained(edges, n + 1));
  }

  lemma {:induction false} ReadyIds(tasks: seq<Task>, remaining: seq<Task>, done: set<string>, n: nat, t: Task)
    requires Valid(tasks) && IsLeft(tasks, n, remaining) && t in tasks
    ensures t.id in Ids(Filter(remaining, ReadyAfter(done))) <==> HasChain(EdgesOf(tasks), t.id, n) && Ready(done, t)
  {
    SelectedAre(remaining, tasks, Chained(EdgesOf(tasks), n), t);
    if t.id in Ids(Filter(remaining, ReadyAfter(done))) {
      var u :| u in Filter(remaining, ReadyAfter(done)) && u.id == t.id;
      SelectedAre(remaining, tasks, Chained(EdgesOf(tasks), n), u);
      SameId(tasks, t, u);
    }
  }

  /** Nobody being ready means that everything left waits for something left. */
  lemma {:induction false} NobodyReady(tasks: seq<Task>, remaining: seq<Task>, done: set<string>, n: nat)
    requires Valid(tasks) && DoneBelow(tasks, done, n) && IsLeft(tasks, n, remaining)
    requires Filter(remaining, ReadyAfter(done)) == []
    ensures Stuck(EdgesOf(tasks), Ids(remaining))
  {
    var edges, waiting := EdgesOf(tasks), Ids(remaining);
    forall id | id in waiting ensures Waits(edges, waiting, id) {
      var t :| t in remaining && t.id == id;
      SelectedAre(remaining, tasks, Chained(edges, n), t);
      assert t !in Filter(remaining, ReadyAfter(done));
      var dep :| dep in t.dependsOn && dep !in done;
      EdgeOf(tasks, t, dep);
      var u :| u in tasks && u.id == dep;
      SelectedAre(remaining, tasks, Chained(edges, n), u);
    }
  }

  /** Chains of any length start at the task: it waits for ever. */
  ghost predicate WaitsForEver(tasks: seq<Task>, t: Task) {
    forall n: nat :: HasChain(EdgesOf(tasks), t.id, n)
  }

  /** No task has a chain of length `n`. */
  ghost predicate AllBelow(tasks: seq<Task>, n: nat) {
    forall t :: t in tasks ==> !HasChain(EdgesOf(tasks), t.id, n)
  }

  /** The tiers are exactly the chain lengths, and there is an error if and only if there is a
      cycle; the error names exactly the tasks that wait for ever. */
  method Tiers(tasks: seq<Task>) returns (r: Result<seq<seq<Task>>, seq<Task>>)
    requires Valid(tasks)
    ensures r.Err? <==> Cyclic(EdgesOf(tasks))
    ensures r.Err? ==> forall t :: t in r.error <==> t in tasks && WaitsForEver(tasks, t)
    ensures r.Ok? ==> AreTiers(tasks, r.value) && AllBelow(tasks, |r.value|)
  {
    var remaining, done, tiers := tasks, {}, [];
    while remaining != []
      invariant Progress(tasks, remaining, done, tiers)
      decreases |remaining|
    {
      var ready := Filter(remaining, ReadyAfter(done));
      if ready == [] {
        Stop(tasks, remaining, done, tiers);
        return Err(remaining);
      }
      OneTier(tasks, remaining, done, tiers, ready);
      tiers := tiers + [Sort(ready, TierKey)];
      done := done + Ids(ready);
      remaining := Filter(remaining, Except(Ids(ready)));
    }
    Complete(tasks, done, tiers);
    return Ok(tiers);
  }

  ghost predicate Progress(tasks: seq<Task>, remaining: seq<Task>, done: set<string>, tiers: seq<seq<Task>>) {
    IsLeft(tasks, |tiers|, remaining) && DoneBelow(tasks, done, |tiers|) && AreTiers(tasks, tiers)
  }

  /** One round of the loop, when somebody is ready. */
  lemma {:induction false} OneTier(tasks: seq<Task>, remaining: seq<Task>, done: set<string>, tiers: seq<seq<Task>>, ready: seq<Task>)
    requires Valid(tasks) && Progress(tasks, remaining, done, tiers)
    requires ready == Filter(remaining, ReadyAfter(done)) && ready != []
    ensures var rest := Filter(remaining, Except(Ids(ready)));
      Progress(tasks, rest, done + Ids(ready), tiers + [Sort(ready, TierKey)]) && |rest| < |remaining|
  {
    var tier := Sort(ready, TierKey);
    ReadyIsNextTier(tasks, remaining, done, |tiers|);
    OthersAreLeft(tasks, remaining, done, |tiers|);
    NonemptyRound(remaining, ready);
    AnotherTier(tasks, tiers, tier);
  }

  lemma {:induction false} NonemptyRound(remaining: seq<Task>, ready: seq<Task>)
    requires ready != [] && forall t :: t in ready ==> t in remaining
    ensures Sort(ready, TierKey) != [] && |Filter(remaining, Except(Ids(ready)))| < |remaining|
  {
    FilterLength(remaining, Except(Ids(ready)));
    assert ready[0] in remaining && ready[0].id in Ids(ready);
    SortSorts(ready, TierKey);
    assert ready[0] in multiset(Sort(ready, TierKey));
  }

  lemma {:induction false} AnotherTier(tasks: seq<Task>, tiers: seq<seq<Task>>, tier: seq<Task>)
    requires AreTiers(tasks, tiers) && IsTier(tasks, |tiers|, tier) && tier != []
    ensures AreTiers(tasks, tiers + [tier])
  {
  }

  /** The round in which nobody is ready. */
  lemma {:induction false} Stop(tasks: seq<Task>, remaining: seq<Task>, done: set<string>, tiers: seq<seq<Task>>)
    requires Valid(tasks) && Progress(tasks, remaining, done, tiers) && remaining != []
    requires Filter(remaining, ReadyAfter(done)) == []
    ensures Cyclic(EdgesOf(tasks))
    ensures forall t :: t in remaining <==> t in tasks && WaitsForEver(tasks, t)
  {
    var edges, waiting := EdgesOf(tasks), Ids(remaining);
    NobodyReady(tasks, remaining, done, |tiers|);
    assert remaining[0].id in waiting;
    StuckIsCyclic(edges, waiting);
    forall t ensures t in remaining <==> t in tasks && WaitsForEver(tasks, t) {
      SelectedAre(remaining, tasks, Chained(edges, |tiers|), t);
      if t in remaining {
        forall m: nat ensures HasChain(edges, t.id, m) {
          StuckHasEveryChain(edges, waiting, t.id, m);
        }
      }
    }
  }

  /** The loop's end: no cycle can be left out. */
  lemma {:induction false} Complete(tasks: seq<Task>, done: set<string>, tiers: seq<seq<Task>>)
    requires Progress(tasks, [], done, tiers)
    ensures AllBelow(tasks, |tiers|) && !Cyclic(EdgesOf(tasks))
  {
    forall t | t in tasks ensures !HasChain(EdgesOf(tasks), t.id, |tiers|) {
      SelectedAre([], tasks, Chained(EdgesOf(tasks), |tiers|), t);
    }
    if Cyclic(EdgesOf(tasks)) {
      var t := SomeTaskOnCycle(tasks, |tiers|);
      assert false;
    }
  }

  lemma {:induction false} SomeTaskOnCycle(tasks: seq<Task>, n: nat) returns (t: Task)
    requires Cyclic(EdgesOf(tasks))
    ensures t in tasks && HasChain(EdgesOf(tasks), t.id, n)
  {
    var path :| IsCycle(EdgesOf(tasks), path);
    CycleHasEveryChain(EdgesOf(tasks), path, 0, n);
    assert (path[0], path[1]) in EdgesOf(tasks);
    t :| t in tasks && t.id == path[0];
  }

  // ----- The run order -----

  /** `ordered_tasks`: the tiers one after the other. */
  function Flatten(tiers: seq<seq<Task>>): seq<Task> {
    if tiers == [] then [] else Flatten(tiers[..|tiers| - 1]) + tiers[|tiers| - 1]
  }

  lemma {:induction false} FlattenCounts(tasks: seq<Task>, tiers: seq<seq<Task>>, t: Task)
    requires AreTiers(tasks, tiers)
    ensures multiset(Flatten(tiers))[t] == if HasChain(EdgesOf(tasks), t.id, |tiers|) then 0 else multiset(tasks)[t]
  {
    if tiers != [] {
      var n, init := |tiers| - 1, tiers[..|tiers| - 1];
      FlattenCounts(tasks, init, t);
      assert multiset(tiers[n])[t] == if AtLevel(EdgesOf(tasks), t, n) then multiset(tasks)[t] else 0;
      if HasChain(EdgesOf(tasks), t.id, n + 1) {
        ShorterChain(EdgesOf(tasks), t.id, n);
      }
    }
  }

  /** The tiers partition the plan: the run order is a rearrangement of the tasks. */
  lemma {:induction false} TiersPartition(tasks: seq<Task>, tiers: seq<seq<Task>>)
    requires AreTiers(tasks, tiers) && AllBelow(tasks, |tiers|)
    ensures multiset(Flatten(tiers)) == multiset(tasks)
  {
    forall t ensures multiset(Flatten(tiers))[t] == multiset(tasks)[t] {
      FlattenCounts(tasks, tiers, t);
      assert t in tasks <==> multiset(tasks)[t] > 0;
    }
  }

  lemma {:induction false} ShortIsDone(tasks: seq<Task>, tiers: seq<seq<Task>>, id: string) returns (j: nat)
    requires AreTiers(tasks, tiers) && id in Ids(tasks) && !HasChain(EdgesOf(tasks), id, |tiers|)
    ensures j < |Flatten(tiers)| && Flatten(tiers)[j].id == id
  {
    var u :| u in tasks && u.id == id;
    FlattenCounts(tasks, tiers, u);
    assert multiset(tasks)[u] > 0;
    assert u in multiset(Flatten(tiers));
    j :| 0 <= j < |Flatten(tiers)| && Flatten(tiers)[j] == u;
  }

  /** Every dependency runs before the task that needs it. */
  lemma {:induction false} DependenciesRunFirst(tasks: seq<Task>, tiers: seq<seq<Task>>, i: nat, dep: string) returns (j: nat)
    requires Valid(tasks) && AreTiers(tasks, tiers)
    requires i < |Flatten(tiers)| && dep in Flatten(tiers)[i].dependsOn
    ensures j < i && Flatten(tiers)[j].id == dep
    decreases |tiers|
  {
    var n, init := |tiers| - 1, tiers[..|tiers| - 1];
    if i < |Flatten(init)| {
      j := DependenciesRunFirst(tasks, init, i, dep);
    } else {
      var t := tiers[n][i - |Flatten(init)|];
      SelectedAre(tiers[n], tasks, Level(EdgesOf(tasks), n), t);
      EdgeOf(tasks, t, dep);
      j := ShortIsDone(tasks, init, dep);
    }
  }

  /** The tiers do not depend on the order in which the tasks were listed. */
  lemma {:induction false} TiersForgetOrder(tasks: seq<Task>, shuffled: seq<Task>, tiers: seq<seq<Task>>, others: seq<seq<Task>>)
    requires Valid(tasks) && multiset(tasks) == multiset(shuffled)
    requires AreTiers(tasks, tiers) && AllBelow(tasks, |tiers|)
    requires AreTiers(shuffled, others) && AllBelow(shuffled, |others|)
    ensures tiers == others
  {
    SameTasks(tasks, shuffled);
    NotLonger(tasks, tiers, others);
    NotLonger(shuffled, others, tiers);
    forall k | 0 <= k < |tiers| ensures tiers[k] == others[k] {
      SameTier(tasks, shuffled, k, tiers[k], others[k]);
    }
  }

  lemma {:induction false} SameTasks(tasks: seq<Task>, shuffled: seq<Task>)
    requires multiset(tasks) == multiset(shuffled)
    ensures EdgesOf(tasks) == EdgesOf(shuffled) && forall t :: t in tasks <==> t in shuffled
  {
    assert forall t :: t in tasks <==> t in multiset(tasks);
    assert forall t :: t in shuffled <==> t in multiset(shuffled);
  }

  lemma {:induction false} NotLonger(tasks: seq<Task>, tiers: seq<seq<Task>>, others: seq<seq<Task>>)
    requires AllBelow(tasks, |tiers|) && AreTiers(tasks, others)
    ensures |others| <= |tiers|
  {
    if |others| > |tiers| {
      var k := |tiers|;
      SelectedAre(others[k], tasks, Level(EdgesOf(tasks), k), others[k][0]);
      assert false;
    }
  }

  lemma {:induction false} SameTier(tasks: seq<Task>, shuffled: seq<Task>, n: nat, tier: seq<Task>, other: seq<Task>)
    requires Valid(tasks) && multiset(tasks) == multiset(shuffled) && EdgesOf(tasks) == EdgesOf(shuffled)
    requires IsTier(tasks, n, tier) && IsTier(shuffled, n, other)
    ensures tier == other
  {
    assert multiset(tier) == multiset(other) by {
      forall t ensures multiset(tier)[t] == multiset(other)[t] {
        assert multiset(tasks)[t] == multiset(shuffled)[t];
      }
    }
    forall t, u | t in tier && u in tier && TierKey(t) == TierKey(u) ensures t == u {
      SelectedAre(tier, tasks, Level(EdgesOf(tasks), n), t);
      SelectedAre(tier, tasks, Level(EdgesOf(tasks), n), u);
      assert TierKey(t).names[0] == TierKey(u).names[0];
      SameId(tasks, t, u);
    }
    SortedIsUnique(tier, other, TierKey);
  }
}
