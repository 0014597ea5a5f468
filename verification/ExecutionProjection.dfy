/** The incremental projection of one execution: plan announcements, native node events and run
    events, folded into nodes and dependency edges in place. */
module ExecutionProjection {
  import opened Wrappers
  import Json
  import opened ExecutionSnapshot
  import opened PlanGraph
  import opened PlanEdges

  /** What a capability or provider name that may be shown stands for. */
  datatype Visible = Visible(key: string, title: string, nodeKind: string)

  /** A plan announcement; a missing text field is empty. */
  datatype Announcement = Announcement(nodeId: string, workItemId: string, taskId: string, step: int, capability: string,
                                       node: string, dependsOn: seq<string>, details: Json.Value)

  datatype NodeEventKind = Started | Completed(update: Json.Value) | Failed | Retrying | Cached

  datatype RunEventKind = RunStarted(at: string) | RunResumed | RunPaused | InterruptRaised | RunEnded(status: string)

  function FirstText(a: string, b: string, c: string): string {
    if a != "" then a else if b != "" then b else c
  }

  function PlanTaskId(a: Announcement): string {
    FirstText(a.nodeId, a.workItemId, a.taskId)
  }

  function Primitive(a: Announcement): string {
    FirstText(a.capability, a.node, "coordinator")
  }

  function Lookup(catalog: map<string, Visible>, name: string): Option<Visible> {
    if name in catalog then Some(catalog[name]) else None
  }

  function Digits(n: nat): string {
    if n < 10 then [('0' as int + n) as char] else Digits(n / 10) + [('0' as int + n % 10) as char]
  }

  function Decimal(n: int): string {
    if n < 0 then "-" + Digits(-n) else Digits(n)
  }

  function WithoutSlashes(s: string): (r: string)
    ensures |r| == |s|
  {
    if s == "" then "" else [if s[0] == '/' then '_' else s[0]] + WithoutSlashes(s[1..])
  }

  function PlannedNodeId(step: int, task: string): (id: string)
    ensures id != ""
  {
    WithoutSlashes("plan:" + Decimal(step) + ":" + task)
  }

  function NativeNodeId(provider: string, step: int, suffix: string): (id: string)
    ensures id != ""
  {
    provider + ":" + Decimal(step) + ":" + WithoutSlashes(suffix)
  }

  /** What an announcement does to the plan: it records its dependencies, and a visible task that has no
      node yet gets one. */
  function Announced(plan: Plan, a: Announcement, catalog: map<string, Visible>): Plan {
    var task := PlanTaskId(a);
    Plan(plan.dependsOn[task := a.dependsOn],
         if Primitive(a) in catalog && task !in plan.nodeOf then plan.nodeOf[task := PlannedNodeId(a.step, task)] else plan.nodeOf)
  }

  function AnnouncedAll(plan: Plan, announcements: seq<Announcement>, catalog: map<string, Visible>): Plan {
    if announcements == [] then plan
    else
      Announced(AnnouncedAll(plan, announcements[..|announcements| - 1], catalog), announcements[|announcements| - 1], catalog)
  }

  /** The task of an announcement, when it may be shown. */
  function Shown(a: Announcement, catalog: map<string, Visible>): seq<string> {
    if Primitive(a) in catalog then [PlanTaskId(a)] else []
  }

  function ShownTasks(announcements: seq<Announcement>, catalog: map<string, Visible>): seq<string> {
    if announcements == [] then []
    else ShownTasks(announcements[..|announcements| - 1], catalog) + Shown(announcements[|announcements| - 1], catalog)
  }

  // ----- Four announcements whose edge ids collide -----

  function VisibleTask(task: string, needs: seq<string>): Announcement {
    Announcement(task, "", "", 0, "x", "", needs, Json.Null)
  }

  const COLLIDING := [VisibleTask("a", [])] + [VisibleTask("a->plan:0:b", [])] + [VisibleTask("b->plan:0:c", ["a"])]
    + [VisibleTask("c", ["a->plan:0:b"])]

  lemma {:induction false} AnnouncedSnoc(plan: Plan, announcements: seq<Announcement>, a: Announcement, catalog: map<string, Visible>)
    ensures AnnouncedAll(plan, announcements + [a], catalog) == Announced(AnnouncedAll(plan, announcements, catalog), a, catalog)
  {
    assert (announcements + [a])[..|announcements|] == announcements;
  }

  /** An id without slashes is used as it is. */
  lemma {:induction false} NoSlashes(s: string)
    requires '/' !in s
    ensures WithoutSlashes(s) == s
  {
    if s != "" {
      NoSlashes(s[1..]);
      assert s == [s[0]] + s[1..];
    }
  }

  lemma {:induction false} PlannedIdOf(task: string)
    requires '/' !in task
    ensures PlannedNodeId(0, task) == "plan:0:" + task
  {
    NoSlashes("plan:0:" + task);
    assert Decimal(0) == "0";
    assert "plan:" + "0" + ":" + task == "plan:0:" + task;
  }

  const COLLIDING_PLAN := Plan(
    map["a" := [], "a->plan:0:b" := [], "b->plan:0:c" := ["a"], "c" := ["a->plan:0:b"]],
    map["a" := "plan:0:a", "a->plan:0:b" := "plan:0:a->plan:0:b", "b->plan:0:c" := "plan:0:b->plan:0:c", "c" := "plan:0:c"])

  lemma {:induction false} OneVisibleTask(plan: Plan, task: string, needs: seq<string>, catalog: map<string, Visible>)
    requires "x" in catalog && task != "" && '/' !in task && task !in plan.nodeOf
    ensures Announced(plan, VisibleTask(task, needs), catalog)
         == Plan(plan.dependsOn[task := needs], plan.nodeOf[task := "plan:0:" + task])
  {
    PlannedIdOf(task);
  }

  lemma {:induction false} FourVisibleTasks(a: string, b: string, c: string, d: string, needsC: seq<string>, needsD: seq<string>,
                                            catalog: map<string, Visible>)
    requires "x" in catalog && a != b && a != c && a != d && b != c && b != d && c != d
    requires forall task :: task in [a, b, c, d] ==> task != "" && '/' !in task
    ensures AnnouncedAll(Plan(map[], map[]),
                         [VisibleTask(a, [])] + [VisibleTask(b, [])] + [VisibleTask(c, needsC)] + [VisibleTask(d, needsD)], catalog)
         == Plan(map[a := [], b := [], c := needsC, d := needsD],
                 map[a := "plan:0:" + a, b := "plan:0:" + b, c := "plan:0:" + c, d := "plan:0:" + d])
  {
    var p0, x, y, z, w := Plan(map[], map[]), VisibleTask(a, []), VisibleTask(b, []), VisibleTask(c, needsC), VisibleTask(d, needsD);
    assert [] + [x] == [x] && a in [a, b, c, d] && b in [a, b, c, d] && c in [a, b, c, d] && d in [a, b, c, d];
    AnnouncedSnoc(p0, [], x, catalog);
    AnnouncedSnoc(p0, [x], y, catalog);
    AnnouncedSnoc(p0, [x] + [y], z, catalog);
    AnnouncedSnoc(p0, [x] + [y] + [z], w, catalog);
    OneVisibleTask(p0, a, [], catalog);
    var p1 := Announced(p0, x, catalog);
    OneVisibleTask(p1, b, [], catalog);
    var p2 := Announced(p1, y, catalog);
    OneVisibleTask(p2, c, needsC, catalog);
    var p3 := Announced(p2, z, catalog);
    OneVisibleTask(p3, d, needsD, catalog);
  }

  lemma {:induction false} CollidingPlanIs(catalog: map<string, Visible>)
    requires "x" in catalog
    ensures AnnouncedAll(Plan(map[], map[]), COLLIDING, catalog) == COLLIDING_PLAN
  {
    CollidingNames("a", "a->plan:0:b", "b->plan:0:c", "c");
    FourVisibleTasks("a", "a->plan:0:b", "b->plan:0:c", "c", ["a"], ["a->plan:0:b"], catalog);
  }

  lemma {:induction false} CollidingNames(a: string, b: string, c: string, d: string)
    requires a == "a" && b == "a->plan:0:b" && c == "b->plan:0:c" && d == "c"
    ensures a != b && a != c && a != d && b != c && b != d && c != d
    ensures forall task :: task in [a, b, c, d] ==> task != "" && '/' !in task
    ensures "plan:0:" + a == "plan:0:a" && "plan:0:" + b == "plan:0:a->plan:0:b"
    ensures "plan:0:" + c == "plan:0:b->plan:0:c" && "plan:0:" + d == "plan:0:c"
  {
    assert |a| == 1 && |b| == 11 && |c| == 11 && |d| == 1;
    assert a[0] == 'a' && b[0] == 'a' && c[0] == 'b' && d[0] == 'c';
  }

  lemma {:induction false} OneNeedIsLinked(plan: Plan, task: string, need: string)
    requires task in plan.nodeOf && need in plan.nodeOf && need in Needs(plan, task)
    ensures Linked(plan, plan.nodeOf[need], plan.nodeOf[task])
  {
    assert plan.nodeOf[need] in Ancestors(plan, need, {});
    assert Connected(plan, plan.nodeOf[need], plan.nodeOf[task]);
    ConnectedAreLinked(plan, plan.nodeOf[need], plan.nodeOf[task]);
  }

  lemma {:induction false} CollidingIds()
    ensures EdgeId("plan:0:a", "plan:0:b->plan:0:c") == EdgeId("plan:0:a->plan:0:b", "plan:0:c")
    ensures "plan:0:a" != "plan:0:b->plan:0:c" && "plan:0:a->plan:0:b" != "plan:0:c" && "plan:0:a" != "plan:0:a->plan:0:b"
  {
    assert |"plan:0:a"| == |"plan:0:c"| == 8 && |"plan:0:a->plan:0:b"| == |"plan:0:b->plan:0:c"| == 18;
  }

  /** After these announcements the ids of two linked pairs are one and the same, so that no list built
      from the plan is its contraction. */
  lemma {:induction false} ArrowsInIdsHideAnEdge(catalog: map<string, Visible>, edges: seq<Dependency>, ends: set<string>)
    requires "x" in catalog
    ensures var plan := AnnouncedAll(Plan(map[], map[]), COLLIDING, catalog);
      && Pair(plan, "plan:0:a", "plan:0:b->plan:0:c") && Pair(plan, "plan:0:a->plan:0:b", "plan:0:c")
      && EdgeId("plan:0:a", "plan:0:b->plan:0:c") == EdgeId("plan:0:a->plan:0:b", "plan:0:c")
      && (BuiltFrom(edges, ends, plan) ==> !Right(edges, plan))
  {
    CollidingPlanIs(catalog);
    CollidingIds();
    CollidingPairs(COLLIDING_PLAN, "a", "b->plan:0:c", "a->plan:0:b", "c");
    SharedIdHides(edges, ends, COLLIDING_PLAN, "plan:0:a", "plan:0:b->plan:0:c", "plan:0:a->plan:0:b", "plan:0:c");
  }

  lemma {:induction false} CollidingPairs(plan: Plan, need: string, task: string, need': string, task': string)
    requires need in plan.nodeOf && task in plan.nodeOf && need' in plan.nodeOf && task' in plan.nodeOf
    requires need in Needs(plan, task) && need' in Needs(plan, task')
    requires plan.nodeOf[need] != plan.nodeOf[task] && plan.nodeOf[need'] != plan.nodeOf[task']
    ensures Pair(plan, plan.nodeOf[need], plan.nodeOf[task]) && Pair(plan, plan.nodeOf[need'], plan.nodeOf[task'])
  {
    OneNeedIsLinked(plan, task, need);
    OneNeedIsLinked(plan, task', need');
  }

  lemma {:induction false} SharedIdHides(edges: seq<Dependency>, ends: set<string>, plan: Plan, s: string, t: string, s': string, t': string)
    requires Pair(plan, s, t) && Pair(plan, s', t') && EdgeId(s, t) == EdgeId(s', t') && s != s'
    ensures BuiltFrom(edges, ends, plan) ==> !Right(edges, plan)
  {
    if BuiltFrom(edges, ends, plan) {
      EdgesAreTheContractionIff(edges, ends, plan);
    }
  }

  function StatusAfter(kind: NodeEventKind): string {
    match kind
    case Started => "running"
    case Completed(_) => "completed"
    case Failed => "failed"
    case Retrying => "retrying"
    case Cached => "cached"
  }

  /** The first node of a list that has not started. */
  function FirstWaiting(ids: seq<string>, nodes: map<string, Node>): (first: Option<string>)
    requires forall i :: 0 <= i < |ids| ==> ids[i] in nodes
    ensures first.Some? ==> first.value in ids && nodes[first.value].status in {"queued", "pending"}
    ensures first.None? ==> forall id :: id in ids ==> nodes[id].status !in {"queued", "pending"}
  {
    if ids == [] then None
    else if nodes[ids[0]].status == "queued" || nodes[ids[0]].status == "pending" then Some(ids[0])
    else FirstWaiting(ids[1..], nodes)
  }

  function Count(counts: map<string, nat>, provider: string): nat {
    if provider in counts then counts[provider] else 0
  }

  function NewNode(executionId: string, id: string, provider: string, v: Visible, step: int, task: string): Node {
    Node(id, v.title, v.nodeKind, v.key, Some(provider), "running", step, if task == "" then None else Some(task), Json.Null,
         Json.Dict([Json.Entry("executionId", true, Json.Text(executionId))]), Json.Null)
  }

  function Named(n: Node, v: Visible): Node {
    n.(title := v.title, capability := v.key, kind := v.nodeKind)
  }

  /** What a runtime event reports about a planned task, and the detail it becomes. */
  const REPORTED := [("status", "outcomeStatus"), ("satisfied", "satisfied"), ("detail", "detail"), ("skill_id", "skillId")]

  function WithDetail(details: Json.Value, key: string, value: Json.Value): Json.Value {
    if details.Dict? then Json.Dict(Json.Assign(details.entries, key, value)) else details
  }

  /** The details after the first `n` reports; a report that is missing changes nothing. */
  function Reported(details: Json.Value, payload: seq<Json.Entry>, n: nat): Json.Value
    requires n <= |REPORTED|
  {
    if n == 0 then details
    else
      var (source, key) := REPORTED[n - 1];
      var earlier := Reported(details, payload, n - 1);
      if Json.HasKey(payload, source) then WithDetail(earlier, key, Json.Safe(Json.Get(payload, source))) else earlier
  }

  function Executed(n: Node, visible: Option<Visible>, provider: Option<string>, status: string, payload: seq<Json.Entry>): Node {
    (if visible.Some? then Named(n, visible.value) else n)
    .(status := status, provider := provider, details := Reported(n.details, payload, |REPORTED|))
  }

  /** Reports add details or change their own; every other detail stays. */
  lemma {:induction false} ReportsKeepOtherDetails(n: Node, visible: Option<Visible>, provider: Option<string>, status: string,
                                                   payload: seq<Json.Entry>, key: string)
    requires n.details.Dict?
    ensures var after := Executed(n, visible, provider, status, payload).details;
      && after.Dict?
      && (key !in ["outcomeStatus", "satisfied", "detail", "skillId"] ==> Json.Get(after.entries, key) == Json.Get(n.details.entries, key))
      && (forall i :: 0 <= i < |REPORTED| && Json.HasKey(payload, REPORTED[i].0) ==>
            Json.Get(after.entries, REPORTED[i].1) == Json.Safe(Json.Get(payload, REPORTED[i].0)))
  {
    OneReport(n.details, payload, 0, key);
    OneReport(n.details, payload, 1, key);
    OneReport(n.details, payload, 2, key);
    OneReport(n.details, payload, 3, key);
    forall i | 0 <= i < |REPORTED| && Json.HasKey(payload, REPORTED[i].0)
      ensures Json.Get(Reported(n.details, payload, 4).entries, REPORTED[i].1) == Json.Safe(Json.Get(payload, REPORTED[i].0))
    {
      OneReport(n.details, payload, 0, REPORTED[i].1);
      OneReport(n.details, payload, 1, REPORTED[i].1);
      OneReport(n.details, payload, 2, REPORTED[i].1);
      OneReport(n.details, payload, 3, REPORTED[i].1);
    }
  }

  lemma {:induction false} OneReport(details: Json.Value, payload: seq<Json.Entry>, n: nat, key: string)
    requires n < |REPORTED| && Reported(details, payload, n).Dict?
    ensures var before, after := Reported(details, payload, n), Reported(details, payload, n + 1);
      && after.Dict?
      && Json.Get(after.entries, key) ==
         if key == REPORTED[n].1 && Json.HasKey(payload, REPORTED[n].0) then Json.Safe(Json.Get(payload, REPORTED[n].0))
         else Json.Get(before.entries, key)
  {
    var before := Reported(details, payload, n);
    Json.GetAssign(before.entries, REPORTED[n].1, Json.Safe(Json.Get(payload, REPORTED[n].0)), key);
  }

  /** The last value that an update gives a key, or the value it had. */
  function LastValue(update: seq<Json.Entry>, key: string, before: Json.Value): Json.Value {
    if update == [] then before
    else if update[|update| - 1].key == key then update[|update| - 1].value
    else LastValue(update[..|update| - 1], key, before)
  }

  /** What a projector is given, one at a time. */
  datatype Event =
    | PlanTask(announcement: Announcement)
    | Execution(task: string, actual: string, provider: Option<string>, outcome: string, payload: seq<Json.Entry>)
    | NodeEvent(nodeKind: NodeEventKind, node: string, step: int, nodeTask: string)
    | RunEvent(runKind: RunEventKind)
    | StateUpdate(update: seq<Json.Entry>)

  class ExecutionProjector {
    const executionId: string
    const taskId: string
    const graphVersion: string
    const catalog: map<string, Visible>

    var status: string
    var paused: bool
    var terminal: bool
    var nodes: map<string, Node>
    var order: seq<string>
    var dependencies: seq<Dependency>
    var variables: seq<Json.Entry>
    var metadata: seq<Json.Entry>
    var planned: map<string, string>
    var plannedOrder: seq<string>
    var planDependencies: map<string, seq<string>>
    var plannedByShape: map<(string, int), seq<string>>
    var nodeKeys: map<(string, int, string), string>
    var nodeCounts: map<string, nat>
    var lastNodesByStep: map<int, seq<string>>

    /** The plan dependencies that the edges were last rebuilt from. */
    ghost var built: map<string, seq<string>>

    // ----- Invariants -----

    ghost predicate NodesValid()
      reads this`order, this`nodes
    {
      && (forall i, j :: 0 <= i < j < |order| ==> order[i] != order[j])
      && (forall id :: id in nodes <==> id in order)
      && (forall id :: id in nodes ==> nodes[id].id == id && id != "")
    }

    ghost predicate RegistriesValid()
      reads this`nodes, this`planned, this`plannedOrder, this`plannedByShape, this`nodeKeys, this`lastNodesByStep
    {
      && (forall task :: task in planned <==> task in plannedOrder)
      && (forall task :: task in planned ==> planned[task] in nodes)
      && (forall shape :: shape in plannedByShape ==>
            forall i :: 0 <= i < |plannedByShape[shape]| ==> plannedByShape[shape][i] in nodes)
      && (forall key :: key in nodeKeys ==> nodeKeys[key] in nodes)
      && (forall step :: step in lastNodesByStep ==>
            forall i :: 0 <= i < |lastNodesByStep[step]| ==> lastNodesByStep[step][i] in nodes)
    }

    ghost predicate EdgesValid()
      reads this`dependencies, this`nodes, this`built, this`planned
    {
      GoodEdges(dependencies, nodes.Keys) && Reflects(dependencies, Plan(built, planned))
    }

    ghost predicate Valid()
      reads this
    {
      NodesValid() && RegistriesValid() && EdgesValid()
    }

    function CurrentPlan(): Plan
      reads this
    {
      Plan(planDependencies, planned)
    }

    /** The edges reflect the current plan, not an older one. */
    ghost predicate InSync()
      reads this
    {
      built == planDependencies
    }

    constructor (executionId: string, taskId: string, graphVersion: string, catalog: map<string, Visible>)
      ensures Valid() && InSync()
      ensures nodes == map[] && dependencies == [] && planned == map[] && plannedOrder == [] && planDependencies == map[]
      ensures this.executionId == executionId && this.taskId == taskId && this.graphVersion == graphVersion
      ensures this.catalog == catalog
    {
      this.executionId, this.taskId, this.graphVersion, this.catalog := executionId, taskId, graphVersion, catalog;
      status, paused, terminal := "running", false, false;
      nodes, order, dependencies, variables := map[], [], [], [];
      metadata := [Json.Entry("executionId", true, Json.Text(executionId)), Json.Entry("taskId", true, Json.Text(taskId))];
      planned, plannedOrder, planDependencies, plannedByShape := map[], [], map[], map[];
      nodeKeys, nodeCounts, lastNodesByStep := map[], map[], map[];
      built := map[];
    }

    // ----- Edges -----

    method Connect(source: string, target: string, kind: string, status: string, title: string)
      modifies this`dependencies
      ensures dependencies == Joined(old(dependencies), source, target, kind, status, title)
    {
      if source == "" || target == "" || source == target {
        return;
      }
      var id := EdgeId(source, target);
      for i := 0 to |dependencies|
        invariant forall j :: 0 <= j < i ==> dependencies[j].id != id
      {
        if dependencies[i].id == id {
          return;
        }
      }
      dependencies := dependencies + [Dependency(id, source, target, kind, status, title)];
    }

    /** `edges` extends `before` by planned edges between connected nodes. */
    static ghost predicate Grown(before: seq<Dependency>, edges: seq<Dependency>, plan: Plan, ends: set<string>) {
      && before <= edges && GoodEdges(edges, ends)
      && forall i :: |before| <= i < |edges| ==>
           edges[i].kind == PLANNED && Connected(plan, edges[i].source, edges[i].target)
    }

    static ghost predicate Covers(edges: seq<Dependency>, sources: set<string>, target: string) {
      forall s :: s in sources && s != target ==> HasEdge(edges, EdgeId(s, target))
    }

    static lemma {:induction false} CoversLonger(edges: seq<Dependency>, longer: seq<Dependency>, sources: set<string>, target: string)
      requires edges <= longer && Covers(edges, sources, target)
      ensures Covers(longer, sources, target)
    {
      forall s | s in sources && s != target ensures HasEdge(longer, EdgeId(s, target)) {
        EdgeStays(edges, longer, EdgeId(s, target));
      }
    }

    static ghost predicate CoversTask(edges: seq<Dependency>, plan: Plan, task: string)
      requires task in plan.nodeOf
    {
      forall need :: need in Needs(plan, task) ==> Covers(edges, Ancestors(plan, need, {}), plan.nodeOf[task])
    }

    static lemma {:induction false} CoversTaskLonger(edges: seq<Dependency>, longer: seq<Dependency>, plan: Plan, task: string)
      requires task in plan.nodeOf && edges <= longer && CoversTask(edges, plan, task)
      ensures CoversTask(longer, plan, task)
    {
      forall need | need in Needs(plan, task) ensures Covers(longer, Ancestors(plan, need, {}), plan.nodeOf[task]) {
        CoversLonger(edges, longer, Ancestors(plan, need, {}), plan.nodeOf[task]);
      }
    }

    static lemma {:induction false} GrownByOne(start: seq<Dependency>, edges: seq<Dependency>, plan: Plan, ends: set<string>,
                                               done: set<string>, source: string, target: string, title: string)
      requires Grown(start, edges, plan, ends) && JoinedBy(start, edges, done, target)
      requires "" !in ends && source in ends && target in ends && Connected(plan, source, target)
      ensures var after := Joined(edges, source, target, PLANNED, "queued", title);
        Grown(start, after, plan, ends) && JoinedBy(start, after, done + {source}, target)
    {
      JoinOne(edges, source, target, PLANNED, "queued", title);
      JoinedKeepsGood(edges, ends, source, target, PLANNED, "queued", title);
      JoinMore(start, edges, Joined(edges, source, target, PLANNED, "queued", title), done, {source}, target);
    }

    method ConnectSources(sources: set<string>, target: string, title: string, ghost plan: Plan)
      requires "" !in nodes && target in nodes && sources <= nodes.Keys && GoodEdges(dependencies, nodes.Keys)
      requires forall s :: s in sources ==> Connected(plan, s, target)
      modifies this`dependencies
      ensures Grown(old(dependencies), dependencies, plan, nodes.Keys)
      ensures JoinedBy(old(dependencies), dependencies, sources, target)
    {
      var rest := sources;
      NothingJoined(dependencies, target);
      assert sources - rest == {};
      while rest != {}
        invariant rest <= sources
        invariant Grown(old(dependencies), dependencies, plan, nodes.Keys)
        invariant JoinedBy(old(dependencies), dependencies, sources - rest, target)
        decreases rest
      {
        var source :| source in rest;
        GrownByOne(old(dependencies), dependencies, plan, nodes.Keys, sources - rest, source, target, title);
        Connect(source, target, PLANNED, "queued", title);
        assert sources - (rest - {source}) == sources - rest + {source};
        rest := rest - {source};
      }
      assert sources - rest == sources;
    }

    static ghost predicate NeedsJoined(start: seq<Dependency>, edges: seq<Dependency>, plan: Plan, needs: seq<string>, target: string,
                                       ends: set<string>)
    {
      Grown(start, edges, plan, ends) && JoinedBy(start, edges, AncestorsOfAll(plan, needs, {}), target)
    }

    static lemma {:induction false} OneMoreNeed(start: seq<Dependency>, before: seq<Dependency>, edges: seq<Dependency>, plan: Plan,
                                                needs: seq<string>, need: string, target: string, ends: set<string>)
      requires NeedsJoined(start, before, plan, needs, target, ends) && Grown(before, edges, plan, ends)
      requires JoinedBy(before, edges, Ancestors(plan, need, {}), target)
      ensures NeedsJoined(start, edges, plan, needs + [need], target, ends)
    {
      JoinMore(start, before, edges, AncestorsOfAll(plan, needs, {}), Ancestors(plan, need, {}), target);
      AncestorsOfOneMore(plan, needs, need);
    }

    static lemma {:induction false} NoNeedsYet(edges: seq<Dependency>, plan: Plan, target: string, ends: set<string>)
      requires GoodEdges(edges, ends)
      ensures NeedsJoined(edges, edges, plan, [], target, ends)
    {
      NothingJoined(edges, target);
    }

    static lemma {:induction false} SourcesAreConnected(plan: Plan, task: string, need: string)
      requires task in plan.nodeOf && need in Needs(plan, task)
      ensures Ancestors(plan, need, {}) <= plan.nodeOf.Values
      ensures forall s :: s in Ancestors(plan, need, {}) ==> Connected(plan, s, plan.nodeOf[task])
    {
      AncestorsAreNodes(plan, need, {});
    }

    method ConnectTask(task: string)
      requires NodesValid() && RegistriesValid() && task in planned && GoodEdges(dependencies, nodes.Keys)
      modifies this`dependencies
      ensures var plan := Plan(planDependencies, planned);
        && Grown(old(dependencies), dependencies, plan, nodes.Keys) && CoversTask(dependencies, plan, task)
        && JoinedBy(old(dependencies), dependencies, AncestorsOfAll(plan, Needs(plan, task), {}), planned[task])
    {
      var plan := Plan(planDependencies, planned);
      var needs := Needs(plan, task);
      NoNeedsYet(dependencies, plan, planned[task], nodes.Keys);
      assert needs[..0] == [];
      for i := 0 to |needs|
        invariant NeedsJoined(old(dependencies), dependencies, plan, needs[..i], planned[task], nodes.Keys)
      {
        var sources := Ancestors(plan, needs[i], {});
        SourcesAreConnected(plan, task, needs[i]);
        ghost var before := dependencies;
        ConnectSources(sources, planned[task], if needs[i] in planned then "Capability dependency" else "Lingxi Runtime", plan);
        OneMoreNeed(old(dependencies), before, dependencies, plan, needs[..i], needs[i], planned[task], nodes.Keys);
        assert needs[..i + 1] == needs[..i] + [needs[i]];
      }
      assert needs[..|needs|] == needs;
      JoinedTaskIsCovered(old(dependencies), dependencies, plan, task);
    }

    static lemma {:induction false} JoinedTaskIsCovered(before: seq<Dependency>, edges: seq<Dependency>, plan: Plan, task: string)
      requires task in plan.nodeOf
      requires JoinedBy(before, edges, AncestorsOfAll(plan, Needs(plan, task), {}), plan.nodeOf[task])
      ensures CoversTask(edges, plan, task)
    {
      forall need, s | need in Needs(plan, task) && s in Ancestors(plan, need, {}) && s != plan.nodeOf[task]
        ensures HasEdge(edges, EdgeId(s, plan.nodeOf[task]))
      {
        AncestorsOfAllAre(plan, Needs(plan, task), s);
      }
    }

    static lemma {:induction false} AncestorsAreNodes(plan: Plan, task: string, visiting: set<string>)
      ensures Ancestors(plan, task, visiting) <= plan.nodeOf.Values
      decreases Unvisited(plan, visiting), 0
    {
      forall node | node in Ancestors(plan, task, visiting) ensures node in plan.nodeOf.Values {
        var path := AncestorsAreReached(plan, task, visiting, node);
        assert path[|path| - 1] in plan.nodeOf;
      }
    }

    method DropPlannedEdges()
      requires GoodEdges(dependencies, nodes.Keys)
      modifies this`dependencies
      ensures GoodEdges(dependencies, nodes.Keys)
      ensures forall i :: 0 <= i < |dependencies| ==> dependencies[i].kind != PLANNED
      ensures OnlyPlanned(old(dependencies)) ==> dependencies == []
    {
      WithoutPlannedKeepsGood(dependencies, nodes.Keys);
      if OnlyPlanned(dependencies) {
        WithoutPlannedOfOnlyPlanned(dependencies);
      }
      dependencies := WithoutPlanned(dependencies);
    }

    /** What a rebuild has done once it went through some tasks. */
    static ghost predicate Rebuilt(kept: seq<Dependency>, edges: seq<Dependency>, plan: Plan, tasks: seq<string>, ends: set<string>) {
      && Grown(kept, edges, plan, ends)
      && (forall j :: 0 <= j < |tasks| ==> tasks[j] in plan.nodeOf && CoversTask(edges, plan, tasks[j]))
      && (kept == [] ==> Lists(edges, plan, tasks))
    }

    static lemma {:induction false} RebuiltNothing(edges: seq<Dependency>, plan: Plan, ends: set<string>)
      requires GoodEdges(edges, ends)
      ensures Rebuilt(edges, edges, plan, [], ends)
    {
      EmptyLists(plan);
    }

    static lemma {:induction false} RebuiltMore(kept: seq<Dependency>, before: seq<Dependency>, edges: seq<Dependency>, plan: Plan,
                                                tasks: seq<string>, task: string, ends: set<string>)
      requires Rebuilt(kept, before, plan, tasks, ends) && Grown(before, edges, plan, ends)
      requires task in plan.nodeOf && CoversTask(edges, plan, task)
      requires JoinedBy(before, edges, AncestorsOfAll(plan, Needs(plan, task), {}), plan.nodeOf[task])
      ensures Rebuilt(kept, edges, plan, tasks + [task], ends)
    {
      forall j | 0 <= j < |tasks| ensures CoversTask(edges, plan, tasks[j]) {
        CoversTaskLonger(before, edges, plan, tasks[j]);
      }
      if kept == [] {
        ListsSnoc(before, edges, plan, tasks, task);
      }
    }

    method ConnectAll()
      requires NodesValid() && RegistriesValid() && GoodEdges(dependencies, nodes.Keys)
      modifies this`dependencies
      ensures Rebuilt(old(dependencies), dependencies, Plan(planDependencies, planned), plannedOrder, nodes.Keys)
    {
      ghost var plan := Plan(planDependencies, planned);
      RebuiltNothing(dependencies, plan, nodes.Keys);
      assert plannedOrder[..0] == [];
      for i := 0 to |plannedOrder|
        invariant GoodEdges(dependencies, nodes.Keys)
        invariant Rebuilt(old(dependencies), dependencies, plan, plannedOrder[..i], nodes.Keys)
      {
        ghost var before := dependencies;
        assert plannedOrder[i] in plannedOrder;
        ConnectTask(plannedOrder[i]);
        RebuiltMore(old(dependencies), before, dependencies, plan, plannedOrder[..i], plannedOrder[i], nodes.Keys);
        assert plannedOrder[..i + 1] == plannedOrder[..i] + [plannedOrder[i]];
      }
      assert plannedOrder[..|plannedOrder|] == plannedOrder;
    }

    /** Once the edges of every visible task are there, the list reflects the plan. */
    static lemma {:induction false} CoveredPlanIsReflected(kept: seq<Dependency>, edges: seq<Dependency>, plan: Plan,
                                                          tasks: seq<string>, ends: set<string>)
      requires Rebuilt(kept, edges, plan, tasks, ends) && forall task :: task in plan.nodeOf ==> task in tasks
      requires forall i :: 0 <= i < |kept| ==> kept[i].kind != PLANNED
      ensures Reflects(edges, plan)
    {
      forall s, t | Connected(plan, s, t) && s != t ensures HasEdge(edges, EdgeId(s, t)) {
        var task, need :| task in plan.nodeOf && plan.nodeOf[task] == t && need in Needs(plan, task)
          && s in Ancestors(plan, need, {});
        var j :| 0 <= j < |tasks| && tasks[j] == task;
        assert CoversTask(edges, plan, task);
        assert Covers(edges, Ancestors(plan, need, {}), t);
      }
    }

    method RebuildPlannedEdges()
      requires NodesValid() && RegistriesValid() && GoodEdges(dependencies, nodes.Keys)
      modifies this`dependencies, this`built
      ensures EdgesValid() && InSync()
      ensures OnlyPlanned(old(dependencies)) ==> OnlyPlanned(dependencies) && Lists(dependencies, CurrentPlan(), plannedOrder)
    {
      DropPlannedEdges();
      ghost var kept := dependencies;
      ConnectAll();
      built := planDependencies;
      CoveredPlanIsReflected(kept, dependencies, Plan(planDependencies, planned), plannedOrder, nodes.Keys);
    }

    // ----- Nodes -----

    method PutNode(node: Node)
      requires Valid() && node.id != ""
      modifies this`nodes, this`order
      ensures Valid() && nodes == old(nodes)[node.id := node]
    {
      MoreEndsKeepGood(dependencies, nodes.Keys, nodes.Keys + {node.id});
      if node.id !in nodes {
        order := order + [node.id];
      }
      nodes := nodes[node.id := node];
      assert nodes.Keys == old(nodes).Keys + {node.id};
    }

    /** Announce a plan task. Its dependencies are always recorded; a task that becomes visible,
        or is hidden, also rebuilds the edges. A repeated visible task does not: its edges stay right
        exactly when the nodes just behind it stay the same. */
    method EnsurePlannedNode(a: Announcement) returns (node: Option<string>)
      requires Valid()
      modifies this`nodes, this`order, this`dependencies, this`built, this`planned, this`plannedOrder,
               this`planDependencies, this`plannedByShape
      ensures Valid()
      ensures CurrentPlan() == Announced(old(CurrentPlan()), a, catalog)
      ensures old(nodes.Keys) <= nodes.Keys
      ensures OnlyPlanned(old(dependencies)) ==> OnlyPlanned(dependencies)
      ensures plannedOrder == old(plannedOrder) + if PlanTaskId(a) in old(planned) then [] else Shown(a, catalog)
      ensures OnlyPlanned(old(dependencies)) && !(Primitive(a) in catalog && PlanTaskId(a) in old(planned)) ==>
        Lists(dependencies, CurrentPlan(), plannedOrder)
      ensures var task := PlanTaskId(a);
        if Primitive(a) !in catalog then node == None && nodes == old(nodes) && InSync()
        else if task in old(planned) then
          && node == Some(old(planned)[task]) && nodes == old(nodes)
          && dependencies == old(dependencies) && built == old(built)
          && (Right(dependencies, old(CurrentPlan())) ==>
                (Right(dependencies, CurrentPlan()) <==> Unaffected(old(CurrentPlan()), task, a.dependsOn)))
        else
          node == Some(PlannedNodeId(a.step, task)) && InSync()
    {
      var task := PlanTaskId(a);
      ghost var before := CurrentPlan();
      planDependencies := planDependencies[task := a.dependsOn];
      var visible := Lookup(catalog, Primitive(a));
      if visible.None? {
        RebuildPlannedEdges();
        return None;
      }
      if task in planned {
        RepeatedTask(dependencies, before, task, a.dependsOn);
        return Some(planned[task]);
      }
      var id := AddPlannedNode(task, visible.value, a);
      RebuildPlannedEdges();
      return Some(id);
    }

    static lemma {:induction false} RepeatedTask(edges: seq<Dependency>, plan: Plan, task: string, needs: seq<string>)
      requires task in plan.nodeOf
      ensures Right(edges, plan) ==> (Right(edges, Renewed(plan, task, needs)) <==> Unaffected(plan, task, needs))
    {
      if Right(edges, plan) {
        RepeatStaysRightIff(edges, plan, task, needs);
      }
    }

    /** Enter a newly visible task; the edges are stale until they are rebuilt. */
    method AddPlannedNode(task: string, visible: Visible, a: Announcement) returns (id: string)
      requires Valid() && task !in planned
      modifies this`nodes, this`order, this`planned, this`plannedOrder, this`plannedByShape
      ensures NodesValid() && RegistriesValid() && GoodEdges(dependencies, nodes.Keys)
      ensures id == PlannedNodeId(a.step, task) && planned == old(planned)[task := id]
      ensures plannedOrder == old(plannedOrder) + [task]
      ensures nodes.Keys == old(nodes.Keys) + {id}
    {
      id := PlannedNodeId(a.step, task);
      PutNode(Node(id, visible.title, visible.nodeKind, visible.key, None, "queued", a.step,
                   if a.taskId == "" then None else Some(a.taskId), Json.Null, a.details, Json.Null));
      planned, plannedOrder := planned[task := id], plannedOrder + [task];
      var shape := (visible.key, a.step);
      plannedByShape := plannedByShape[shape := (if shape in plannedByShape then plannedByShape[shape] else []) + [id]];
    }

    /** After any sequence of announcements of different tasks, two nodes are joined if and only if
        they differ and one reaches the other through hidden tasks alone: for all nodes exactly when
        the ids of linked pairs can be told apart. */
    method AnnounceAll(announcements: seq<Announcement>)
      requires Valid() && InSync() && OnlyPlanned(dependencies)
      requires forall i :: 0 <= i < |announcements| ==> PlanTaskId(announcements[i]) !in planned
      requires forall i, j :: 0 <= i < j < |announcements| ==> PlanTaskId(announcements[i]) != PlanTaskId(announcements[j])
      modifies this`nodes, this`order, this`dependencies, this`built, this`planned, this`plannedOrder,
               this`planDependencies, this`plannedByShape
      ensures Valid() && CurrentPlan() == AnnouncedAll(old(CurrentPlan()), announcements, catalog)
      ensures Right(dependencies, CurrentPlan()) <==> IdsTellApart(CurrentPlan())
      ensures plannedOrder == old(plannedOrder) + ShownTasks(announcements, catalog)
      ensures if announcements == [] then dependencies == old(dependencies) else Lists(dependencies, CurrentPlan(), plannedOrder)
    {
      assert announcements[..0] == [];
      for n := 0 to |announcements|
        invariant plannedOrder == old(plannedOrder) + ShownTasks(announcements[..n], catalog)
        invariant if n == 0 then dependencies == old(dependencies) else Lists(dependencies, CurrentPlan(), plannedOrder)
        invariant Valid() && InSync() && OnlyPlanned(dependencies)
        invariant forall i :: n <= i < |announcements| ==> PlanTaskId(announcements[i]) !in planned
        invariant CurrentPlan() == AnnouncedAll(old(CurrentPlan()), announcements[..n], catalog)
      {
        assert announcements[..n + 1][..n] == announcements[..n];
        var _ := EnsurePlannedNode(announcements[n]);
      }
      assert announcements[..|announcements|] == announcements;
      EdgesAreTheContractionIff(dependencies, nodes.Keys, CurrentPlan());
    }

    /** A runtime event about a planned task updates its node and nothing else. */
    method UpdatePlannedExecution(task: string, actual: string, provider: Option<string>, status: string,
                                  payload: seq<Json.Entry>) returns (node: Option<string>)
      requires Valid()
      modifies this`nodes
      ensures Valid()
      ensures if task in planned then
          node == Some(planned[task])
          && nodes == old(nodes)[planned[task] := Executed(old(nodes)[planned[task]], Lookup(catalog, actual), provider, status, payload)]
        else node == None && nodes == old(nodes)
    {
      if task !in planned {
        return None;
      }
      var id := planned[task];
      var n := nodes[id];
      var visible := Lookup(catalog, actual);
      if visible.Some? {
        n := n.(title := visible.value.title, capability := visible.value.key, kind := visible.value.nodeKind);
      }
      n := n.(status := status, provider := provider);
      for i := 0 to |REPORTED|
        invariant n == (if visible.Some? then Named(old(nodes)[id], visible.value) else old(nodes)[id])
                       .(status := status, provider := provider, details := Reported(old(nodes)[id].details, payload, i))
      {
        if Json.HasKey(payload, REPORTED[i].0) {
          n := n.(details := WithDetail(n.details, REPORTED[i].1, Json.Safe(Json.Get(payload, REPORTED[i].0))));
        }
      }
      nodes := nodes[id := n];
      assert nodes.Keys == old(nodes).Keys;
      return Some(id);
    }

    /** The first planned node of a shape that has not started. */
    method PromotePlannedNode(capability: string, step: int) returns (node: Option<string>)
      requires Valid()
      ensures var shape := (capability, step);
        node == FirstWaiting(if shape in plannedByShape then plannedByShape[shape] else [], nodes)
    {
      var shape := (capability, step);
      var ids := if shape in plannedByShape then plannedByShape[shape] else [];
      for i := 0 to |ids|
        invariant FirstWaiting(ids, nodes) == FirstWaiting(ids[i..], nodes)
      {
        assert ids[i..][1..] == ids[i + 1..];
        if nodes[ids[i]].status == "queued" || nodes[ids[i]].status == "pending" {
          return Some(ids[i]);
        }
      }
      return None;
    }

    /** The node of one run of a visible provider: the known one, the first of its shape that still
        waits, or a new one with a number of its own. */
    method EnsureNode(provider: string, step: int, task: string) returns (id: string)
      requires Valid() && provider in catalog
      modifies this`nodes, this`order, this`nodeKeys, this`nodeCounts
      ensures Valid() && id in nodes && old(nodes.Keys) <= nodes.Keys
      ensures var key, shape := (provider, step, task), (catalog[provider].key, step);
        var waiting := FirstWaiting(if shape in plannedByShape then plannedByShape[shape] else [], old(nodes));
        && nodeKeys == old(nodeKeys)[key := id]
        && if key in old(nodeKeys) then id == old(nodeKeys)[key] && nodes == old(nodes)
           else if waiting.Some? then id == waiting.value && nodes == old(nodes)
           else
             var count := Count(old(nodeCounts), provider) + 1;
             && id == NativeNodeId(provider, step, if task != "" then task else Decimal(count))
             && nodeCounts == old(nodeCounts)[provider := count]
             && nodes == old(nodes)[id := NewNode(executionId, id, provider, catalog[provider], step, task)]
    {
      var key := (provider, step, task);
      if key in nodeKeys {
        assert nodeKeys[key := nodeKeys[key]] == nodeKeys;
        return nodeKeys[key];
      }
      var promoted := PromotePlannedNode(catalog[provider].key, step);
      if promoted.Some? {
        nodeKeys := nodeKeys[key := promoted.value];
        return promoted.value;
      }
      id := AddNode(provider, step, task);
      nodeKeys := nodeKeys[key := id];
    }

    method AddNode(provider: string, step: int, task: string) returns (id: string)
      requires Valid() && provider in catalog
      modifies this`nodes, this`order, this`nodeCounts
      ensures Valid()
      ensures var count := Count(old(nodeCounts), provider) + 1;
        && id == NativeNodeId(provider, step, if task != "" then task else Decimal(count))
        && nodeCounts == old(nodeCounts)[provider := count]
        && nodes == old(nodes)[id := NewNode(executionId, id, provider, catalog[provider], step, task)]
    {
      var count := Count(nodeCounts, provider) + 1;
      nodeCounts := nodeCounts[provider := count];
      id := NativeNodeId(provider, step, if task != "" then task else Decimal(count));
      PutNode(NewNode(executionId, id, provider, catalog[provider], step, task));
    }

    // ----- Events -----

    method SetStatus(id: string, status: string)
      requires Valid() && id in nodes
      modifies this`nodes
      ensures Valid() && nodes == old(nodes)[id := old(nodes)[id].(status := status)]
    {
      nodes := nodes[id := nodes[id].(status := status)];
      assert nodes.Keys == old(nodes).Keys;
    }

    method ConnectPrior(prior: seq<string>, id: string)
      requires Valid() && id in nodes && forall i :: 0 <= i < |prior| ==> prior[i] in nodes
      modifies this`dependencies
      ensures Valid() && old(dependencies) <= dependencies
      ensures forall i :: 0 <= i < |prior| && prior[i] != id ==> HasEdge(dependencies, EdgeId(prior[i], id))
    {
      for i := 0 to |prior|
        invariant Valid() && old(dependencies) <= dependencies
        invariant forall j :: 0 <= j < i && prior[j] != id ==> HasEdge(dependencies, EdgeId(prior[j], id))
      {
        ghost var before := dependencies;
        JoinedKeepsGood(dependencies, nodes.Keys, prior[i], id, TRANSITION, "success", "Lingxi Runtime");
        TransitionKeepsReflects(dependencies, Plan(built, planned), prior[i], id, "success", "Lingxi Runtime");
        Connect(prior[i], id, TRANSITION, "success", "Lingxi Runtime");
        forall j | 0 <= j < i && prior[j] != id ensures HasEdge(dependencies, EdgeId(prior[j], id)) {
          EdgeStays(before, dependencies, EdgeId(prior[j], id));
        }
      }
    }

    /** Remember a started node and link it to the nodes that started one step earlier. */
    method LinkStarted(id: string, step: int)
      requires Valid() && id in nodes
      modifies this`dependencies, this`lastNodesByStep
      ensures Valid() && old(dependencies) <= dependencies
      ensures step - 1 in old(lastNodesByStep) ==> forall prior :: prior in old(lastNodesByStep)[step - 1] && prior != id ==>
        HasEdge(dependencies, EdgeId(prior, id))
      ensures step in lastNodesByStep && id in lastNodesByStep[step]
    {
      ConnectPrior(if step - 1 in lastNodesByStep then lastNodesByStep[step - 1] else [], id);
      lastNodesByStep := lastNodesByStep[step := (if step in lastNodesByStep then lastNodesByStep[step] else []) + [id]];
    }

    /** One native node event; runtime mechanics, which have no visible name, change nothing. */
    method ConsumeNodeEvent(kind: NodeEventKind, provider: string, step: int, task: string) returns (node: Option<string>)
      requires Valid()
      modifies this`nodes, this`order, this`nodeKeys, this`nodeCounts, this`dependencies, this`lastNodesByStep
      ensures Valid() && old(nodes.Keys) <= nodes.Keys
      ensures node.Some? <==> provider in catalog
      ensures provider !in catalog ==> nodes == old(nodes) && dependencies == old(dependencies)
      ensures node.Some? ==> node.value in nodes && nodes[node.value].status == StatusAfter(kind)
      ensures if kind.Started? then old(dependencies) <= dependencies else dependencies == old(dependencies)
    {
      if provider !in catalog {
        return None;
      }
      var id := EnsureNode(provider, step, task);
      SetStatus(id, StatusAfter(kind));
      if kind.Started? {
        LinkStarted(id, step);
      } else if kind.Completed? {
        SetOutput(id, kind.update);
      }
      return Some(id);
    }

    method SetOutput(id: string, output: Json.Value)
      requires Valid() && id in nodes
      modifies this`nodes
      ensures Valid() && nodes == old(nodes)[id := old(nodes)[id].(output := output)]
    {
      nodes := nodes[id := nodes[id].(output := output)];
      assert nodes.Keys == old(nodes).Keys;
    }

    method ConsumeRunEvent(kind: RunEventKind)
      requires Valid()
      modifies this`status, this`paused, this`terminal, this`metadata
      ensures Valid()
      ensures match kind
        case RunStarted(at) => status == "running" && paused == old(paused) && terminal == old(terminal)
          && metadata == Json.Assign(old(metadata), "startedAt", Json.Text(at))
        case RunResumed => status == "running" && !paused && terminal == old(terminal)
        case RunPaused => status == "paused" && paused && terminal == old(terminal)
        case InterruptRaised => status == old(status) && paused && terminal == old(terminal)
        case RunEnded(outcome) => status == outcome && paused == old(paused) && terminal
    {
      match kind {
        case RunStarted(at) =>
          metadata := Json.Assign(metadata, "startedAt", Json.Text(at));
          status := "running";
        case RunResumed => paused, status := false, "running";
        case RunPaused => paused, status := true, "paused";
        case InterruptRaised => paused := true;
        case RunEnded(outcome) => terminal, status := true, outcome;
      }
    }

    method ConsumeStateUpdate(update: seq<Json.Entry>)
      requires Valid()
      modifies this`variables
      ensures Valid()
      ensures forall key :: Json.Get(variables, key) == LastValue(update, key, Json.Get(old(variables), key))
    {
      for i := 0 to |update|
        invariant forall key :: Json.Get(variables, key) == LastValue(update[..i], key, Json.Get(old(variables), key))
      {
        assert update[..i + 1][..i] == update[..i];
        ghost var before := variables;
        variables := Json.Assign(variables, update[i].key, update[i].value);
        forall key ensures Json.Get(variables, key) == if key == update[i].key then update[i].value else Json.Get(before, key) {
          Json.GetAssign(before, update[i].key, update[i].value, key);
        }
      }
      assert update[..|update|] == update;
    }

    method Consume(e: Event)
      requires Valid()
      modifies this
      ensures Valid()
    {
      match e {
        case PlanTask(a) => var _ := EnsurePlannedNode(a);
        case Execution(task, actual, provider, outcome, payload) =>
          var _ := UpdatePlannedExecution(task, actual, provider, outcome, payload);
        case NodeEvent(kind, node, step, task) => var _ := ConsumeNodeEvent(kind, node, step, task);
        case RunEvent(kind) => ConsumeRunEvent(kind);
        case StateUpdate(update) => ConsumeStateUpdate(update);
      }
    }

    // ----- The snapshot -----

    function ToSnapshot(): Snapshot
      reads this
    {
      Snapshot(executionId, taskId, graphVersion, status, paused, terminal, order, nodes, dependencies,
               Json.Dict(variables), Json.Dict([]), Json.Dict(metadata))
    }

    /** Whatever events came before, the snapshot is accepted under its own identity and read
        back unchanged. */
    lemma {:induction false} SnapshotIsAccepted()
      requires Valid()
      ensures WellFormed(ToSnapshot())
      ensures Require(ToDict(ToSnapshot()), executionId, taskId, graphVersion, None) == Ok(ToDict(ToSnapshot()))
    {
      assert forall i :: 0 <= i < |order| ==> order[i] in nodes;
      SnapshotRoundTrip(ToSnapshot(), executionId, taskId, graphVersion);
    }
  }

  /** Whatever events come, in whatever order, the snapshot after them is accepted under the projector's
      own identity and read back as it was written. */
  method Project(executionId: string, taskId: string, graphVersion: string, catalog: map<string, Visible>, events: seq<Event>)
    returns (snapshot: Snapshot)
    ensures WellFormed(snapshot)
    ensures snapshot.executionId == executionId && snapshot.taskId == taskId && snapshot.graphVersion == graphVersion
    ensures Require(ToDict(snapshot), executionId, taskId, graphVersion, None) == Ok(ToDict(snapshot))
  {
    var projector := new ExecutionProjector(executionId, taskId, graphVersion, catalog);
    for i := 0 to |events|
      invariant projector.Valid() && fresh(projector)
    {
      projector.Consume(events[i]);
    }
    projector.SnapshotIsAccepted();
    snapshot := projector.ToSnapshot();
  }
}
