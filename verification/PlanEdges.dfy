/** The list of dependency edges an execution snapshot carries, and what rebuilding its planned
    part from the plan graph guarantees. */
module PlanEdges {
  import opened ExecutionSnapshot
  import opened PlanGraph

  const PLANNED := "dependency"
  const TRANSITION := "transition"

  function EdgeId(source: string, target: string): string {
    source + "->" + target
  }

  predicate HasEdge(edges: seq<Dependency>, id: string) {
    exists i :: 0 <= i < |edges| && edges[i].id == id
  }

  /** Connecting skips missing ends, self-loops and ids that are already there. */
  function Joined(edges: seq<Dependency>, source: string, target: string, kind: string, status: string, title: string)
    : seq<Dependency>
  {
    if source == "" || target == "" || source == target || HasEdge(edges, EdgeId(source, target)) then edges
    else edges + [Dependency(EdgeId(source, target), source, target, kind, status, title)]
  }

  function WithoutPlanned(edges: seq<Dependency>): seq<Dependency> {
    if edges == [] then []
    else
      var rest := WithoutPlanned(edges[..|edges| - 1]);
      if edges[|edges| - 1].kind != PLANNED then rest + [edges[|edges| - 1]] else rest
  }

  // ----- Well-formed edge lists -----

  predicate GoodEdge(d: Dependency, ends: set<string>) {
    && d.id == EdgeId(d.source, d.target) && d.source != d.target
    && d.source in ends && d.target in ends
  }

  /** Edge ids are unique, no edge is a self-loop and both ends of each edge are in `ends`. */
  ghost predicate GoodEdges(edges: seq<Dependency>, ends: set<string>) {
    && (forall i :: 0 <= i < |edges| ==> GoodEdge(edges[i], ends))
    && (forall i, j :: 0 <= i < j < |edges| ==> edges[i].id != edges[j].id)
  }

  /** Every planned edge joins a connected pair, and every connected pair of different nodes has
      an edge with its id (planned, unless a transition took the id first). */
  ghost predicate Reflects(edges: seq<Dependency>, plan: Plan) {
    && (forall i :: 0 <= i < |edges| && edges[i].kind == PLANNED ==> Connected(plan, edges[i].source, edges[i].target))
    && (forall s, t :: Connected(plan, s, t) && s != t ==> HasEdge(edges, EdgeId(s, t)))
  }

  lemma {:induction false} JoinedKeepsGood(edges: seq<Dependency>, ends: set<string>, source: string, target: string, kind: string,
                        status: string, title: string)
    requires GoodEdges(edges, ends) && source in ends && target in ends
    ensures GoodEdges(Joined(edges, source, target, kind, status, title), ends)
    ensures edges <= Joined(edges, source, target, kind, status, title)
    ensures source != target && source != "" && target != "" ==>
      HasEdge(Joined(edges, source, target, kind, status, title), EdgeId(source, target))
  {
    var joined := Joined(edges, source, target, kind, status, title);
    if joined != edges {
      assert joined[|edges|].id == EdgeId(source, target);
    }
  }

  lemma {:induction false} MoreEndsKeepGood(edges: seq<Dependency>, ends: set<string>, more: set<string>)
    requires GoodEdges(edges, ends) && ends <= more
    ensures GoodEdges(edges, more)
  {
    forall i | 0 <= i < |edges| ensures GoodEdge(edges[i], more) {
      assert GoodEdge(edges[i], ends);
    }
  }

  lemma {:induction false} TransitionKeepsReflects(edges: seq<Dependency>, plan: Plan, source: string, target: string, status: string,
                                title: string)
    requires Reflects(edges, plan)
    ensures Reflects(Joined(edges, source, target, TRANSITION, status, title), plan)
  {
    var joined := Joined(edges, source, target, TRANSITION, status, title);
    forall s, t | Connected(plan, s, t) && s != t ensures HasEdge(joined, EdgeId(s, t)) {
      EdgeStays(edges, joined, EdgeId(s, t));
    }
  }

  lemma {:induction false} WithoutPlannedKeepsGood(edges: seq<Dependency>, ends: set<string>)
    requires GoodEdges(edges, ends)
    ensures GoodEdges(WithoutPlanned(edges), ends)
    ensures forall i :: 0 <= i < |WithoutPlanned(edges)| ==>
      WithoutPlanned(edges)[i].kind != PLANNED && HasEdge(edges, WithoutPlanned(edges)[i].id)
  {
    if edges != [] {
      var init := edges[..|edges| - 1];
      WithoutPlannedKeepsGood(init, ends);
      var kept := WithoutPlanned(init);
      forall i | 0 <= i < |kept|
        ensures HasEdge(edges, kept[i].id) && kept[i].id != edges[|edges| - 1].id
      {
        var k :| 0 <= k < |init| && init[k].id == kept[i].id;
        assert edges[k].id == kept[i].id;
      }
      assert edges[|edges| - 1].id == edges[|edges| - 1].id;
    }
  }

  predicate OnlyPlanned(edges: seq<Dependency>) {
    forall i :: 0 <= i < |edges| ==> edges[i].kind == PLANNED
  }

  lemma {:induction false} WithoutPlannedOfOnlyPlanned(edges: seq<Dependency>)
    requires OnlyPlanned(edges)
    ensures WithoutPlanned(edges) == []
  {
    if edges != [] {
      WithoutPlannedOfOnlyPlanned(edges[..|edges| - 1]);
    }
  }

  lemma {:induction false} EdgeStays(edges: seq<Dependency>, longer: seq<Dependency>, id: string)
    requires edges <= longer && HasEdge(edges, id)
    ensures HasEdge(longer, id)
  {
    var k :| 0 <= k < |edges| && edges[k].id == id;
    assert longer[k].id == id;
  }

  // ----- Ids and ends -----

  /** An id in which "->" does not occur. */
  predicate Clean(id: string) {
    forall i :: 0 <= i < |id| - 1 ==> !(id[i] == '-' && id[i + 1] == '>')
  }

  lemma {:induction false} EdgeIdIsInjective(s: string, t: string, s': string, t': string)
    requires Clean(s) && Clean(s') && EdgeId(s, t) == EdgeId(s', t')
    ensures s == s' && t == t'
  {
    var id := EdgeId(s, t);
    if |s| < |s'| {
      LongerSourceHasArrow(s, t, s', t');
    } else if |s'| < |s| {
      LongerSourceHasArrow(s', t', s, t);
    } else {
      assert s == id[..|s|] == s';
      assert t == id[|s| + 2..] == t';
    }
  }

  /** Of two splits of one edge id, the longer source contains an arrow. */
  lemma {:induction false} LongerSourceHasArrow(s: string, t: string, s': string, t': string)
    requires EdgeId(s, t) == EdgeId(s', t') && |s| < |s'|
    ensures !Clean(s')
  {
    var id := EdgeId(s, t);
    assert id[|s|] == '-' && id[|s| + 1] == '>' && id[|s'|] == '-';
    assert id[|s|] == s'[|s|] && id[|s| + 1] == s'[|s| + 1];
  }

  ghost predicate HasEnds(edges: seq<Dependency>, source: string, target: string) {
    exists i :: 0 <= i < |edges| && edges[i].source == source && edges[i].target == target
  }

  /** Two nodes are joined if and only if they differ and one reaches the other through hidden tasks
      alone. */
  ghost predicate Right(edges: seq<Dependency>, plan: Plan) {
    forall s, t :: HasEnds(edges, s, t) <==> s != t && Linked(plan, s, t)
  }

  ghost predicate Pair(plan: Plan, source: string, target: string) {
    source != target && Linked(plan, source, target)
  }

  /** Different linked pairs have different edge ids. */
  ghost predicate IdsTellApart(plan: Plan) {
    forall s, t, s', t' :: Pair(plan, s, t) && Pair(plan, s', t') && EdgeId(s, t) == EdgeId(s', t') ==> s == s' && t == t'
  }

  /** The main claim: a list that is built from a plan, without transitions, is its contraction if and
      only if the edge ids tell the linked pairs apart. The condition speaks of the plan graph alone. */
  lemma {:induction false} EdgesAreTheContractionIff(edges: seq<Dependency>, ends: set<string>, plan: Plan)
    requires GoodEdges(edges, ends) && Reflects(edges, plan) && OnlyPlanned(edges)
    ensures Right(edges, plan) <==> IdsTellApart(plan)
  {
    if IdsTellApart(plan) {
      forall s, t ensures HasEnds(edges, s, t) <==> s != t && Linked(plan, s, t) {
        OnlyLinkedAreJoined(edges, ends, plan, s, t);
        if Pair(plan, s, t) {
          var k := EdgeOfPair(edges, ends, plan, s, t);
          OnlyLinkedAreJoined(edges, ends, plan, edges[k].source, edges[k].target);
          assert Pair(plan, edges[k].source, edges[k].target);
        }
      }
    } else if Right(edges, plan) {
      var s, t, s', t' :| Pair(plan, s, t) && Pair(plan, s', t') && EdgeId(s, t) == EdgeId(s', t') && !(s == s' && t == t');
      assert HasEnds(edges, s, t) && HasEnds(edges, s', t');
      SameIdSameEnds(edges, ends, s, t, s', t');
    }
  }

  lemma {:induction false} SameIdSameEnds(edges: seq<Dependency>, ends: set<string>, s: string, t: string, s': string, t': string)
    requires GoodEdges(edges, ends) && HasEnds(edges, s, t) && HasEnds(edges, s', t') && EdgeId(s, t) == EdgeId(s', t')
    ensures s == s' && t == t'
  {
    var i :| 0 <= i < |edges| && edges[i].source == s && edges[i].target == t;
    var j :| 0 <= j < |edges| && edges[j].source == s' && edges[j].target == t';
    assert GoodEdge(edges[i], ends) && GoodEdge(edges[j], ends);
    assert edges[i].id == edges[j].id;
  }

  lemma {:induction false} OnlyLinkedAreJoined(edges: seq<Dependency>, ends: set<string>, plan: Plan, source: string, target: string)
    requires GoodEdges(edges, ends) && Reflects(edges, plan) && OnlyPlanned(edges)
    ensures HasEnds(edges, source, target) ==> Pair(plan, source, target)
  {
    if HasEnds(edges, source, target) {
      var k :| 0 <= k < |edges| && edges[k].source == source && edges[k].target == target;
      assert GoodEdge(edges[k], ends) && edges[k].kind == PLANNED;
      ConnectedAreLinked(plan, source, target);
    }
  }

  lemma {:induction false} EdgeOfPair(edges: seq<Dependency>, ends: set<string>, plan: Plan, source: string, target: string)
    returns (k: nat)
    requires GoodEdges(edges, ends) && Reflects(edges, plan) && Pair(plan, source, target)
    ensures k < |edges| && edges[k].id == EdgeId(source, target)
    ensures edges[k].id == EdgeId(edges[k].source, edges[k].target) && HasEnds(edges, edges[k].source, edges[k].target)
  {
    ConnectedAreLinked(plan, source, target);
    k :| 0 <= k < |edges| && edges[k].id == EdgeId(source, target);
    assert GoodEdge(edges[k], ends);
  }

  /** Ids without an arrow tell all pairs apart. */
  lemma {:induction false} CleanIdsTellApart(plan: Plan)
    requires forall task :: task in plan.nodeOf ==> Clean(plan.nodeOf[task])
    ensures IdsTellApart(plan)
  {
    forall s, t, s', t' | Pair(plan, s, t) && Pair(plan, s', t') && EdgeId(s, t) == EdgeId(s', t') ensures s == s' && t == t' {
      var walk :| ContractedWalk(plan, walk) && plan.nodeOf[walk[0]] == t && plan.nodeOf[walk[|walk| - 1]] == s;
      var walk' :| ContractedWalk(plan, walk') && plan.nodeOf[walk'[0]] == t' && plan.nodeOf[walk'[|walk'| - 1]] == s';
      assert walk[1..][|walk| - 2] in plan.nodeOf && walk'[1..][|walk'| - 2] in plan.nodeOf;
      EdgeIdIsInjective(s, t, s', t');
    }
  }

  ghost predicate BuiltFrom(edges: seq<Dependency>, ends: set<string>, plan: Plan) {
    GoodEdges(edges, ends) && Reflects(edges, plan) && OnlyPlanned(edges)
  }

  // ----- Which pair gets a shared id -----

  /** The task asks for an edge from `source` to `target`. */
  predicate JoinsAt(plan: Plan, task: string, source: string, target: string) {
    && task in plan.nodeOf && plan.nodeOf[task] == target && source != target
    && source in AncestorsOfAll(plan, Needs(plan, task), {})
  }

  /** A rebuild that goes through the tasks in this order gives the id to some pair. */
  ghost predicate Taken(plan: Plan, order: seq<string>, id: string) {
    order != [] && (
      || Taken(plan, order[..|order| - 1], id)
      || exists source, target :: JoinsAt(plan, order[|order| - 1], source, target) && EdgeId(source, target) == id)
  }

  /** It joins the pair: some task asks for it before any task asks for another pair with its id. */
  ghost predicate Kept(plan: Plan, order: seq<string>, source: string, target: string) {
    order != [] && (
      || Kept(plan, order[..|order| - 1], source, target)
      || (JoinsAt(plan, order[|order| - 1], source, target) && !Taken(plan, order[..|order| - 1], EdgeId(source, target))))
  }

  /** The edges are what a rebuild in this order leaves. */
  ghost predicate Lists(edges: seq<Dependency>, plan: Plan, order: seq<string>) {
    && (forall s, t :: HasEnds(edges, s, t) <==> Kept(plan, order, s, t))
    && (forall id :: HasEdge(edges, id) <==> Taken(plan, order, id))
  }

  /** Edges from some sources to one target were added, but for ids that were there. */
  ghost predicate JoinedBy(before: seq<Dependency>, after: seq<Dependency>, sources: set<string>, target: string) {
    && (forall s, t :: HasEnds(after, s, t) <==>
          HasEnds(before, s, t) || (t == target && s in sources && s != t && !HasEdge(before, EdgeId(s, t))))
    && (forall id :: HasEdge(after, id) <==>
          HasEdge(before, id) || exists s :: s in sources && s != target && EdgeId(s, target) == id)
  }

  lemma {:induction false} SameTarget(s: string, s': string, target: string)
    ensures EdgeId(s, target) == EdgeId(s', target) ==> s == s'
  {
    if EdgeId(s, target) == EdgeId(s', target) {
      assert |s| == |s'|;
      assert s == EdgeId(s, target)[..|s|] && s' == EdgeId(s', target)[..|s|];
    }
  }

  lemma {:induction false} NothingJoined(edges: seq<Dependency>, target: string)
    ensures JoinedBy(edges, edges, {}, target)
  {
  }

  lemma {:induction false} JoinOne(edges: seq<Dependency>, source: string, target: string, kind: string, status: string, title: string)
    requires source != "" && target != ""
    ensures JoinedBy(edges, Joined(edges, source, target, kind, status, title), {source}, target)
  {
    var after := Joined(edges, source, target, kind, status, title);
    if after != edges {
      forall s, t ensures HasEnds(after, s, t) <==> HasEnds(edges, s, t) || (s == source && t == target) {
        EndsSnoc(edges, after[|edges|], s, t);
      }
      forall id ensures HasEdge(after, id) <==> HasEdge(edges, id) || id == EdgeId(source, target) {
        EdgeSnoc(edges, after[|edges|], id);
      }
    }
  }

  lemma {:induction false} EndsSnoc(edges: seq<Dependency>, d: Dependency, s: string, t: string)
    ensures HasEnds(edges + [d], s, t) <==> HasEnds(edges, s, t) || (d.source == s && d.target == t)
  {
    var longer := edges + [d];
    if HasEnds(edges, s, t) {
      var k :| 0 <= k < |edges| && edges[k].source == s && edges[k].target == t;
      assert longer[k] == edges[k];
    }
    assert longer[|edges|] == d;
  }

  lemma {:induction false} EdgeSnoc(edges: seq<Dependency>, d: Dependency, id: string)
    ensures HasEdge(edges + [d], id) <==> HasEdge(edges, id) || d.id == id
  {
    var longer := edges + [d];
    if HasEdge(edges, id) {
      EdgeStays(edges, longer, id);
    }
    assert longer[|edges|] == d;
  }

  lemma {:induction false} JoinMore(a: seq<Dependency>, b: seq<Dependency>, c: seq<Dependency>, first: set<string>,
                                    second: set<string>, target: string)
    requires JoinedBy(a, b, first, target) && JoinedBy(b, c, second, target)
    ensures JoinedBy(a, c, first + second, target)
  {
    forall s, t ensures HasEnds(c, s, t) <==>
      HasEnds(a, s, t) || (t == target && s in first + second && s != t && !HasEdge(a, EdgeId(s, t)))
    {
      if t == target && s != t && s in second {
        forall s' ensures EdgeId(s', target) == EdgeId(s, target) ==> s' == s {
          SameTarget(s', s, target);
        }
      }
    }
  }

  /** A task's turn in the rebuild. */
  lemma {:induction false} ListsSnoc(before: seq<Dependency>, after: seq<Dependency>, plan: Plan, order: seq<string>, task: string)
    requires Lists(before, plan, order) && task in plan.nodeOf
    requires JoinedBy(before, after, AncestorsOfAll(plan, Needs(plan, task), {}), plan.nodeOf[task])
    ensures Lists(after, plan, order + [task])
  {
    assert (order + [task])[..|order|] == order;
    var sources, target := AncestorsOfAll(plan, Needs(plan, task), {}), plan.nodeOf[task];
    forall id ensures HasEdge(after, id) <==> Taken(plan, order + [task], id) {
      if s :| s in sources && s != target && EdgeId(s, target) == id {
        assert JoinsAt(plan, task, s, target);
      }
    }
  }

  lemma {:induction false} EmptyLists(plan: Plan)
    ensures Lists([], plan, [])
  {
  }

  lemma {:induction false} KeptIsTaken(plan: Plan, order: seq<string>, s: string, t: string)
    requires Kept(plan, order, s, t)
    ensures Taken(plan, order, EdgeId(s, t))
  {
    if Kept(plan, order[..|order| - 1], s, t) {
      KeptIsTaken(plan, order[..|order| - 1], s, t);
    }
  }

  /** No id is given to two pairs. */
  lemma {:induction false} KeptApart(plan: Plan, order: seq<string>, s: string, t: string, s': string, t': string)
    requires Kept(plan, order, s, t) && Kept(plan, order, s', t') && EdgeId(s, t) == EdgeId(s', t')
    ensures s == s' && t == t'
  {
    var init := order[..|order| - 1];
    if Kept(plan, init, s, t) {
      KeptIsTaken(plan, init, s, t);
      KeptApart(plan, init, s, t, s', t');
    } else if Kept(plan, init, s', t') {
      KeptIsTaken(plan, init, s', t');
    } else {
      SameTarget(s, s', t);
    }
  }

  /** The task that comes first keeps all its pairs. */
  lemma {:induction false} FirstTaskKeeps(plan: Plan, order: seq<string>, s: string, t: string)
    requires order != [] && JoinsAt(plan, order[0], s, t)
    ensures Kept(plan, order, s, t)
  {
    if |order| > 1 {
      FirstTaskKeeps(plan, order[..|order| - 1], s, t);
    }
  }

  lemma {:induction false} KeptJoins(plan: Plan, order: seq<string>, s: string, t: string)
    requires Kept(plan, order, s, t)
    ensures exists k :: 0 <= k < |order| && JoinsAt(plan, order[k], s, t)
  {
    var init := order[..|order| - 1];
    if Kept(plan, init, s, t) {
      KeptJoins(plan, init, s, t);
      var k :| 0 <= k < |init| && JoinsAt(plan, init[k], s, t);
      assert order[k] == init[k];
    } else {
      assert JoinsAt(plan, order[|order| - 1], s, t);
    }
  }

  lemma {:induction false} TakenJoins(plan: Plan, order: seq<string>, id: string) returns (s: string, t: string)
    requires Taken(plan, order, id)
    ensures Kept(plan, order, s, t) && EdgeId(s, t) == id
  {
    var init := order[..|order| - 1];
    if Taken(plan, init, id) {
      s, t := TakenJoins(plan, init, id);
    } else {
      s, t :| JoinsAt(plan, order[|order| - 1], s, t) && EdgeId(s, t) == id;
    }
  }

  lemma {:induction false} JoinsArePairs(plan: Plan, task: string, s: string, t: string)
    requires JoinsAt(plan, task, s, t)
    ensures Pair(plan, s, t)
  {
    AncestorsOfAllAre(plan, Needs(plan, task), s);
    assert Connected(plan, s, t);
    ConnectedAreLinked(plan, s, t);
  }

  lemma {:induction false} PairsAreJoined(plan: Plan, s: string, t: string) returns (task: string)
    requires Pair(plan, s, t)
    ensures JoinsAt(plan, task, s, t)
  {
    ConnectedAreLinked(plan, s, t);
    var need;
    task, need :| task in plan.nodeOf && plan.nodeOf[task] == t && need in Needs(plan, task) && s in Ancestors(plan, need, {});
    AncestorsOfAllAre(plan, Needs(plan, task), s);
  }

  /** When ids tell the linked pairs apart, every pair that some task of the order asks for is kept. */
  lemma {:induction false} AllKeptWhenApart(plan: Plan, order: seq<string>, k: nat, s: string, t: string)
    requires IdsTellApart(plan) && k < |order| && JoinsAt(plan, order[k], s, t)
    ensures Kept(plan, order, s, t)
  {
    var init := order[..|order| - 1];
    if k < |order| - 1 {
      AllKeptWhenApart(plan, init, k, s, t);
    } else if Taken(plan, init, EdgeId(s, t)) {
      var s', t' := TakenJoins(plan, init, EdgeId(s, t));
      KeptJoins(plan, init, s', t');
      var j :| 0 <= j < |init| && JoinsAt(plan, init[j], s', t');
      JoinsArePairs(plan, init[j], s', t');
      JoinsArePairs(plan, order[k], s, t);
    }
  }

  /** With transitions present, too, a linked pair is joined unless an edge between other nodes has
      taken its id. */
  lemma {:induction false} LinkedNodesAreJoinedIff(edges: seq<Dependency>, ends: set<string>, plan: Plan, source: string, target: string)
    requires GoodEdges(edges, ends) && Reflects(edges, plan) && Pair(plan, source, target)
    ensures HasEnds(edges, source, target) <==>
      forall i :: 0 <= i < |edges| && edges[i].id == EdgeId(source, target) ==> edges[i].source == source && edges[i].target == target
  {
    var k := EdgeOfPair(edges, ends, plan, source, target);
    if HasEnds(edges, source, target) {
      SameIdSameEnds(edges, ends, source, target, edges[k].source, edges[k].target);
      forall i | 0 <= i < |edges| && edges[i].id == EdgeId(source, target) ensures i == k {
      }
    }
  }

  // ----- Announcements that do not rebuild -----

  /** Edges that were right for the plan are still right after a visible task was announced again with
      other needs, if and only if the nodes just behind that task are the same. */
  lemma {:induction false} RepeatStaysRightIff(edges: seq<Dependency>, plan: Plan, task: string, needs: seq<string>)
    requires Right(edges, plan) && task in plan.nodeOf
    ensures Right(edges, Renewed(plan, task, needs)) <==> Unaffected(plan, task, needs)
    ensures NodesDiffer(plan) ==>
      (Right(edges, Renewed(plan, task, needs)) <==> SourcesOf(plan, task, Needs(plan, task)) == SourcesOf(plan, task, needs))
  {
    var renewed := Renewed(plan, task, needs);
    forall s, t ensures (Connected(plan, s, t) <==> Linked(plan, s, t)) && (Connected(renewed, s, t) <==> Linked(renewed, s, t)) {
      ConnectedAreLinked(plan, s, t);
      ConnectedAreLinked(renewed, s, t);
    }
    RenewedConnectsTheSameIff(plan, task, needs);
    if NodesDiffer(plan) {
      UnaffectedIff(plan, task, needs);
    }
  }

  /** Announcing a visible task again with a new dependency leaves its edge out. */
  lemma {:induction false} RepeatedAnnouncementGoesStale()
    ensures var nodes := map["a" := "plan:0:a", "b" := "plan:0:b"];
            var before := Plan(map["a" := [], "b" := []], nodes);
            Right([], before) && !Right([], Renewed(before, "b", ["a"]))
  {
    var nodes := map["a" := "plan:0:a", "b" := "plan:0:b"];
    var before := Plan(map["a" := [], "b" := []], nodes);
    var after := Renewed(before, "b", ["a"]);
    forall s, t ensures !Linked(before, s, t) {
      ConnectedAreLinked(before, s, t);
    }
    assert "plan:0:a" in Ancestors(after, "a", {});
    assert "a" in Needs(after, "b");
    ConnectedAreLinked(after, "plan:0:a", "plan:0:b");
    assert Connected(after, "plan:0:a", "plan:0:b");
    assert "plan:0:a"[7] != "plan:0:b"[7];
  }
}
