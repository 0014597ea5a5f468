/** Contracting hidden tasks out of a plan graph.

    A task is visible when it has a node. The projector joins two visible tasks when one reaches
    the other through hidden tasks only; it finds them with a search that remembers the tasks on
    its own path. This file proves that search complete and correct, on cyclic graphs too. */
module PlanGraph {

  datatype Plan = Plan(dependsOn: map<string, seq<string>>, nodeOf: map<string, string>)

  function Needs(plan: Plan, task: string): seq<string> {
    if task in plan.dependsOn then plan.dependsOn[task] else []
  }

  // ----- The search -----

  /** The tasks still worth visiting; visiting one leaves fewer. */
  function Unvisited(plan: Plan, visiting: set<string>): nat {
    |plan.dependsOn.Keys - visiting|
  }

  lemma {:induction false} VisitShrinks(plan: Plan, task: string, visiting: set<string>)
    requires task in plan.dependsOn && task !in visiting
    ensures Unvisited(plan, visiting + {task}) < Unvisited(plan, visiting)
  {
    assert plan.dependsOn.Keys - (visiting + {task}) == (plan.dependsOn.Keys - visiting) - {task};
  }

  /** Nodes of the nearest visible tasks at or before `task`, not passing through `visiting`. */
  function Ancestors(plan: Plan, task: string, visiting: set<string>): set<string>
    decreases Unvisited(plan, visiting), 0
  {
    if task in visiting then {}
    else if task in plan.nodeOf then {plan.nodeOf[task]}
    else if task !in plan.dependsOn then {}
    else
      VisitShrinks(plan, task, visiting);
      AncestorsOfAll(plan, plan.dependsOn[task], visiting + {task})
  }

  function AncestorsOfAll(plan: Plan, tasks: seq<string>, visiting: set<string>): set<string>
    decreases Unvisited(plan, visiting), |tasks|
  {
    if tasks == [] then {}
    else Ancestors(plan, tasks[0], visiting) + AncestorsOfAll(plan, tasks[1..], visiting)
  }

  // ----- What it is meant to find -----

  /** A path of the plan graph whose tasks are hidden, except for the visible one it ends in. */
  ghost predicate HiddenPath(plan: Plan, path: seq<string>) {
    && |path| > 0
    && (forall i :: 0 <= i < |path| - 1 ==> path[i + 1] in Needs(plan, path[i]) && path[i] !in plan.nodeOf)
    && path[|path| - 1] in plan.nodeOf
  }

  ghost predicate Avoids(path: seq<string>, visiting: set<string>) {
    forall i :: 0 <= i < |path| ==> path[i] !in visiting
  }

  ghost predicate Leads(plan: Plan, path: seq<string>, task: string, node: string, visiting: set<string>) {
    HiddenPath(plan, path) && path[0] == task && plan.nodeOf[path[|path| - 1]] == node && Avoids(path, visiting)
  }

  // ----- The search finds only such paths -----

  lemma {:induction false} AncestorsAreReached(plan: Plan, task: string, visiting: set<string>, node: string)
    returns (path: seq<string>)
    requires node in Ancestors(plan, task, visiting)
    ensures Leads(plan, path, task, node, visiting)
    decreases Unvisited(plan, visiting)
  {
    if task in plan.nodeOf {
      path := [task];
    } else {
      VisitShrinks(plan, task, visiting);
      var needs := plan.dependsOn[task];
      var k := SomeAncestor(plan, needs, visiting + {task}, node);
      var rest := AncestorsAreReached(plan, needs[k], visiting + {task}, node);
      ExtendPath(plan, task, rest, node, visiting);
      path := [task] + rest;
    }
  }

  lemma {:induction false} ExtendPath(plan: Plan, task: string, rest: seq<string>, node: string, visiting: set<string>)
    requires task !in plan.nodeOf && task !in visiting
    requires |rest| > 0 && rest[0] in Needs(plan, task) && Leads(plan, rest, rest[0], node, visiting + {task})
    ensures Leads(plan, [task] + rest, task, node, visiting)
  {
    var path := [task] + rest;
    forall i | 0 <= i < |path| - 1
      ensures path[i + 1] in Needs(plan, path[i]) && path[i] !in plan.nodeOf
    {
      if i > 0 {
        assert path[i] == rest[i - 1] && path[i + 1] == rest[i];
      }
    }
    forall i | 0 <= i < |path| ensures path[i] !in visiting {
      if i > 0 {
        assert path[i] == rest[i - 1] && rest[i - 1] !in visiting + {task};
      }
    }
  }

  lemma {:induction false} SomeAncestor(plan: Plan, tasks: seq<string>, visiting: set<string>, node: string)
    returns (k: nat)
    requires node in AncestorsOfAll(plan, tasks, visiting)
    ensures k < |tasks| && node in Ancestors(plan, tasks[k], visiting)
  {
    if node in Ancestors(plan, tasks[0], visiting) {
      k := 0;
    } else {
      var rest := SomeAncestor(plan, tasks[1..], visiting, node);
      k := rest + 1;
    }
  }

  // ----- The search finds all of them -----

  lemma {:induction false} AncestorsOfAllCover(plan: Plan, tasks: seq<string>, visiting: set<string>, k: nat)
    requires k < |tasks|
    ensures Ancestors(plan, tasks[k], visiting) <= AncestorsOfAll(plan, tasks, visiting)
  {
    if k > 0 {
      AncestorsOfAllCover(plan, tasks[1..], visiting, k - 1);
    }
  }

  /** The part of a path after its last visit to `task`. */
  function AfterLast(path: seq<string>, task: string): (rest: seq<string>)
    ensures task !in rest && |rest| <= |path| && rest == path[|path| - |rest|..]
    ensures task in path ==> |rest| < |path| && path[|path| - |rest| - 1] == task
    ensures task !in path ==> rest == path
  {
    if path == [] then []
    else
      var rest := AfterLast(path[1..], task);
      if task in path[1..] then rest
      else if path[0] == task then path[1..]
      else path
  }

  lemma {:induction false} ReachedAreAncestors(plan: Plan, path: seq<string>, task: string, node: string, visiting: set<string>)
    requires Leads(plan, path, task, node, visiting)
    ensures node in Ancestors(plan, task, visiting)
    decreases |path|
  {
    if |path| > 1 {
      assert path[1] in Needs(plan, task);
      var rest := LoopFreeTail(plan, path, task, node, visiting);
      var needs := plan.dependsOn[task];
      var k :| 0 <= k < |needs| && needs[k] == rest[0];
      ReachedAreAncestors(plan, rest, rest[0], node, visiting + {task});
      AncestorsOfAllCover(plan, needs, visiting + {task}, k);
    }
  }

  /** What remains of a path after it last left its first task. */
  lemma {:induction false} LoopFreeTail(plan: Plan, path: seq<string>, task: string, node: string, visiting: set<string>)
    returns (rest: seq<string>)
    requires Leads(plan, path, task, node, visiting) && |path| > 1
    ensures 0 < |rest| < |path| && rest[0] in Needs(plan, task)
    ensures Leads(plan, rest, rest[0], node, visiting + {task})
  {
    rest := AfterLast(path, task);
    var at := |path| - |rest| - 1;
    assert path[0] !in plan.nodeOf;
    assert at < |path| - 1;
    forall i | 0 <= i < |rest| - 1
      ensures rest[i + 1] in Needs(plan, rest[i]) && rest[i] !in plan.nodeOf
    {
      assert rest[i] == path[at + 1 + i] && rest[i + 1] == path[at + 1 + i + 1];
    }
    forall i | 0 <= i < |rest| ensures rest[i] !in visiting + {task} {
      assert rest[i] == path[at + 1 + i];
    }
    assert rest[0] == path[at + 1];
  }

  /** The search from `task` returns exactly the nodes that hidden paths from it lead to. */
  lemma {:induction false} AncestorsAreExact(plan: Plan, task: string, node: string)
    ensures node in Ancestors(plan, task, {}) <==> exists path :: Leads(plan, path, task, node, {})
  {
    if node in Ancestors(plan, task, {}) {
      var _ := AncestorsAreReached(plan, task, {}, node);
    }
    if path :| Leads(plan, path, task, node, {}) {
      ReachedAreAncestors(plan, path, task, node, {});
    }
  }

  // ----- Contracted links -----

  /** A walk of at least one dependency from one visible task to another through hidden ones. */
  ghost predicate ContractedWalk(plan: Plan, walk: seq<string>) {
    && |walk| >= 2 && walk[0] in plan.nodeOf
    && walk[1] in Needs(plan, walk[0])
    && HiddenPath(plan, walk[1..])
  }

  /** `source` and `target` are nodes of tasks joined by a contracted walk. */
  ghost predicate Linked(plan: Plan, source: string, target: string) {
    exists walk :: ContractedWalk(plan, walk)
      && plan.nodeOf[walk[0]] == target && plan.nodeOf[walk[|walk| - 1]] == source
  }

  /** The pairs the projector connects: one per dependency and nearest visible ancestor. */
  ghost predicate Connected(plan: Plan, source: string, target: string) {
    exists task, need :: task in plan.nodeOf && plan.nodeOf[task] == target
      && need in Needs(plan, task) && source in Ancestors(plan, need, {})
  }

  lemma {:induction false} ConnectedAreLinked(plan: Plan, source: string, target: string)
    ensures Connected(plan, source, target) <==> Linked(plan, source, target)
  {
    if Connected(plan, source, target) {
      var task, need :| task in plan.nodeOf && plan.nodeOf[task] == target
        && need in Needs(plan, task) && source in Ancestors(plan, need, {});
      AncestorsAreExact(plan, need, source);
      var path :| Leads(plan, path, need, source, {});
      var walk := [task] + path;
      assert walk[1..] == path;
      assert ContractedWalk(plan, walk);
    }
    if Linked(plan, source, target) {
      var walk :| ContractedWalk(plan, walk)
        && plan.nodeOf[walk[0]] == target && plan.nodeOf[walk[|walk| - 1]] == source;
      AncestorsAreExact(plan, walk[1], source);
      assert Leads(plan, walk[1..], walk[1], source, {});
    }
  }

  // ----- Changing what a visible task needs -----

  lemma {:induction false} AncestorsOfAllAre(plan: Plan, tasks: seq<string>, node: string)
    ensures node in AncestorsOfAll(plan, tasks, {}) <==> exists need :: need in tasks && node in Ancestors(plan, need, {})
  {
    if node in AncestorsOfAll(plan, tasks, {}) {
      var k := SomeAncestor(plan, tasks, {}, node);
      assert tasks[k] in tasks;
    }
    if need :| need in tasks && node in Ancestors(plan, need, {}) {
      var k :| 0 <= k < |tasks| && tasks[k] == need;
      AncestorsOfAllCover(plan, tasks, {}, k);
    }
  }

  lemma {:induction false} AncestorsOfOneMore(plan: Plan, tasks: seq<string>, task: string)
    ensures AncestorsOfAll(plan, tasks + [task], {}) == AncestorsOfAll(plan, tasks, {}) + Ancestors(plan, task, {})
  {
    forall node ensures node in AncestorsOfAll(plan, tasks + [task], {}) <==>
      node in AncestorsOfAll(plan, tasks, {}) + Ancestors(plan, task, {})
    {
      AncestorsOfAllAre(plan, tasks, node);
      AncestorsOfAllAre(plan, tasks + [task], node);
    }
  }

  /** The plan after the visible task `task` was announced again, with other dependencies. */
  function Renewed(plan: Plan, task: string, needs: seq<string>): Plan {
    plan.(dependsOn := plan.dependsOn[task := needs])
  }

  /** What a visible task needs is not looked at by any search: hidden paths end at visible tasks. */
  lemma {:induction false} SearchesIgnoreVisible(plan: Plan, task: string, needs: seq<string>, start: string)
    requires task in plan.nodeOf
    ensures Ancestors(Renewed(plan, task, needs), start, {}) == Ancestors(plan, start, {})
  {
    var renewed := Renewed(plan, task, needs);
    forall node ensures node in Ancestors(renewed, start, {}) <==> node in Ancestors(plan, start, {}) {
      AncestorsAreExact(plan, start, node);
      AncestorsAreExact(renewed, start, node);
      forall path ensures Leads(renewed, path, start, node, {}) <==> Leads(plan, path, start, node, {}) {
        SamePaths(plan, task, needs, path);
      }
    }
  }

  lemma {:induction false} SamePaths(plan: Plan, task: string, needs: seq<string>, path: seq<string>)
    requires task in plan.nodeOf
    ensures HiddenPath(Renewed(plan, task, needs), path) <==> HiddenPath(plan, path)
  {
    var renewed := Renewed(plan, task, needs);
    forall i | 0 <= i < |path| - 1 && path[i] !in plan.nodeOf ensures Needs(renewed, path[i]) == Needs(plan, path[i]) {
    }
  }

  /** Some other task with the node of `task` connects `source` to that node. */
  ghost predicate ConnectedElsewhere(plan: Plan, task: string, source: string)
    requires task in plan.nodeOf
  {
    exists other, need :: other != task && other in plan.nodeOf && plan.nodeOf[other] == plan.nodeOf[task]
      && need in Needs(plan, other) && source in Ancestors(plan, need, {})
  }

  /** The nodes of the nearest visible tasks behind some needs, but for the task's own node. */
  function SourcesOf(plan: Plan, task: string, needs: seq<string>): set<string>
    requires task in plan.nodeOf
  {
    AncestorsOfAll(plan, needs, {}) - {plan.nodeOf[task]}
  }

  lemma {:induction false} ConnectedTo(plan: Plan, task: string, source: string)
    requires task in plan.nodeOf
    ensures Connected(plan, source, plan.nodeOf[task]) <==>
      source in AncestorsOfAll(plan, Needs(plan, task), {}) || ConnectedElsewhere(plan, task, source)
  {
    var node := plan.nodeOf[task];
    AncestorsOfAllAre(plan, Needs(plan, task), source);
    if Connected(plan, source, node) && !ConnectedElsewhere(plan, task, source) {
      var other, need :| other in plan.nodeOf && plan.nodeOf[other] == node && need in Needs(plan, other)
        && source in Ancestors(plan, need, {});
      assert other == task;
    }
  }

  lemma {:induction false} RenewedElsewhere(plan: Plan, task: string, needs: seq<string>, source: string)
    requires task in plan.nodeOf
    ensures ConnectedElsewhere(Renewed(plan, task, needs), task, source) <==> ConnectedElsewhere(plan, task, source)
  {
    var renewed := Renewed(plan, task, needs);
    forall other, need | other != task && need in Needs(plan, other)
      ensures need in Needs(renewed, other) && Ancestors(renewed, need, {}) == Ancestors(plan, need, {})
    {
      SearchesIgnoreVisible(plan, task, needs, need);
    }
    forall other, need | other != task && need in Needs(renewed, other)
      ensures need in Needs(plan, other) && Ancestors(renewed, need, {}) == Ancestors(plan, need, {})
    {
      SearchesIgnoreVisible(plan, task, needs, need);
    }
  }

  lemma {:induction false} RenewedOthers(plan: Plan, task: string, needs: seq<string>, source: string, target: string)
    requires task in plan.nodeOf && target != plan.nodeOf[task]
    ensures Connected(Renewed(plan, task, needs), source, target) <==> Connected(plan, source, target)
  {
    var renewed := Renewed(plan, task, needs);
    forall need ensures Ancestors(renewed, need, {}) == Ancestors(plan, need, {}) {
      SearchesIgnoreVisible(plan, task, needs, need);
    }
  }

  lemma {:induction false} RenewedSources(plan: Plan, task: string, needs: seq<string>, source: string)
    requires task in plan.nodeOf
    ensures source in AncestorsOfAll(Renewed(plan, task, needs), needs, {}) <==> source in AncestorsOfAll(plan, needs, {})
  {
    var renewed := Renewed(plan, task, needs);
    AncestorsOfAllAre(plan, needs, source);
    AncestorsOfAllAre(renewed, needs, source);
    forall need ensures Ancestors(renewed, need, {}) == Ancestors(plan, need, {}) {
      SearchesIgnoreVisible(plan, task, needs, need);
    }
  }

  /** Old and new needs lead to the same nodes, but for the task's own and for those that another task
      connects to its node anyway. */
  ghost predicate Unaffected(plan: Plan, task: string, needs: seq<string>)
    requires task in plan.nodeOf
  {
    forall s :: !ConnectedElsewhere(plan, task, s) ==>
      (s in SourcesOf(plan, task, Needs(plan, task)) <==> s in SourcesOf(plan, task, needs))
  }

  ghost predicate SameConnections(plan: Plan, other: Plan) {
    forall s, t :: s != t ==> (Connected(plan, s, t) <==> Connected(other, s, t))
  }

  /** Which nodes are connected changes with what one visible task needs if and only if the nodes just
      behind that task change. */
  lemma {:induction false} RenewedConnectsTheSameIff(plan: Plan, task: string, needs: seq<string>)
    requires task in plan.nodeOf
    ensures SameConnections(plan, Renewed(plan, task, needs)) <==> Unaffected(plan, task, needs)
  {
    var renewed, node := Renewed(plan, task, needs), plan.nodeOf[task];
    forall s, t | t != node ensures Connected(renewed, s, t) <==> Connected(plan, s, t) {
      RenewedOthers(plan, task, needs, s, t);
    }
    forall s ensures Connected(plan, s, node) <==>
                     s in AncestorsOfAll(plan, Needs(plan, task), {}) || ConnectedElsewhere(plan, task, s)
    {
      ConnectedTo(plan, task, s);
    }
    forall s ensures Connected(renewed, s, node) <==> s in AncestorsOfAll(plan, needs, {}) || ConnectedElsewhere(plan, task, s) {
      ConnectedTo(renewed, task, s);
      RenewedElsewhere(plan, task, needs, s);
      RenewedSources(plan, task, needs, s);
    }
  }

  ghost predicate NodesDiffer(plan: Plan) {
    forall a, b :: a in plan.nodeOf && b in plan.nodeOf && plan.nodeOf[a] == plan.nodeOf[b] ==> a == b
  }

  /** When every task has a node of its own, that is an equality of two sets of nodes. */
  lemma {:induction false} UnaffectedIff(plan: Plan, task: string, needs: seq<string>)
    requires task in plan.nodeOf && NodesDiffer(plan)
    ensures Unaffected(plan, task, needs) <==> SourcesOf(plan, task, Needs(plan, task)) == SourcesOf(plan, task, needs)
  {
    forall s ensures !ConnectedElsewhere(plan, task, s) {
    }
  }
}
