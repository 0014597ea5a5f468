/** The execution graph of agent runs: its edges and its parallel groups. Times are integers; a
    run without an end is still running. */
module ExecutionGraph {
  import opened Wrappers

  datatype Run = Run(id: string, execution: string, parent: string, work: string, start: Option<int>, end: Option<int>)

  datatype Kind = Delegation | DependencyKind
  datatype Edge = Edge(source: string, target: string, kind: Kind)

  /** One work item waits for another. */
  datatype WorkDependency = WorkDependency(work: string, dependsOn: string)

  type Pairs = set<(string, string)>

  // ----- Edges -----

  /** The runs that executed a work item. */
  function RunsOf(runs: seq<Run>, work: string): set<string> {
    if work == "" then {} else set r | r in runs && r.work == work :: r.id
  }

  /** The pairs of runs that a work dependency connects, first the one waited for. */
  function DependencyPairs(runs: seq<Run>, deps: seq<WorkDependency>): Pairs {
    set d, s, t | d in deps && s in RunsOf(runs, d.dependsOn) && t in RunsOf(runs, d.work) :: (s, t)
  }

  predicate Proper(e: Edge) {
    e.source != "" && e.target != "" && e.source != e.target
  }

  predicate Wanted(runs: seq<Run>, deps: seq<WorkDependency>, e: Edge) {
    Proper(e) &&
    match e.kind
    case Delegation => exists r :: r in runs && r.parent == e.source && r.id == e.target
    case DependencyKind => (e.source, e.target) in DependencyPairs(runs, deps)
  }

  ghost predicate NoDuplicates(edges: seq<Edge>) {
    forall i, j :: 0 <= i < j < |edges| ==> edges[i] != edges[j]
  }

  method AddEdge(edges: seq<Edge>, e: Edge) returns (r: seq<Edge>)
    requires NoDuplicates(edges) && forall x :: x in edges ==> Proper(x)
    ensures NoDuplicates(r) && edges <= r && forall x :: x in r ==> Proper(x)
    ensures forall x :: x in r <==> x in edges || (x == e && Proper(e))
  {
    r := if !Proper(e) || e in edges then edges else edges + [e];
  }

  /** The edges are exactly the wanted ones, each once, and no run points to itself. */
  method BuildEdges(runs: seq<Run>, deps: seq<WorkDependency>) returns (edges: seq<Edge>, pairs: Pairs)
    ensures NoDuplicates(edges) && forall e :: e in edges <==> Wanted(runs, deps, e)
    ensures pairs == DependencyPairs(runs, deps)
  {
    edges, pairs := [], {};
    for i := 0 to |runs|
      invariant NoDuplicates(edges) && forall e :: e in edges ==> Proper(e)
      invariant forall e: Edge :: e in edges <==> e.kind == Delegation && Wanted(runs[..i], deps, e)
    {
      var e := Edge(runs[i].parent, runs[i].id, Delegation);
      MoreRuns(runs, i, deps);
      if runs[i].parent != "" {
        edges := AddEdge(edges, e);
      }
    }
    assert runs[..|runs|] == runs;
    var todo := DependencyPairs(runs, deps);
    while todo != {}
      invariant NoDuplicates(edges) && forall e :: e in edges ==> Proper(e)
      invariant todo !! pairs && todo + pairs == DependencyPairs(runs, deps)
      invariant forall e: Edge :: e in edges <==> Wanted(runs, deps, e) && (e.kind == Delegation || (e.source, e.target) in pairs)
      decreases todo
    {
      var p :| p in todo;
      todo, pairs := todo - {p}, pairs + {p};
      edges := AddEdge(edges, Edge(p.0, p.1, DependencyKind));
    }
  }

  lemma {:induction false} MoreRuns(runs: seq<Run>, i: nat, deps: seq<WorkDependency>)
    requires i < |runs|
    ensures forall e: Edge :: e.kind == Delegation ==>
      (Wanted(runs[..i + 1], deps, e) <==>
        Wanted(runs[..i], deps, e) || (Proper(e) && e == Edge(runs[i].parent, runs[i].id, Delegation)))
  {
    assert runs[..i + 1] == runs[..i] + [runs[i]];
  }

  // ----- Parallel groups -----

  predicate Overlaps(l: Run, r: Run) {
    && l.start.Some? && r.start.Some?
    && (r.end.Some? ==> l.start.value < r.end.value)
    && (l.end.Some? ==> r.start.value < l.end.value)
  }

  predicate RunningAt(r: Run, t: int) {
    r.start.Some? && r.start.value <= t && (r.end.Some? ==> t < r.end.value)
  }

  /** Runs that last overlap if and only if some moment belongs to both. */
  lemma {:induction false} OverlapsIffSharedMoment(l: Run, r: Run)
    requires l.start.Some? && l.end.Some? ==> l.start.value < l.end.value
    requires r.start.Some? && r.end.Some? ==> r.start.value < r.end.value
    ensures Overlaps(l, r) <==> exists t :: RunningAt(l, t) && RunningAt(r, t)
  {
    if Overlaps(l, r) {
      var t := if l.start.value < r.start.value then r.start.value else l.start.value;
      assert RunningAt(l, t) && RunningAt(r, t);
    }
  }

  /** Two runs that demonstrably ran side by side. */
  predicate Parallel(pairs: Pairs, l: Run, r: Run) {
    && l.id != r.id && l.execution == r.execution && l.parent == r.parent && Overlaps(l, r)
    && (l.id, r.id) !in pairs && (r.id, l.id) !in pairs
  }

  lemma {:induction false} ParallelIsSymmetric(pairs: Pairs, l: Run, r: Run)
    ensures Parallel(pairs, l, r) <==> Parallel(pairs, r, l)
  {
  }

  predicate UniqueIds(runs: seq<Run>) {
    forall i, j :: 0 <= i < j < |runs| ==> runs[i].id != runs[j].id
  }

  /** The group of each grouped run, and the next free group. */
  datatype Grouping = Grouping(of_: map<string, nat>, next: nat)

  /** Two parallel runs found a group, or one joins the other's; two groups are never merged. */
  function Join(g: Grouping, l: string, r: string): Grouping {
    if l in g.of_ && r in g.of_ then g
    else if l in g.of_ then g.(of_ := g.of_[r := g.of_[l]])
    else if r in g.of_ then g.(of_ := g.of_[l := g.of_[r]])
    else Grouping(g.of_[l := g.next][r := g.next], g.next + 1)
  }

  /** How a run came into its group: through a parallel run, which was there before unless both
      founded the group. */
  datatype Entry = Entry(self: Run, via: Run, rank: nat)

  type History = map<string, Entry>

  ghost predicate Entered(runs: seq<Run>, pairs: Pairs, g: Grouping, h: History, founders: map<nat, string>, id: string)
    requires id in g.of_
  {
    && g.of_[id] < g.next && g.of_[id] in founders && id in h
    && var e := h[id];
    && e.self in runs && e.via in runs && e.self.id == id && Parallel(pairs, e.self, e.via)
    && e.via.id in g.of_ && g.of_[e.via.id] == g.of_[id] && e.via.id in h && h[e.via.id].self == e.via
    && (founders[g.of_[id]] == id || h[e.via.id].rank < e.rank)
  }

  ghost predicate AllEntered(runs: seq<Run>, pairs: Pairs, g: Grouping, h: History, founders: map<nat, string>) {
    && (forall id {:trigger Entered(runs, pairs, g, h, founders, id)} :: id in g.of_ ==> Entered(runs, pairs, g, h, founders, id))
    && forall n :: n in founders ==> n < g.next
  }

  lemma {:induction false} RunIsUnique(runs: seq<Run>, a: Run, b: Run)
    requires UniqueIds(runs) && a in runs && b in runs && a.id == b.id
    ensures a == b
  {
    var i :| 0 <= i < |runs| && runs[i] == a;
    var j :| 0 <= j < |runs| && runs[j] == b;
    assert i == j;
  }

  lemma {:induction false} JoinFounds(runs: seq<Run>, pairs: Pairs, g: Grouping, h: History, founders: map<nat, string>, l: Run, r: Run)
    returns (h': History, founders': map<nat, string>)
    requires AllEntered(runs, pairs, g, h, founders) && l in runs && r in runs && Parallel(pairs, l, r)
    requires l.id !in g.of_ && r.id !in g.of_
    ensures AllEntered(runs, pairs, Join(g, l.id, r.id), h', founders')
  {
    h' := h[l.id := Entry(l, r, 0)][r.id := Entry(r, l, 1)];
    founders' := founders[g.next := l.id];
    var g' := Join(g, l.id, r.id);
    forall id | id in g'.of_ ensures Entered(runs, pairs, g', h', founders', id) {
      if id in g.of_ {
        StaysEntered(runs, pairs, g, h, founders, id, g', h', founders');
      }
    }
  }

  /** More groups and more history change nothing for a run that is in. */
  lemma {:induction false} StaysEntered(runs: seq<Run>, pairs: Pairs, g: Grouping, h: History, founders: map<nat, string>, id: string,
                     g': Grouping, h': History, founders': map<nat, string>)
    requires id in g.of_ && AllEntered(runs, pairs, g, h, founders)
    requires g.next <= g'.next && (forall x :: x in g.of_ ==> x in g'.of_ && g'.of_[x] == g.of_[x])
    requires forall x :: x in g.of_ && x in h ==> x in h' && h'[x] == h[x]
    requires forall n :: n in founders ==> n in founders' && founders'[n] == founders[n]
    ensures Entered(runs, pairs, g', h', founders', id)
  {
    assert Entered(runs, pairs, g, h, founders, id);
  }

  lemma {:induction false} JoinJoins(runs: seq<Run>, pairs: Pairs, g: Grouping, h: History, founders: map<nat, string>, l: Run, r: Run)
    returns (h': History)
    requires UniqueIds(runs) && AllEntered(runs, pairs, g, h, founders) && l in runs && r in runs && Parallel(pairs, l, r)
    requires l.id in g.of_ && r.id !in g.of_
    ensures AllEntered(runs, pairs, Join(g, l.id, r.id), h', founders)
    ensures Join(g, r.id, l.id) == Join(g, l.id, r.id)
  {
    assert Entered(runs, pairs, g, h, founders, l.id);
    RunIsUnique(runs, l, h[l.id].self);
    h' := h[r.id := Entry(r, l, h[l.id].rank + 1)];
    var g' := Join(g, l.id, r.id);
    forall id | id in g'.of_ ensures Entered(runs, pairs, g', h', founders, id) {
      if id in g.of_ {
        StaysEntered(runs, pairs, g, h, founders, id, g', h', founders);
      }
    }
  }

  lemma {:induction false} JoinKeeps(runs: seq<Run>, pairs: Pairs, g: Grouping, h: History, founders: map<nat, string>, l: Run, r: Run)
    returns (h': History, founders': map<nat, string>)
    requires UniqueIds(runs) && AllEntered(runs, pairs, g, h, founders) && l in runs && r in runs && Parallel(pairs, l, r)
    ensures AllEntered(runs, pairs, Join(g, l.id, r.id), h', founders')
  {
    h', founders' := h, founders;
    if l.id !in g.of_ && r.id !in g.of_ {
      h', founders' := JoinFounds(runs, pairs, g, h, founders, l, r);
    } else if r.id !in g.of_ {
      h' := JoinJoins(runs, pairs, g, h, founders, l, r);
    } else if l.id !in g.of_ {
      h' := JoinJoins(runs, pairs, g, h, founders, r, l);
    }
  }

  /** The pair has been looked at. */
  predicate Seen(pairs: Pairs, g: Grouping, l: Run, r: Run) {
    Parallel(pairs, l, r) ==> l.id in g.of_ && r.id in g.of_
  }

  /** The runs of one execution, in order. */
  function InExecution(runs: seq<Run>, execution: string): (r: seq<Run>)
    ensures forall x :: x in r <==> x in runs && x.execution == execution
  {
    if runs == [] then []
    else
      var last := runs[|runs| - 1];
      InExecution(runs[..|runs| - 1], execution) + if last.execution == execution then [last] else []
  }

  /** One execution: compare every run with the later ones. */
  method GroupExecution(runs: seq<Run>, pairs: Pairs, list: seq<Run>, start: Grouping, ghost h: History, ghost founders: map<nat, string>)
    returns (g: Grouping, ghost h': History, ghost founders': map<nat, string>)
    requires UniqueIds(runs) && AllEntered(runs, pairs, start, h, founders) && forall x :: x in list ==> x in runs
    requires forall a, b :: a in list && b in list ==> a.execution == b.execution
    ensures AllEntered(runs, pairs, g, h', founders') && start.of_.Keys <= g.of_.Keys
    ensures forall a, b :: 0 <= a < b < |list| ==> Seen(pairs, g, list[a], list[b])
  {
    g, h', founders' := start, h, founders;
    for i := 0 to |list|
      invariant AllEntered(runs, pairs, g, h', founders') && start.of_.Keys <= g.of_.Keys
      invariant forall a, b :: 0 <= a < i && a < b < |list| ==> Seen(pairs, g, list[a], list[b])
    {
      g, h', founders' := GroupRow(runs, pairs, list, i, g, h', founders');
    }
  }

  method GroupRow(runs: seq<Run>, pairs: Pairs, list: seq<Run>, i: nat, start: Grouping, ghost h: History, ghost founders: map<nat, string>)
    returns (g: Grouping, ghost h': History, ghost founders': map<nat, string>)
    requires UniqueIds(runs) && AllEntered(runs, pairs, start, h, founders)
    requires i < |list| && forall k :: 0 <= k < |list| ==> list[k] in runs
    ensures AllEntered(runs, pairs, g, h', founders') && start.of_.Keys <= g.of_.Keys
    ensures forall b :: i < b < |list| ==> Seen(pairs, g, list[i], list[b])
  {
    g, h', founders' := start, h, founders;
    var l := list[i];
    for j := i + 1 to |list|
      invariant AllEntered(runs, pairs, g, h', founders') && start.of_.Keys <= g.of_.Keys
      invariant forall b :: i < b < j ==> Seen(pairs, g, l, list[b])
    {
      var r := list[j];
      if Parallel(pairs, l, r) {
        h', founders' := JoinKeeps(runs, pairs, g, h', founders', l, r);
        g := Join(g, l.id, r.id);
      }
    }
  }

  /** All pairs of one execution's runs have been looked at. */
  predicate SeenIn(runs: seq<Run>, pairs: Pairs, g: Grouping, execution: string) {
    forall l, r :: l in runs && r in runs && l.execution == execution && r.execution == execution ==> Seen(pairs, g, l, r)
  }

  lemma {:induction false} AllSeen(runs: seq<Run>, pairs: Pairs, g: Grouping, execution: string, list: seq<Run>)
    requires forall x :: x in list <==> x in runs && x.execution == execution
    requires forall a, b :: 0 <= a < b < |list| ==> Seen(pairs, g, list[a], list[b])
    ensures SeenIn(runs, pairs, g, execution)
  {
    forall l, r | l in runs && r in runs && l.execution == execution && r.execution == execution ensures Seen(pairs, g, l, r) {
      var a :| 0 <= a < |list| && list[a] == l;
      var b :| 0 <= b < |list| && list[b] == r;
      if a < b {
        assert Seen(pairs, g, list[a], list[b]);
      } else if b < a {
        assert Seen(pairs, g, list[b], list[a]);
      }
    }
  }

  lemma {:induction false} StaysSeen(runs: seq<Run>, pairs: Pairs, g: Grouping, g': Grouping, execution: string)
    requires SeenIn(runs, pairs, g, execution) && g.of_.Keys <= g'.of_.Keys
    ensures SeenIn(runs, pairs, g', execution)
  {
    forall l, r | l in runs && r in runs && l.execution == execution && r.execution == execution ensures Seen(pairs, g', l, r) {
      assert Seen(pairs, g, l, r);
    }
  }

  /** A run has a group if and only if some other run of its execution and parent overlaps it
      without a dependency between them; and every grouped run came in through such a run. */
  method ParallelGroups(runs: seq<Run>, pairs: Pairs) returns (g: Grouping, ghost h: History, ghost founders: map<nat, string>)
    requires UniqueIds(runs)
    ensures forall r :: r in runs ==> (r.id in g.of_ <==> exists other :: other in runs && Parallel(pairs, r, other))
    ensures AllEntered(runs, pairs, g, h, founders)
  {
    g, h, founders := Grouping(map[], 0), map[], map[];
    var done: set<string> := {};
    for i := 0 to |runs|
      invariant AllEntered(runs, pairs, g, h, founders)
      invariant forall k :: 0 <= k < i ==> runs[k].execution in done
      invariant forall e :: e in done ==> SeenIn(runs, pairs, g, e)
    {
      var execution := runs[i].execution;
      if execution !in done {
        ghost var before := g;
        var list := InExecution(runs, execution);
        g, h, founders := GroupExecution(runs, pairs, list, g, h, founders);
        AllSeen(runs, pairs, g, execution, list);
        forall e | e in done ensures SeenIn(runs, pairs, g, e) {
          StaysSeen(runs, pairs, before, g, e);
        }
        done := done + {execution};
      }
    }
    forall r | r in runs ensures r.id in g.of_ <==> exists other :: other in runs && Parallel(pairs, r, other) {
      GroupedIff(runs, pairs, g, h, founders, r);
    }
  }

  lemma {:induction false} GroupedIff(runs: seq<Run>, pairs: Pairs, g: Grouping, h: History, founders: map<nat, string>, r: Run)
    requires UniqueIds(runs) && AllEntered(runs, pairs, g, h, founders) && r in runs && SeenIn(runs, pairs, g, r.execution)
    ensures r.id in g.of_ <==> exists other :: other in runs && Parallel(pairs, r, other)
  {
    if r.id in g.of_ {
      assert Entered(runs, pairs, g, h, founders, r.id);
      RunIsUnique(runs, r, h[r.id].self);
    }
    if other :| other in runs && Parallel(pairs, r, other) {
      assert Seen(pairs, g, r, other);
    }
  }

  // ----- What a group means -----

  /** Parallel runs of one group, each next to the following one. */
  ghost predicate IsChain(runs: seq<Run>, pairs: Pairs, g: Grouping, chain: seq<Run>, group: nat) {
    && (forall k :: 0 <= k < |chain| ==> chain[k] in runs && chain[k].id in g.of_ && g.of_[chain[k].id] == group)
    && forall k :: 0 <= k < |chain| - 1 ==> Parallel(pairs, chain[k], chain[k + 1])
  }

  lemma {:induction false} ChainToFounder(runs: seq<Run>, pairs: Pairs, g: Grouping, h: History, founders: map<nat, string>, r: Run)
    returns (chain: seq<Run>)
    requires UniqueIds(runs) && AllEntered(runs, pairs, g, h, founders) && r in runs && r.id in g.of_
    ensures chain != [] && chain[0] == r && IsChain(runs, pairs, g, chain, g.of_[r.id])
    ensures g.of_[r.id] in founders && chain[|chain| - 1].id == founders[g.of_[r.id]]
    decreases if r.id in h then h[r.id].rank else 0
  {
    assert Entered(runs, pairs, g, h, founders, r.id);
    RunIsUnique(runs, r, h[r.id].self);
    if founders[g.of_[r.id]] == r.id {
      chain := [r];
    } else {
      var rest := ChainToFounder(runs, pairs, g, h, founders, h[r.id].via);
      chain := [r] + rest;
      assert forall k :: 1 <= k < |chain| ==> chain[k] == rest[k - 1];
    }
  }

  /** A group is connected: any two of its runs are joined by a chain of parallel runs inside it. */
  lemma {:induction false} GroupIsConnected(runs: seq<Run>, pairs: Pairs, g: Grouping, h: History, founders: map<nat, string>, a: Run, b: Run)
    returns (chain: seq<Run>)
    requires UniqueIds(runs) && AllEntered(runs, pairs, g, h, founders)
    requires a in runs && b in runs && a.id in g.of_ && b.id in g.of_ && g.of_[a.id] == g.of_[b.id]
    ensures chain != [] && chain[0] == a && chain[|chain| - 1] == b && IsChain(runs, pairs, g, chain, g.of_[a.id])
  {
    var there := ChainToFounder(runs, pairs, g, h, founders, a);
    var back := ChainToFounder(runs, pairs, g, h, founders, b);
    RunIsUnique(runs, there[|there| - 1], back[|back| - 1]);
    chain := There(there, back, |back| - 1);
    ChainThere(runs, pairs, g, g.of_[a.id], there, back, |back| - 1);
  }

  /** One chain, and then another one walked backwards from position `n`. */
  function There(there: seq<Run>, back: seq<Run>, n: nat): seq<Run>
    requires n < |back|
    decreases n
  {
    if n == 0 then there else There(there + [back[n - 1]], back, n - 1)
  }

  lemma {:induction false} ChainThere(runs: seq<Run>, pairs: Pairs, g: Grouping, group: nat, there: seq<Run>, back: seq<Run>, n: nat)
    requires n < |back| && there != [] && there[|there| - 1] == back[n]
    requires IsChain(runs, pairs, g, there, group) && IsChain(runs, pairs, g, back, group)
    ensures var chain := There(there, back, n);
      chain != [] && chain[0] == there[0] && chain[|chain| - 1] == back[0] && IsChain(runs, pairs, g, chain, group)
    decreases n
  {
    if n > 0 {
      ParallelIsSymmetric(pairs, back[n - 1], back[n]);
      ChainThere(runs, pairs, g, group, there + [back[n - 1]], back, n - 1);
    }
  }

  /** So all members of a group share their execution and their parent. */
  lemma {:induction false} GroupSharesParent(runs: seq<Run>, pairs: Pairs, g: Grouping, h: History, founders: map<nat, string>, a: Run, b: Run)
    requires UniqueIds(runs) && AllEntered(runs, pairs, g, h, founders)
    requires a in runs && b in runs && a.id in g.of_ && b.id in g.of_ && g.of_[a.id] == g.of_[b.id]
    ensures a.execution == b.execution && a.parent == b.parent
  {
    var chain := GroupIsConnected(runs, pairs, g, h, founders, a, b);
    ChainShares(runs, pairs, g, chain, g.of_[a.id], |chain| - 1);
  }

  lemma {:induction false} ChainShares(runs: seq<Run>, pairs: Pairs, g: Grouping, chain: seq<Run>, group: nat, n: nat)
    requires n < |chain| && IsChain(runs, pairs, g, chain, group)
    ensures chain[n].execution == chain[0].execution && chain[n].parent == chain[0].parent
  {
    if n > 0 {
      ChainShares(runs, pairs, g, chain, group, n - 1);
      assert Parallel(pairs, chain[n - 1], chain[n - 1 + 1]);
    }
  }
}
