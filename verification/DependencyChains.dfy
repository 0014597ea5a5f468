/** Chains and cycles in a finite dependency relation. */
module DependencyChains {
  type Edges = set<(string, string)>

  /** A chain of `n` dependencies starts at `id`. */
  ghost predicate HasChain(edges: Edges, id: string, n: nat)
    decreases n
  {
    n == 0 || exists dep :: (id, dep) in edges && HasChain(edges, dep, n - 1)
  }

  ghost predicate IsPath(edges: Edges, path: seq<string>) {
    forall i :: 0 <= i < |path| - 1 ==> (path[i], path[i + 1]) in edges
  }

  ghost predicate IsCycle(edges: Edges, path: seq<string>) {
    |path| >= 2 && path[0] == path[|path| - 1] && IsPath(edges, path)
  }

  ghost predicate Cyclic(edges: Edges) {
    exists path :: IsCycle(edges, path)
  }

  lemma {:induction false} ShorterChain(edges: Edges, id: string, n: nat)
    requires HasChain(edges, id, n + 1)
    ensures HasChain(edges, id, n)
    decreases n
  {
    if n > 0 {
      var dep :| (id, dep) in edges && HasChain(edges, dep, n);
      ShorterChain(edges, dep, n - 1);
    }
  }

  lemma {:induction false} CycleHasEveryChain(edges: Edges, path: seq<string>, i: nat, n: nat)
    requires IsCycle(edges, path) && i < |path| - 1
    ensures HasChain(edges, path[i], n)
    decreases n
  {
    if n > 0 {
      var next := if i + 1 == |path| - 1 then 0 else i + 1;
      assert (path[i], path[next]) in edges;
      CycleHasEveryChain(edges, path, next, n - 1);
    }
  }

  // ----- Names that all wait for one another contain a cycle -----

  ghost predicate Waits(edges: Edges, waiting: set<string>, id: string) {
    exists dep :: dep in waiting && (id, dep) in edges
  }

  ghost predicate Stuck(edges: Edges, waiting: set<string>) {
    forall id {:trigger Waits(edges, waiting, id)} :: id in waiting ==> Waits(edges, waiting, id)
  }

  lemma {:induction false} WaitsFor(edges: Edges, waiting: set<string>, id: string) returns (dep: string)
    requires Stuck(edges, waiting) && id in waiting
    ensures dep in waiting && (id, dep) in edges
  {
    assert Waits(edges, waiting, id);
    dep :| dep in waiting && (id, dep) in edges;
  }

  lemma {:induction false} StuckHasEveryChain(edges: Edges, waiting: set<string>, id: string, n: nat)
    requires Stuck(edges, waiting) && id in waiting
    ensures HasChain(edges, id, n)
    decreases n
  {
    if n > 0 {
      var dep := WaitsFor(edges, waiting, id);
      StuckHasEveryChain(edges, waiting, dep, n - 1);
    }
  }

  lemma {:induction false} StuckHasPath(edges: Edges, waiting: set<string>, id: string, n: nat) returns (path: seq<string>)
    requires Stuck(edges, waiting) && id in waiting
    ensures |path| == n + 1 && path[0] == id && IsPath(edges, path) && forall i :: 0 <= i <= n ==> path[i] in waiting
    decreases n
  {
    if n == 0 {
      path := [id];
    } else {
      var dep := WaitsFor(edges, waiting, id);
      var rest := StuckHasPath(edges, waiting, dep, n - 1);
      path := [id] + rest;
      assert forall i :: 1 <= i < |path| ==> path[i] == rest[i - 1];
    }
  }

  lemma {:induction false} Pigeonhole(path: seq<string>, holes: set<string>) returns (i: nat, j: nat)
    requires |path| > |holes| && forall k :: 0 <= k < |path| ==> path[k] in holes
    ensures i < j < |path| && path[i] == path[j]
    decreases |path|
  {
    var init, last := path[..|path| - 1], path[|path| - 1];
    if last in init {
      i :| 0 <= i < |init| && init[i] == last;
      j := |path| - 1;
    } else {
      forall k | 0 <= k < |init| ensures init[k] in holes - {last} {
        assert init[k] in init;
      }
      i, j := Pigeonhole(init, holes - {last});
    }
  }

  lemma {:induction false} StuckIsCyclic(edges: Edges, waiting: set<string>)
    requires Stuck(edges, waiting) && waiting != {}
    ensures Cyclic(edges)
  {
    var id :| id in waiting;
    var path := StuckHasPath(edges, waiting, id, |waiting|);
    var i, j := Pigeonhole(path, waiting);
    SlicedPath(edges, path, i, j);
    assert IsCycle(edges, path[i..j + 1]);
  }

  lemma {:induction false} SlicedPath(edges: Edges, path: seq<string>, i: nat, j: nat)
    requires IsPath(edges, path) && i < j < |path|
    ensures IsPath(edges, path[i..j + 1])
  {
    var slice := path[i..j + 1];
    forall k | 0 <= k < |slice| - 1 ensures (slice[k], slice[k + 1]) in edges {
      assert slice[k] == path[i + k] && slice[k + 1] == path[i + k + 1];
    }
  }
}
