/** Summing over a tree of spans that lives in an arena: span 0 is the root, every other span
    comes after its parent. */
module SpanTree {
  /** Parents only; a span's children are the later spans that name it. */
  predicate IsTree(parents: seq<nat>) {
    |parents| > 0 && forall i :: 1 <= i < |parents| ==> parents[i] < i
  }

  /** The children of `i` among the first `n` spans, in order. */
  function Kids(parents: seq<nat>, i: nat, n: nat): (ks: seq<nat>)
    requires IsTree(parents) && n <= |parents|
    ensures forall k :: 0 <= k < |ks| ==> i < ks[k] < n && parents[ks[k]] == i
  {
    if n <= 1 then []
    else
      var rest := Kids(parents, i, n - 1);
      if parents[n - 1] == i then rest + [n - 1] else rest
  }

  /** What the recursive walk adds up below and at span `i`. */
  function Below(parents: seq<nat>, own: seq<nat>, i: nat): nat
    requires IsTree(parents) && |own| == |parents| && i < |parents|
    decreases |parents| - i, 1, 0
  {
    own[i] + BelowAll(parents, own, i, Kids(parents, i, |parents|))
  }

  function BelowAll(parents: seq<nat>, own: seq<nat>, i: nat, kids: seq<nat>): nat
    requires IsTree(parents) && |own| == |parents| && i < |parents|
    requires forall k :: 0 <= k < |kids| ==> i < kids[k] < |parents|
    decreases |parents| - i, 0, |kids|
  {
    if kids == [] then 0
    else BelowAll(parents, own, i, kids[..|kids| - 1]) + Below(parents, own, kids[|kids| - 1])
  }

  /** The plain sum over the first `n` spans. */
  function Sum(own: seq<nat>, n: nat): nat
    requires n <= |own|
  {
    if n == 0 then 0 else Sum(own, n - 1) + own[n - 1]
  }

  // ----- Each span is counted once -----

  /** Sum of the subtrees at positions [m, j) that hang directly below the first `m` spans. */
  function Frontier(parents: seq<nat>, own: seq<nat>, m: nat, j: nat): nat
    requires IsTree(parents) && |own| == |parents| && 1 <= m <= j <= |parents|
    decreases j - m
  {
    if j == m then 0
    else
      var rest := Frontier(parents, own, m, j - 1);
      if parents[j - 1] < m then rest + Below(parents, own, j - 1) else rest
  }

  lemma {:induction false} FirstFrontier(parents: seq<nat>, own: seq<nat>, j: nat)
    requires IsTree(parents) && |own| == |parents| && 1 <= j <= |parents|
    ensures Frontier(parents, own, 1, j) == BelowAll(parents, own, 0, Kids(parents, 0, j))
    decreases j
  {
    if j > 1 {
      FirstFrontier(parents, own, j - 1);
      KidsSnoc(parents, own, 0, j);
    }
  }

  lemma {:induction false} NoKidsYet(parents: seq<nat>, i: nat, n: nat)
    requires IsTree(parents) && n <= |parents| && n <= i + 1
    ensures Kids(parents, i, n) == []
  {
    if n > 1 {
      NoKidsYet(parents, i, n - 1);
    }
  }

  lemma {:induction false} KidsSnoc(parents: seq<nat>, own: seq<nat>, i: nat, j: nat)
    requires IsTree(parents) && |own| == |parents| && i < |parents| && 1 < j <= |parents|
    ensures BelowAll(parents, own, i, Kids(parents, i, j)) ==
      if parents[j - 1] == i then BelowAll(parents, own, i, Kids(parents, i, j - 1)) + Below(parents, own, j - 1)
      else BelowAll(parents, own, i, Kids(parents, i, j - 1))
  {
    var kids, rest := Kids(parents, i, j), Kids(parents, i, j - 1);
    if parents[j - 1] == i {
      assert kids == rest + [j - 1] && kids[..|kids| - 1] == rest;
    }
  }

  /** Moving span `m` behind the frontier replaces its subtree by its children's. */
  lemma {:induction false} FrontierMoves(parents: seq<nat>, own: seq<nat>, m: nat, j: nat)
    requires IsTree(parents) && |own| == |parents| && 1 <= m < j <= |parents|
    ensures Frontier(parents, own, m + 1, j) + Below(parents, own, m)
         == Frontier(parents, own, m, j) + BelowAll(parents, own, m, Kids(parents, m, j))
    decreases j
  {
    if j == m + 1 {
      NoKidsYet(parents, m, j);
      assert Frontier(parents, own, m, m) == 0 && Frontier(parents, own, m + 1, j) == 0;
    } else {
      FrontierMoves(parents, own, m, j - 1);
      KidsSnoc(parents, own, m, j);
      FrontierSnoc(parents, own, m, j);
      FrontierSnoc(parents, own, m + 1, j);
    }
  }

  lemma {:induction false} FrontierSnoc(parents: seq<nat>, own: seq<nat>, m: nat, j: nat)
    requires IsTree(parents) && |own| == |parents| && 1 <= m < j <= |parents|
    ensures Frontier(parents, own, m, j) ==
      if parents[j - 1] < m then Frontier(parents, own, m, j - 1) + Below(parents, own, j - 1)
      else Frontier(parents, own, m, j - 1)
  {
  }

  lemma {:induction false} WalkUpTo(parents: seq<nat>, own: seq<nat>, m: nat)
    requires IsTree(parents) && |own| == |parents| && 1 <= m <= |parents|
    ensures Below(parents, own, 0) == Sum(own, m) + Frontier(parents, own, m, |parents|)
    decreases m
  {
    if m == 1 {
      FirstFrontier(parents, own, |parents|);
    } else {
      WalkUpTo(parents, own, m - 1);
      FrontierMoves(parents, own, m - 1, |parents|);
    }
  }

  /** The recursive walk from the root adds every span exactly once. */
  lemma {:induction false} WalkCountsEachSpanOnce(parents: seq<nat>, own: seq<nat>)
    requires IsTree(parents) && |own| == |parents|
    ensures Below(parents, own, 0) == Sum(own, |own|)
  {
    WalkUpTo(parents, own, |parents|);
  }

  // ----- Reaching every span -----

  /** Span `j` is `i` or lies below it. */
  predicate Under(parents: seq<nat>, i: nat, j: nat)
    requires IsTree(parents) && j < |parents|
    decreases j
  {
    j == i || (j > i && j > 0 && Under(parents, i, parents[j]))
  }

  lemma {:induction false} EverySpanIsUnderTheRoot(parents: seq<nat>, j: nat)
    requires IsTree(parents) && j < |parents|
    ensures Under(parents, 0, j)
    decreases j
  {
    if j > 0 {
      EverySpanIsUnderTheRoot(parents, parents[j]);
    }
  }

  lemma {:induction false} KidsAreAll(parents: seq<nat>, i: nat, n: nat, j: nat)
    requires IsTree(parents) && 1 <= j < n <= |parents| && parents[j] == i
    ensures j in Kids(parents, i, n)
    decreases n
  {
    if j < n - 1 {
      KidsAreAll(parents, i, n - 1, j);
    }
  }

  /** Below a span means below one of its children. */
  lemma {:induction false} UnderViaKid(parents: seq<nat>, i: nat, j: nat)
    requires IsTree(parents) && i < j < |parents|
    ensures Under(parents, i, j) <==> exists k :: k in Kids(parents, i, |parents|) && Under(parents, k, j)
    decreases j
  {
    var p := parents[j];
    if p == i {
      KidsAreAll(parents, i, |parents|, j);
      assert Under(parents, j, j);
    } else if p > i {
      UnderViaKid(parents, i, p);
      if Under(parents, i, j) {
        var k :| k in Kids(parents, i, |parents|) && Under(parents, k, p);
        assert Under(parents, k, j);
      }
      if k :| k in Kids(parents, i, |parents|) && Under(parents, k, j) {
        assert k != j;
        assert Under(parents, k, p);
      }
    } else if k :| k in Kids(parents, i, |parents|) && Under(parents, k, j) {
      UnderIsLater(parents, k, j);
      if k < j {
        UnderIsLater(parents, k, p);
      }
    }
  }

  lemma {:induction false} UnderIsLater(parents: seq<nat>, i: nat, j: nat)
    requires IsTree(parents) && j < |parents| && Under(parents, i, j)
    ensures i <= j
  {
  }
}
