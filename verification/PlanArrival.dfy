/** What the order in which plan tasks are announced does to the edges between them. */
module PlanArrival {
  import opened ExecutionSnapshot
  import opened PlanGraph
  import opened PlanEdges
  import opened ExecutionProjection

  const NO_PLAN := Plan(map[], map[])

  predicate DistinctTasks(announcements: seq<Announcement>) {
    forall i, j :: 0 <= i < j < |announcements| ==> PlanTaskId(announcements[i]) != PlanTaskId(announcements[j])
  }

  /** The pairs joined after some announcements; AnnounceAll leaves edges between exactly these. */
  ghost predicate JoinedAfter(announcements: seq<Announcement>, catalog: map<string, Visible>, source: string, target: string) {
    Kept(AnnouncedAll(NO_PLAN, announcements, catalog), ShownTasks(announcements, catalog), source, target)
  }

  ghost predicate SameEdges(a: seq<Announcement>, b: seq<Announcement>, catalog: map<string, Visible>) {
    forall source, target :: JoinedAfter(a, catalog, source, target) <==> JoinedAfter(b, catalog, source, target)
  }

  // ----- The plan is the same in every order -----

  /** The plan says of every task what its one announcement says. */
  ghost predicate Describes(plan: Plan, announcements: seq<Announcement>, catalog: map<string, Visible>) {
    && (forall a :: a in announcements ==>
          var task := PlanTaskId(a);
          && task in plan.dependsOn && plan.dependsOn[task] == a.dependsOn
          && (task in plan.nodeOf <==> Primitive(a) in catalog)
          && (task in plan.nodeOf ==> plan.nodeOf[task] == PlannedNodeId(a.step, task)))
    && plan.nodeOf.Keys <= plan.dependsOn.Keys
    && (forall task :: task in plan.dependsOn ==> exists a :: a in announcements && PlanTaskId(a) == task)
  }

  lemma {:induction false} PlanDescribes(announcements: seq<Announcement>, catalog: map<string, Visible>)
    requires DistinctTasks(announcements)
    ensures Describes(AnnouncedAll(NO_PLAN, announcements, catalog), announcements, catalog)
  {
    if announcements != [] {
      var init, last := announcements[..|announcements| - 1], announcements[|announcements| - 1];
      PlanDescribes(init, catalog);
      assert announcements == init + [last];
      OneMoreDescribed(AnnouncedAll(NO_PLAN, init, catalog), init, last, catalog);
    }
  }

  lemma {:induction false} OneMoreDescribed(plan: Plan, announcements: seq<Announcement>, a: Announcement, catalog: map<string, Visible>)
    requires Describes(plan, announcements, catalog) && DistinctTasks(announcements + [a])
    ensures Describes(Announced(plan, a, catalog), announcements + [a], catalog)
  {
    var longer, after := announcements + [a], Announced(plan, a, catalog);
    forall b | b in announcements ensures PlanTaskId(b) != PlanTaskId(a) {
      var k :| 0 <= k < |announcements| && announcements[k] == b;
      assert longer[k] == b && longer[|announcements|] == a;
    }
    assert PlanTaskId(a) !in plan.dependsOn;
    assert longer[|announcements|] == a && a in longer;
    forall task | task in after.dependsOn ensures exists b :: b in longer && PlanTaskId(b) == task {
      if task in plan.dependsOn {
        var b :| b in announcements && PlanTaskId(b) == task;
        assert b in longer;
      }
    }
  }

  lemma {:induction false} DescribedTask(plan: Plan, other: Plan, a: seq<Announcement>, b: seq<Announcement>,
                                         catalog: map<string, Visible>, task: string)
    requires Describes(plan, a, catalog) && Describes(other, b, catalog) && forall x :: x in a ==> x in b
    requires task in plan.dependsOn
    ensures task in other.dependsOn && plan.dependsOn[task] == other.dependsOn[task]
    ensures task in plan.nodeOf <==> task in other.nodeOf
    ensures task in plan.nodeOf ==> plan.nodeOf[task] == other.nodeOf[task]
  {
    var x :| x in a && PlanTaskId(x) == task;
    assert x in b;
  }

  lemma {:induction false} DescribedPlansAgree(plan: Plan, other: Plan, a: seq<Announcement>, b: seq<Announcement>, catalog: map<string, Visible>)
    requires Describes(plan, a, catalog) && Describes(other, b, catalog)
    requires (forall x :: x in a ==> x in b) && (forall x :: x in b ==> x in a)
    ensures plan == other
  {
    forall task | task in plan.dependsOn
      ensures task in other.dependsOn && plan.dependsOn[task] == other.dependsOn[task]
      ensures task in plan.nodeOf <==> task in other.nodeOf
      ensures task in plan.nodeOf ==> plan.nodeOf[task] == other.nodeOf[task]
    {
      DescribedTask(plan, other, a, b, catalog, task);
    }
    forall task | task in other.dependsOn ensures task in plan.dependsOn {
      DescribedTask(other, plan, b, a, catalog, task);
    }
    SamePlans(plan, other);
  }

  lemma {:induction false} SamePlans(plan: Plan, other: Plan)
    requires plan.dependsOn.Keys == other.dependsOn.Keys
    requires plan.nodeOf.Keys <= plan.dependsOn.Keys && other.nodeOf.Keys <= other.dependsOn.Keys
    requires forall task :: task in plan.dependsOn ==>
      && plan.dependsOn[task] == other.dependsOn[task] && (task in plan.nodeOf <==> task in other.nodeOf)
      && (task in plan.nodeOf ==> plan.nodeOf[task] == other.nodeOf[task])
    ensures plan == other
  {
    assert plan.nodeOf.Keys == other.nodeOf.Keys;
  }

  lemma {:induction false} SameMembers<T>(a: seq<T>, b: seq<T>, x: T)
    requires multiset(a) == multiset(b)
    ensures x in a <==> x in b
  {
    assert x in a <==> x in multiset(a);
    assert x in b <==> x in multiset(b);
  }

  /** An announcement that comes twice is counted twice. */
  lemma {:induction false} Twice<T>(s: seq<T>, i: nat, j: nat)
    requires i < j < |s| && s[i] == s[j]
    ensures multiset(s)[s[i]] >= 2
  {
    assert s == s[..j] + s[j..] && s[..j][i] == s[i] && s[j..][0] == s[j];
    assert multiset(s) == multiset(s[..j]) + multiset(s[j..]);
    assert s[i] in s[..j] && s[i] in s[j..];
  }

  lemma {:induction false} Once<T(!new)>(s: seq<T>, x: T)
    requires forall i, j :: 0 <= i < j < |s| ==> s[i] != s[j]
    ensures multiset(s)[x] <= 1
  {
    if s != [] {
      var init, last := s[..|s| - 1], s[|s| - 1];
      Once(init, x);
      assert s == init + [last];
      if x == last {
        assert x !in init;
        assert multiset(init)[x] == 0;
      }
    }
  }

  lemma {:induction false} DistinctInEveryOrder(a: seq<Announcement>, b: seq<Announcement>)
    requires DistinctTasks(a) && multiset(a) == multiset(b)
    ensures DistinctTasks(b)
  {
    forall i, j | 0 <= i < j < |b| ensures PlanTaskId(b[i]) != PlanTaskId(b[j]) {
      SameMembers(a, b, b[i]);
      SameMembers(a, b, b[j]);
      if PlanTaskId(b[i]) == PlanTaskId(b[j]) {
        var k :| 0 <= k < |a| && a[k] == b[i];
        var l :| 0 <= l < |a| && a[l] == b[j];
        assert k == l;
        Twice(b, i, j);
        Once(a, b[i]);
      }
    }
  }

  lemma {:induction false} PlanForgetsOrder(a: seq<Announcement>, b: seq<Announcement>, catalog: map<string, Visible>)
    requires DistinctTasks(a) && multiset(a) == multiset(b)
    ensures AnnouncedAll(NO_PLAN, a, catalog) == AnnouncedAll(NO_PLAN, b, catalog)
  {
    DistinctInEveryOrder(a, b);
    PlanDescribes(a, catalog);
    PlanDescribes(b, catalog);
    forall x ensures x in a <==> x in b {
      SameMembers(a, b, x);
    }
    DescribedPlansAgree(AnnouncedAll(NO_PLAN, a, catalog), AnnouncedAll(NO_PLAN, b, catalog), a, b, catalog);
  }

  // ----- The order of the tasks -----

  lemma {:induction false} ShownTasksAdd(a: seq<Announcement>, b: seq<Announcement>, catalog: map<string, Visible>)
    ensures ShownTasks(a + b, catalog) == ShownTasks(a, catalog) + ShownTasks(b, catalog)
  {
    if b == [] {
      assert a + b == a;
    } else {
      assert (a + b)[..|a + b| - 1] == a + b[..|b| - 1];
      ShownTasksAdd(a, b[..|b| - 1], catalog);
    }
  }

  lemma {:induction false} ShownTasksOfOne(a: Announcement, catalog: map<string, Visible>)
    ensures ShownTasks([a], catalog) == Shown(a, catalog)
  {
    assert [a][..0] == [];
  }

  lemma {:induction false} ShownTasksHave(announcements: seq<Announcement>, a: Announcement, catalog: map<string, Visible>)
    requires a in announcements && Primitive(a) in catalog
    ensures PlanTaskId(a) in ShownTasks(announcements, catalog)
  {
    var k :| 0 <= k < |announcements| && announcements[k] == a;
    assert announcements == announcements[..k] + ([a] + announcements[k + 1..]);
    ShownTasksAdd(announcements[..k], [a] + announcements[k + 1..], catalog);
    ShownTasksAdd([a], announcements[k + 1..], catalog);
    ShownTasksOfOne(a, catalog);
  }

  /** The announcements with one of them moved to the front. */
  function First(announcements: seq<Announcement>, k: nat): seq<Announcement>
    requires k < |announcements|
  {
    [announcements[k]] + (announcements[..k] + announcements[k + 1..])
  }

  lemma {:induction false} FirstIsAnOrder(announcements: seq<Announcement>, k: nat, catalog: map<string, Visible>)
    requires k < |announcements|
    ensures multiset(First(announcements, k)) == multiset(announcements)
    ensures Primitive(announcements[k]) in catalog ==>
      var order := ShownTasks(First(announcements, k), catalog); order != [] && order[0] == PlanTaskId(announcements[k])
  {
    assert announcements == announcements[..k] + ([announcements[k]] + announcements[k + 1..]);
    ShownTasksAdd([announcements[k]], announcements[..k] + announcements[k + 1..], catalog);
    ShownTasksOfOne(announcements[k], catalog);
  }

  // ----- The theorem -----

  lemma {:induction false} VisibleTaskWasAnnounced(announcements: seq<Announcement>, catalog: map<string, Visible>, task: string)
    returns (k: nat)
    requires DistinctTasks(announcements) && task in AnnouncedAll(NO_PLAN, announcements, catalog).nodeOf
    ensures k < |announcements| && PlanTaskId(announcements[k]) == task && Primitive(announcements[k]) in catalog
    ensures task in ShownTasks(announcements, catalog)
  {
    PlanDescribes(announcements, catalog);
    var a :| a in announcements && PlanTaskId(a) == task;
    k :| 0 <= k < |announcements| && announcements[k] == a;
    ShownTasksHave(announcements, a, catalog);
  }

  /** When ids tell the linked pairs apart, the joined pairs are the linked ones, in every order. */
  lemma {:induction false} JoinedWhenApart(announcements: seq<Announcement>, catalog: map<string, Visible>, source: string, target: string)
    requires DistinctTasks(announcements) && IdsTellApart(AnnouncedAll(NO_PLAN, announcements, catalog))
    ensures JoinedAfter(announcements, catalog, source, target) <==> Pair(AnnouncedAll(NO_PLAN, announcements, catalog), source, target)
  {
    var plan, order := AnnouncedAll(NO_PLAN, announcements, catalog), ShownTasks(announcements, catalog);
    if JoinedAfter(announcements, catalog, source, target) {
      KeptJoins(plan, order, source, target);
      var k :| 0 <= k < |order| && JoinsAt(plan, order[k], source, target);
      JoinsArePairs(plan, order[k], source, target);
    }
    if Pair(plan, source, target) {
      var task := PairsAreJoined(plan, source, target);
      var _ := VisibleTaskWasAnnounced(announcements, catalog, task);
      var k :| 0 <= k < |order| && order[k] == task;
      AllKeptWhenApart(plan, order, k, source, target);
    }
  }

  /** Announced first, a task gets all the edges that it asks for. */
  lemma {:induction false} SomeOrderJoins(announcements: seq<Announcement>, catalog: map<string, Visible>, source: string, target: string)
    returns (other: seq<Announcement>)
    requires DistinctTasks(announcements) && Pair(AnnouncedAll(NO_PLAN, announcements, catalog), source, target)
    ensures multiset(other) == multiset(announcements) && JoinedAfter(other, catalog, source, target)
  {
    var plan := AnnouncedAll(NO_PLAN, announcements, catalog);
    var task := PairsAreJoined(plan, source, target);
    var k := VisibleTaskWasAnnounced(announcements, catalog, task);
    other := First(announcements, k);
    FirstIsAnOrder(announcements, k, catalog);
    PlanForgetsOrder(announcements, other, catalog);
    FirstTaskKeeps(plan, ShownTasks(other, catalog), source, target);
  }

  ghost predicate SameInEveryOrder(announcements: seq<Announcement>, catalog: map<string, Visible>) {
    forall other :: multiset(other) == multiset(announcements) ==> SameEdges(announcements, other, catalog)
  }

  lemma {:induction false} SameWhenApart(announcements: seq<Announcement>, other: seq<Announcement>, catalog: map<string, Visible>)
    requires DistinctTasks(announcements) && multiset(other) == multiset(announcements)
    requires IdsTellApart(AnnouncedAll(NO_PLAN, announcements, catalog))
    ensures SameEdges(announcements, other, catalog)
  {
    PlanForgetsOrder(announcements, other, catalog);
    DistinctInEveryOrder(announcements, other);
    forall s, t ensures JoinedAfter(announcements, catalog, s, t) <==> JoinedAfter(other, catalog, s, t) {
      JoinedWhenApart(announcements, catalog, s, t);
      JoinedWhenApart(other, catalog, s, t);
    }
  }

  lemma {:induction false} AllJoinedWhenSame(announcements: seq<Announcement>, catalog: map<string, Visible>, source: string, target: string)
    requires DistinctTasks(announcements) && SameInEveryOrder(announcements, catalog)
    requires Pair(AnnouncedAll(NO_PLAN, announcements, catalog), source, target)
    ensures JoinedAfter(announcements, catalog, source, target)
  {
    var other := SomeOrderJoins(announcements, catalog, source, target);
    assert SameEdges(announcements, other, catalog);
  }

  lemma {:induction false} CollidingPairsShowOrder(announcements: seq<Announcement>, catalog: map<string, Visible>)
    requires DistinctTasks(announcements) && !IdsTellApart(AnnouncedAll(NO_PLAN, announcements, catalog))
    ensures !SameInEveryOrder(announcements, catalog)
  {
    var plan := AnnouncedAll(NO_PLAN, announcements, catalog);
    var s, t, s', t' :| Pair(plan, s, t) && Pair(plan, s', t') && EdgeId(s, t) == EdgeId(s', t') && !(s == s' && t == t');
    if SameInEveryOrder(announcements, catalog) {
      AllJoinedWhenSame(announcements, catalog, s, t);
      AllJoinedWhenSame(announcements, catalog, s', t');
      KeptApart(plan, ShownTasks(announcements, catalog), s, t, s', t');
      assert false;
    }
  }

  /** All orders of some announcements of different tasks end with the same edges if and only if the edge
      ids tell the linked pairs apart: of two pairs with one id, the one whose target is announced first
      is joined and the other is not. */
  lemma {:induction false} ArrivalOrderDoesNotMatterIff(announcements: seq<Announcement>, catalog: map<string, Visible>)
    requires DistinctTasks(announcements)
    ensures SameInEveryOrder(announcements, catalog) <==> IdsTellApart(AnnouncedAll(NO_PLAN, announcements, catalog))
  {
    if IdsTellApart(AnnouncedAll(NO_PLAN, announcements, catalog)) {
      forall other | multiset(other) == multiset(announcements) ensures SameEdges(announcements, other, catalog) {
        SameWhenApart(announcements, other, catalog);
      }
    } else {
      CollidingPairsShowOrder(announcements, catalog);
    }
  }

  lemma {:induction false} ListedAreJoined(edges: seq<Dependency>, announcements: seq<Announcement>, catalog: map<string, Visible>)
    requires announcements == [] ==> edges == []
    requires announcements != [] ==>
      Lists(edges, AnnouncedAll(NO_PLAN, announcements, catalog), ShownTasks(announcements, catalog))
    ensures forall s, t :: HasEnds(edges, s, t) <==> JoinedAfter(announcements, catalog, s, t)
  {
  }

  /** The edges of a new projector that is given the announcements. */
  method EdgesAfter(announcements: seq<Announcement>, catalog: map<string, Visible>) returns (edges: seq<Dependency>)
    requires DistinctTasks(announcements)
    ensures forall s, t :: HasEnds(edges, s, t) <==> JoinedAfter(announcements, catalog, s, t)
  {
    var projector := new ExecutionProjector("", "", "", catalog);
    projector.AnnounceAll(announcements);
    edges := projector.dependencies;
    assert [] + ShownTasks(announcements, catalog) == ShownTasks(announcements, catalog);
    ListedAreJoined(edges, announcements, catalog);
  }
}
