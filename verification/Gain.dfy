/** Expected learning gain: how much one run of a capability is worth for a knowledge point, given its
    profile and its prerequisites. */
module Gain {
  import opened Wrappers
  import opened Rounding

  datatype Capability =
    | ModelReflect | GraphBuild | GraphPrerequisite | ReviewSchedule
    | ContentLessonIntro | ContentDeck | ContentVisual
    | TeachStrategy | TeachExplain
    | DialogAnswer | DialogNegotiate | DialogConverse | DialogInterview | DialogProbe | PlanPresent
    | AssessGenerate | AssessGrade | AssessInterpret
    | ToolInvestigate | MetaReport | MetaEvaluate | MetaAuthorSkill

  const WEAK_MASTERY := 0.45
  const STRONG_MASTERY := 0.75
  const THIN_EVIDENCE := 2

  /** A profile row as the scorer reads it, with the facts of the current task attached to it. */
  datatype View = View(point: string, name: string, mastery: real, evidenceCount: nat, misconceptions: seq<string>,
                       hasPrerequisites: bool, difficulty: real, reviewPriority: real, reviewDueAt: Option<int>,
                       hasLessonIntro: bool, hasDeck: bool, hasVisual: bool, hasOpenQuiz: bool, openQuestions: nat)
  {
    predicate IsWeak() {
      mastery <= WEAK_MASTERY
    }

    predicate IsStrong() {
      mastery >= STRONG_MASTERY
    }

    predicate IsDue(now: int) {
      reviewDueAt.Some? && now >= reviewDueAt.value
    }

    function Headroom(): real {
      if mastery >= 1.0 then 0.0 else 1.0 - mastery
    }
  }

  /** The first view of least mastery. */
  function Weakest(views: seq<View>): (weakest: Option<View>)
    ensures weakest.None? <==> views == []
    ensures weakest.Some? ==> weakest.value in views && IsLeast(weakest.value, views)
  {
    if views == [] then None
    else
      var last := views[|views| - 1];
      match Weakest(views[..|views| - 1])
      case None => Some(last)
      case Some(best) => Some(if last.mastery < best.mastery then last else best)
  }

  predicate IsLeast(v: View, views: seq<View>) {
    forall x :: x in views ==> v.mastery <= x.mastery
  }

  predicate Blocked(prerequisites: seq<View>) {
    var weakest := Weakest(prerequisites);
    weakest.Some? && weakest.value.IsWeak()
  }

  /** The worth before rounding, and whether the stated reason names the weakest prerequisite. */
  function Judged(c: Capability, v: View, blocked: bool, requested: bool, now: int): (real, bool) {
    var nudge := if requested then 0.15 else 0.0;
    match c
    case GraphPrerequisite =>
      if !v.hasPrerequisites && v.mastery < STRONG_MASTERY then (0.55 + 0.25 * v.difficulty + nudge, false)
      else if blocked then (0.45 + nudge, false)
      else (0.12 + nudge, false)
    case ContentLessonIntro =>
      if v.hasLessonIntro then (0.05 + nudge, false)
      else if blocked then (0.20 + nudge, true)
      else (0.35 + 0.45 * v.Headroom() + nudge, false)
    case ContentDeck =>
      if v.hasDeck then (0.05 + nudge, false)
      else if blocked then (0.18 + nudge, true)
      else (0.30 + 0.50 * v.Headroom() + nudge, false)
    case ContentVisual =>
      if v.hasVisual && !requested then (0.08, false)
      else if blocked then (0.18 + nudge, true)
      else (0.20 + 0.35 * v.difficulty + (if v.IsWeak() then 0.25 else 0.0) + nudge, false)
    case TeachExplain =>
      if blocked then (0.18 + nudge, true)
      else if v.misconceptions != [] then (0.60 + 0.30 * v.Headroom() + nudge, false)
      else if v.openQuestions > 0 then (0.45 + nudge, false)
      else (0.20 + 0.30 * v.Headroom() + nudge, false)
    case TeachStrategy =>
      if blocked then (0.20 + nudge, true) else (0.30 + 0.30 * v.Headroom() + nudge, false)
    case DialogAnswer => (if v.openQuestions > 0 then 0.50 + nudge else 0.15 + nudge, false)
    case AssessGenerate =>
      if v.hasOpenQuiz then (0.05 + nudge, false)
      else if blocked then (0.15 + nudge, true)
      else if v.evidenceCount < THIN_EVIDENCE then (0.55 + 0.25 * v.Headroom() + nudge, false)
      else if v.IsStrong() then (0.20 + nudge, false)
      else (0.35 + 0.30 * v.Headroom() + nudge, false)
    case AssessGrade => (if v.hasOpenQuiz then 0.70 else 0.05, false)
    case AssessInterpret => (if v.evidenceCount > 0 && v.misconceptions != [] then 0.45 + nudge else 0.15 + nudge, false)
    case ReviewSchedule =>
      if v.IsDue(now) then (0.40 + 0.50 * v.reviewPriority + nudge, false)
      else if v.reviewPriority > 0.6 then (0.30 + nudge, false)
      else (0.08 + nudge, false)
    case ModelReflect => (if v.evidenceCount > 0 then 0.25 else 0.05, false)
    case GraphBuild => (0.20 + nudge, false)
    case ToolInvestigate => (0.25 + 0.25 * v.difficulty + nudge, false)
    case MetaReport => (if v.IsStrong() then 0.35 else 0.10, false)
    case _ => (0.10 + nudge, false)
  }

  /** The worth, and the prerequisite named in the reason. */
  datatype Estimate = Estimate(value: real, cites: Option<string>)

  function Worth(raw: real): real {
    Clamp(0.0, 1.0, Round4(raw))
  }

  function EstimateOf(c: Capability, v: View, prerequisites: seq<View>, requested: bool, now: int): Estimate {
    var blocked := Blocked(prerequisites);
    var (raw, cites) := Judged(c, v, blocked, requested, now);
    Estimate(Worth(raw), if blocked && cites then Some(Weakest(prerequisites).value.name) else None)
  }

  // ----- What a worth can be -----

  lemma {:induction false} WorthIsMonotone(x: real, y: real)
    requires x <= y
    ensures Worth(x) <= Worth(y)
  {
    Round4Properties(x, y);
  }

  lemma {:induction false} WorthIsShare(x: real)
    ensures 0.0 <= Worth(x) <= 1.0 && OnGrid(Worth(x))
  {
    Round4Properties(x, x);
  }

  /** A second visual of a point so easy (its difficulty is negative) that it is worth less than the
      fixed worth of a visual that nobody asked for. */
  predicate WorthlessVisual(c: Capability, v: View, prerequisites: seq<View>) {
    c == ContentVisual && v.hasVisual && !Blocked(prerequisites)
    && 0.35 + 0.35 * v.difficulty + (if v.IsWeak() then 0.25 else 0.0) < 0.07995
  }

  /** A request never lowers an estimate, but for that one case. */
  lemma {:induction false} RequestLowersIff(c: Capability, v: View, prerequisites: seq<View>, now: int)
    ensures EstimateOf(c, v, prerequisites, true, now).value < EstimateOf(c, v, prerequisites, false, now).value
        <==> WorthlessVisual(c, v, prerequisites)
  {
    var blocked := Blocked(prerequisites);
    var asked, unasked := Judged(c, v, blocked, true, now).0, Judged(c, v, blocked, false, now).0;
    if c == ContentVisual && v.hasVisual {
      WorthThreshold(asked);
      assert Worth(0.08) == 0.08;
    } else {
      RequestRaises(c, v, blocked, now);
      WorthIsMonotone(unasked, asked);
    }
  }

  lemma {:induction false} RequestRaises(c: Capability, v: View, blocked: bool, now: int)
    requires c != ContentVisual || !v.hasVisual
    ensures Judged(c, v, blocked, false, now).0 <= Judged(c, v, blocked, true, now).0
  {
  }

  lemma {:induction false} WorthThreshold(x: real)
    ensures Worth(x) < 0.08 <==> x < 0.07995
  {
    var n := NearestEven(x * 10000.0);
    assert n >= 800 <==> x * 10000.0 >= 799.5;
  }

  /** What a weak prerequisite holds back. */
  predicate Teaches(c: Capability) {
    c == ContentLessonIntro || c == ContentDeck || c == ContentVisual || c == TeachExplain || c == TeachStrategy
    || c == AssessGenerate
  }

  /** A visual of a point so easy (its difficulty is negative) that it is worth less than one that a
      weak prerequisite holds back. */
  predicate TooEasyToShow(c: Capability, v: View, requested: bool) {
    c == ContentVisual && (!v.hasVisual || requested) && 0.35 * v.difficulty + (if v.IsWeak() then 0.25 else 0.0) < -0.02005
  }

  /** A weak prerequisite caps what teaching or testing the point itself is worth and never raises it,
      but for that one case; it never lowers what analysing its prerequisites is worth, and nothing else
      depends on prerequisites. */
  lemma {:induction false} WeakPrerequisiteHoldsBack(c: Capability, v: View, prerequisites: seq<View>, requested: bool, now: int)
    requires Blocked(prerequisites)
    ensures var held, free := EstimateOf(c, v, prerequisites, requested, now).value, EstimateOf(c, v, [], requested, now).value;
      && (Teaches(c) ==> held <= 0.35 && (held > free <==> TooEasyToShow(c, v, requested)))
      && (c == GraphPrerequisite ==> held >= free)
      && (!Teaches(c) && c != GraphPrerequisite ==> held == free)
  {
    var held, free := Judged(c, v, true, requested, now).0, Judged(c, v, false, requested, now).0;
    assert !Blocked([]);
    if Teaches(c) {
      WorthIsMonotone(held, 0.35);
      assert Worth(0.35) == 0.35;
      if c == ContentVisual {
        VisualThresholds(free);
      } else {
        HeldBack(c, v, requested, now);
        WorthIsMonotone(held, free);
      }
    } else if c == GraphPrerequisite {
      WorthIsMonotone(free, held);
    }
  }

  lemma {:induction false} HeldBack(c: Capability, v: View, requested: bool, now: int)
    requires Teaches(c) && c != ContentVisual
    ensures Judged(c, v, true, requested, now).0 <= Judged(c, v, false, requested, now).0
  {
  }

  lemma {:induction false} VisualThresholds(x: real)
    ensures Worth(0.18) == 0.18 && Worth(0.33) == 0.33
    ensures Worth(x) < 0.18 <==> x < 0.17995
    ensures Worth(x) < 0.33 <==> x < 0.32995
  {
    var n := NearestEven(x * 10000.0);
    assert n >= 1800 <==> x * 10000.0 >= 1799.5;
    assert n >= 3300 <==> x * 10000.0 >= 3299.5;
  }

  // ----- The order of the prerequisites -----

  predicate SomeWeak(views: seq<View>) {
    exists x :: x in views && x.IsWeak()
  }

  lemma {:induction false} BlockedIff(prerequisites: seq<View>)
    ensures Blocked(prerequisites) <==> SomeWeak(prerequisites)
  {
  }

  lemma {:induction false} SameMembers(p: seq<View>, q: seq<View>)
    requires multiset(p) == multiset(q)
    ensures forall x :: x in p <==> x in q
  {
    forall x ensures x in p <==> x in q {
      assert x in p <==> x in multiset(p);
      assert x in q <==> x in multiset(q);
    }
  }

  /** What a capability is worth depends on which prerequisites there are, not on their order. */
  lemma {:induction false} ValueForgetsOrder(c: Capability, v: View, p: seq<View>, q: seq<View>, requested: bool, now: int)
    requires multiset(p) == multiset(q)
    ensures Blocked(p) == Blocked(q)
    ensures EstimateOf(c, v, p, requested, now).value == EstimateOf(c, v, q, requested, now).value
    ensures EstimateOf(c, v, p, requested, now).cites.Some? == EstimateOf(c, v, q, requested, now).cites.Some?
  {
    SameMembers(p, q);
    BlockedIff(p);
    BlockedIff(q);
  }

  /** All prerequisites of least mastery have one name. */
  predicate OneName(views: seq<View>) {
    forall x, y :: x in views && y in views && IsLeast(x, views) && IsLeast(y, views) ==> x.name == y.name
  }

  predicate SameEstimate(c: Capability, v: View, p: seq<View>, q: seq<View>, requested: bool, now: int) {
    EstimateOf(c, v, q, requested, now) == EstimateOf(c, v, p, requested, now)
  }

  /** The reason can change with the order of the prerequisites: it stays the same in every order if and
      only if it names none, or all prerequisites of least mastery have one name. */
  lemma {:induction false} ReasonForgetsOrderIff(c: Capability, v: View, p: seq<View>, requested: bool, now: int)
    ensures (forall q :: multiset(q) == multiset(p) ==> SameEstimate(c, v, p, q, requested, now)) <==>
      EstimateOf(c, v, p, requested, now).cites.None? || OneName(p)
  {
    if EstimateOf(c, v, p, requested, now).cites.None? || OneName(p) {
      forall q | multiset(q) == multiset(p) ensures SameEstimate(c, v, p, q, requested, now) {
        ReasonStays(c, v, p, q, requested, now);
      }
    } else {
      var q := ReasonChanges(c, v, p, requested, now);
    }
  }

  lemma {:induction false} ReasonStays(c: Capability, v: View, p: seq<View>, q: seq<View>, requested: bool, now: int)
    requires multiset(q) == multiset(p)
    requires EstimateOf(c, v, p, requested, now).cites.None? || OneName(p)
    ensures SameEstimate(c, v, p, q, requested, now)
  {
    ValueForgetsOrder(c, v, p, q, requested, now);
    SameMembers(p, q);
    if EstimateOf(c, v, p, requested, now).cites.Some? {
      var x, y := Weakest(p).value, Weakest(q).value;
      assert IsLeast(y, p) && y in p;
    }
  }

  lemma {:induction false} ReasonChanges(c: Capability, v: View, p: seq<View>, requested: bool, now: int) returns (q: seq<View>)
    requires EstimateOf(c, v, p, requested, now).cites.Some? && !OneName(p)
    ensures multiset(q) == multiset(p) && !SameEstimate(c, v, p, q, requested, now)
  {
    var k := OtherLeast(p, Weakest(p).value);
    q := MovedFirst(p, k);
    ValueForgetsOrder(c, v, p, q, requested, now);
  }

  lemma {:induction false} MovedFirst(p: seq<View>, k: nat) returns (q: seq<View>)
    requires k < |p| && IsLeast(p[k], p)
    ensures multiset(q) == multiset(p) && Weakest(q) == Some(p[k])
  {
    var rest := p[..k] + p[k + 1..];
    q := [p[k]] + rest;
    assert p == p[..k] + [p[k]] + p[k + 1..];
    FirstIsWeakest(p[k], rest);
  }

  lemma {:induction false} OtherLeast(p: seq<View>, best: View) returns (k: nat)
    requires !OneName(p) && best in p && IsLeast(best, p)
    ensures k < |p| && p[k].name != best.name && IsLeast(p[k], p)
  {
    var x, y :| x in p && y in p && IsLeast(x, p) && IsLeast(y, p) && x.name != y.name;
    var other := if x.name != best.name then x else y;
    k :| 0 <= k < |p| && p[k] == other;
  }

  lemma {:induction false} FirstIsWeakest(first: View, rest: seq<View>)
    requires IsLeast(first, rest)
    ensures Weakest([first] + rest) == Some(first)
  {
    if rest == [] {
      assert [first] + rest == [first] && [first][..0] == [];
    } else {
      FirstIsWeakest(first, rest[..|rest| - 1]);
      assert ([first] + rest)[..|rest|] == [first] + rest[..|rest| - 1];
    }
  }
}
