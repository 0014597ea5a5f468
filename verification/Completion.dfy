/** When a planned task is finished: done-conditions evaluated against the facts, and what an
    unsatisfied one names as missing. */
module Completion {
  import opened Wrappers

  datatype Condition =
    | Always
    | ArtifactExists(artifact: string)
    | ArtifactValid(artifact: string)
    | Observed(signal: string, point: string, minCount: nat)
    | ProviderResult
    | Reaches(point: string, mastery: real)
    | UserReplied
    | QuizGraded
    | AllOf(conditions: seq<Condition>)
    | AnyOf(conditions: seq<Condition>)
    | Unknown(kind: string)

  datatype Artifacts = Artifacts(existing: set<string>, valid: set<string>)

  datatype Evidence = Evidence(signal: string, point: string)

  /** The facts; without access to the artifact store `artifacts` is `None`. */
  datatype Context = Context(artifacts: Option<Artifacts>, evidence: seq<Evidence>, profile: map<string, real>,
                             userReplied: bool, quizGraded: bool, providerResult: bool)

  predicate Matches(e: Evidence, signal: string, point: string) {
    e.signal == signal && (point == "" || e.point == point)
  }

  function CountOf(evidence: seq<Evidence>, signal: string, point: string): nat {
    if evidence == [] then 0
    else CountOf(evidence[..|evidence| - 1], signal, point) + if Matches(evidence[|evidence| - 1], signal, point) then 1 else 0
  }

  /** Nested conditions have at least one operand. */
  predicate WellFormed(c: Condition) {
    c.AllOf? || c.AnyOf? ==> c.conditions != [] && forall i :: 0 <= i < |c.conditions| ==> WellFormed(c.conditions[i])
  }

  predicate Satisfied(c: Condition, x: Context) {
    match c
    case Always => true
    case ArtifactExists(a) => x.artifacts.Some? && a in x.artifacts.value.existing
    case ArtifactValid(a) => x.artifacts.Some? && a in x.artifacts.value.existing && a in x.artifacts.value.valid
    case Observed(signal, point, n) => CountOf(x.evidence, signal, point) >= n
    case ProviderResult => x.providerResult
    case Reaches(point, mastery) => point in x.profile && x.profile[point] >= mastery
    case UserReplied => x.userReplied
    case QuizGraded => x.quizGraded
    case AllOf(cs) => forall i :: 0 <= i < |cs| ==> Satisfied(cs[i], x)
    case AnyOf(cs) => exists i :: 0 <= i < |cs| && Satisfied(cs[i], x)
    case Unknown(_) => false
  }

  /** The simple conditions that the verdict on an unsatisfied condition speaks of: those of the
      failed operands of a conjunction, those of every operand of a disjunction. */
  function Missing(c: Condition, x: Context): seq<Condition>
    decreases c, 1, 0
  {
    match c
    case AllOf(cs) => MissingOf(c, x, |cs|)
    case AnyOf(cs) => MissingOf(c, x, |cs|)
    case _ => [c]
  }

  function MissingOf(c: Condition, x: Context, n: nat): seq<Condition>
    requires (c.AllOf? || c.AnyOf?) && n <= |c.conditions|
    decreases c, 0, n
  {
    if n == 0 then []
    else MissingOf(c, x, n - 1) + if Satisfied(c.conditions[n - 1], x) then [] else Missing(c.conditions[n - 1], x)
  }

  // ----- Facts only help -----

  /** The second context knows at least as much. */
  predicate Knows(x: Context, y: Context) {
    && (x.artifacts.Some? ==> y.artifacts.Some? && x.artifacts.value.existing <= y.artifacts.value.existing
                              && x.artifacts.value.valid <= y.artifacts.value.valid)
    && x.evidence <= y.evidence
    && (forall p :: p in x.profile ==> p in y.profile && x.profile[p] <= y.profile[p])
    && (x.userReplied ==> y.userReplied) && (x.quizGraded ==> y.quizGraded) && (x.providerResult ==> y.providerResult)
  }

  lemma {:induction false} CountGrows(a: seq<Evidence>, b: seq<Evidence>, signal: string, point: string)
    requires a <= b
    ensures CountOf(a, signal, point) <= CountOf(b, signal, point)
  {
    if a != b {
      assert a <= b[..|b| - 1];
      CountGrows(a, b[..|b| - 1], signal, point);
    }
  }

  /** A satisfied condition stays satisfied when artifacts, evidence or mastery are added. */
  lemma {:induction false} FactsOnlyHelp(c: Condition, x: Context, y: Context)
    requires Knows(x, y) && Satisfied(c, x)
    ensures Satisfied(c, y)
    decreases c
  {
    match c {
      case Observed(signal, point, n) => CountGrows(x.evidence, y.evidence, signal, point);
      case AllOf(cs) =>
        forall i | 0 <= i < |cs| ensures Satisfied(cs[i], y) {
          FactsOnlyHelp(cs[i], x, y);
        }
      case AnyOf(cs) =>
        var i :| 0 <= i < |cs| && Satisfied(cs[i], x);
        FactsOnlyHelp(cs[i], x, y);
      case _ =>
    }
  }

  // ----- What is missing -----

  ghost predicate AllHold(cs: seq<Condition>, x: Context) {
    forall c :: c in cs ==> Satisfied(c, x)
  }

  /** Everything a verdict names is indeed unsatisfied, and it names something. */
  lemma {:induction false} MissingIsUnsatisfied(c: Condition, x: Context)
    requires WellFormed(c) && !Satisfied(c, x)
    ensures Missing(c, x) != [] && forall m :: m in Missing(c, x) ==> !Satisfied(m, x)
    decreases c, 1, 0
  {
    if c.AllOf? || c.AnyOf? {
      var k := FailedOperand(c, x);
      MissingOfIsUnsatisfied(c, x, |c.conditions|, k);
    }
  }

  lemma {:induction false} FailedOperand(c: Condition, x: Context) returns (k: nat)
    requires WellFormed(c) && !Satisfied(c, x) && (c.AllOf? || c.AnyOf?)
    ensures k < |c.conditions| && !Satisfied(c.conditions[k], x)
  {
    k := 0;
    if c.AllOf? {
      k :| 0 <= k < |c.conditions| && !Satisfied(c.conditions[k], x);
    }
  }

  lemma {:induction false} MissingOfIsUnsatisfied(c: Condition, x: Context, n: nat, k: nat)
    requires (c.AllOf? || c.AnyOf?) && WellFormed(c) && n <= |c.conditions|
    requires k < |c.conditions| && !Satisfied(c.conditions[k], x)
    ensures k < n ==> MissingOf(c, x, n) != []
    ensures forall m :: m in MissingOf(c, x, n) ==> !Satisfied(m, x)
    decreases c, 0, n
  {
    if n > 0 {
      MissingOfIsUnsatisfied(c, x, n - 1, k);
      if !Satisfied(c.conditions[n - 1], x) {
        MissingIsUnsatisfied(c.conditions[n - 1], x);
      }
    }
  }

  /** Supplying what the verdict names is enough: in every richer context in which all of it
      holds, the condition is satisfied. */
  lemma {:induction false} SupplyingTheMissingSuffices(c: Condition, x: Context, y: Context)
    requires WellFormed(c) && !Satisfied(c, x) && Knows(x, y) && AllHold(Missing(c, x), y)
    ensures Satisfied(c, y)
    decreases c
  {
    match c {
      case AllOf(cs) =>
        forall i | 0 <= i < |cs| ensures Satisfied(cs[i], y) {
          if Satisfied(cs[i], x) {
            FactsOnlyHelp(cs[i], x, y);
          } else {
            MissingOfOperand(c, x, |cs|, i);
            SupplyingTheMissingSuffices(cs[i], x, y);
          }
        }
      case AnyOf(cs) =>
        assert !Satisfied(cs[0], x);
        MissingOfOperand(c, x, |cs|, 0);
        SupplyingTheMissingSuffices(cs[0], x, y);
      case Always =>
      case _ =>
        assert c in Missing(c, x);
    }
  }

  lemma {:induction false} MissingOfOperand(c: Condition, x: Context, n: nat, i: nat)
    requires (c.AllOf? || c.AnyOf?) && i < n <= |c.conditions| && !Satisfied(c.conditions[i], x)
    ensures forall m :: m in Missing(c.conditions[i], x) ==> m in MissingOf(c, x, n)
    decreases n
  {
    if i < n - 1 {
      MissingOfOperand(c, x, n - 1, i);
    }
  }

  /** Unknown kinds fail closed: a condition that needs one is never satisfied. */
  lemma {:induction false} UnknownFailsClosed(c: Condition, x: Context)
    requires NeedsUnknown(c)
    ensures !Satisfied(c, x)
    decreases c
  {
    match c {
      case AllOf(cs) =>
        var i :| 0 <= i < |cs| && NeedsUnknown(cs[i]);
        UnknownFailsClosed(cs[i], x);
      case AnyOf(cs) =>
        forall i | 0 <= i < |cs| ensures !Satisfied(cs[i], x) {
          UnknownFailsClosed(cs[i], x);
        }
      case _ =>
    }
  }

  predicate NeedsUnknown(c: Condition) {
    match c
    case Unknown(_) => true
    case AllOf(cs) => exists i :: 0 <= i < |cs| && NeedsUnknown(cs[i])
    case AnyOf(cs) => forall i :: 0 <= i < |cs| ==> NeedsUnknown(cs[i])
    case _ => false
  }
}
