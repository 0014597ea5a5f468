/** Evidence-weighted mastery: how one graded observation moves an estimate, and what any
    number of them can and cannot do to it. */
module Mastery {
  import opened Rounding

  const DEFAULT_PRIOR := 0.35

  /** A graded observation: the raw score and how much scaffolding it needed. */
  datatype Observation = Observation(score: real, hintLevel: int)

  datatype Change = Change(concept: string, before: real, after: real)

  function HintDiscount(hintLevel: int): real {
    if hintLevel <= 0 then 1.0
    else if hintLevel == 1 then 0.85
    else if hintLevel == 2 then 0.7
    else 0.5
  }

  function LearningRate(evidenceCount: int): real {
    var n := if evidenceCount < 0 then 0 else evidenceCount;
    var rate := 0.55 / (1.0 + 0.35 * n as real);
    if rate < 0.18 then 0.18 else rate
  }

  function Credit(o: Observation): real {
    Clamp(0.0, 1.0, o.score) * HintDiscount(o.hintLevel)
  }

  /** Go the fraction `rate` of the way from `before` to `target`, clamp and round. */
  function Step(before: real, target: real, rate: real): real {
    Round4(Clamp(0.0, 1.0, before + rate * (target - before)))
  }

  /** The estimate after one observation, as stored. */
  function Moved(before: real, o: Observation, count: int): real {
    Step(before, Credit(o), LearningRate(count))
  }

  /** Folding observations left to right; the evidence count grows by one each time. */
  function Fold(mastery: real, count: int, rows: seq<Observation>): real
    decreases |rows|
  {
    if rows == [] then mastery else Fold(Moved(mastery, rows[0], count), count + 1, rows[1..])
  }

  // ----- One observation -----

  lemma {:induction false} RateBounds(count: int)
    ensures 0.18 <= LearningRate(count) <= 0.55
  {
    var n := if count < 0 then 0 else count;
    var d := 1.0 + 0.35 * n as real;
    MulNonneg(0.55 / d, d - 1.0);
    assert 0.55 / d * d == 0.55;
  }

  lemma {:induction false} CreditBounds(o: Observation)
    ensures 0.0 <= Credit(o) <= 1.0
  {
  }

  /** One step keeps the estimate a probability and shrinks its distance to the discounted
      credit by at least the factor 0.82, up to half a rounding unit. */
  lemma {:induction false} MovedContracts(before: real, o: Observation, count: int)
    requires 0.0 <= before <= 1.0
    ensures 0.0 <= Moved(before, o, count) <= 1.0
    ensures Abs(Moved(before, o, count) - Credit(o)) <= 0.82 * Abs(before - Credit(o)) + HALF_UNIT
  {
    RateBounds(count);
    CreditBounds(o);
    StepContracts(before, Credit(o), LearningRate(count));
  }

  lemma {:induction false} StepContracts(before: real, target: real, rate: real)
    requires 0.0 <= before <= 1.0 && 0.0 <= target <= 1.0 && 0.18 <= rate <= 1.0
    ensures 0.0 <= Step(before, target, rate) <= 1.0
    ensures Abs(Step(before, target, rate) - target) <= 0.82 * Abs(before - target) + HALF_UNIT
  {
    var raw := before + rate * (target - before);
    Between(before, target, rate);
    RoundedNear(raw, target);
  }

  lemma {:induction false} RoundedNear(raw: real, target: real)
    requires 0.0 <= raw <= 1.0
    ensures 0.0 <= Round4(Clamp(0.0, 1.0, raw)) <= 1.0
    ensures Abs(Round4(Clamp(0.0, 1.0, raw)) - target) <= Abs(raw - target) + HALF_UNIT
  {
    Round4StaysWithin(0.0, 1.0, raw);
    Round4Properties(raw, raw);
  }

  /** Moving the fraction `a` of the way from `x` to `c` lands between them. */
  lemma {:induction false} Between(x: real, c: real, a: real)
    requires 0.18 <= a <= 1.0
    ensures x <= c ==> x <= x + a * (c - x) <= c
    ensures c <= x ==> c <= x + a * (c - x) <= x
    ensures Abs(x + a * (c - x) - c) <= 0.82 * Abs(x - c)
  {
    if c >= x {
      MulNonneg(a, c - x);
      MulNonneg(1.0 - a, c - x);
      MulNonneg(a - 0.18, c - x);
    } else {
      MulNonneg(a, x - c);
      MulNonneg(1.0 - a, x - c);
      MulNonneg(a - 0.18, x - c);
    }
  }

  /** Moving from a lower point towards a lower target stays lower. */
  lemma {:induction false} BlendMonotone(m: real, m': real, c: real, c': real, a: real)
    requires m <= m' && c <= c' && 0.0 <= a <= 1.0
    ensures m + a * (c - m) <= m' + a * (c' - m')
  {
    MulNonneg(a, c' - c);
    MulNonneg(1.0 - a, m' - m);
  }

  /** A higher starting point, a higher score and no more help never end lower. */
  lemma {:induction false} MovedMonotone(m: real, m': real, o: Observation, o': Observation, count: int)
    requires m <= m' && o.score <= o'.score && o.hintLevel >= o'.hintLevel
    ensures Moved(m, o, count) <= Moved(m', o', count)
  {
    RateBounds(count);
    CreditMonotone(o, o');
    StepMonotone(m, m', Credit(o), Credit(o'), LearningRate(count));
  }

  lemma {:induction false} StepMonotone(m: real, m': real, c: real, c': real, rate: real)
    requires m <= m' && c <= c' && 0.0 <= rate <= 1.0
    ensures Step(m, c, rate) <= Step(m', c', rate)
  {
    BlendMonotone(m, m', c, c', rate);
    Round4Properties(Clamp(0.0, 1.0, m + rate * (c - m)), Clamp(0.0, 1.0, m' + rate * (c' - m')));
  }

  lemma {:induction false} CreditMonotone(o: Observation, o': Observation)
    requires o.score <= o'.score && o.hintLevel >= o'.hintLevel
    ensures Credit(o) <= Credit(o')
  {
    var s, s' := Clamp(0.0, 1.0, o.score), Clamp(0.0, 1.0, o'.score);
    var d, d' := HintDiscount(o.hintLevel), HintDiscount(o'.hintLevel);
    ProductMonotone(s, s', d, d');
  }

  // ----- Any number of observations -----

  lemma {:induction false} FoldStaysInUnitInterval(mastery: real, count: int, rows: seq<Observation>)
    requires 0.0 <= mastery <= 1.0
    ensures 0.0 <= Fold(mastery, count, rows) <= 1.0
    decreases |rows|
  {
    if rows != [] {
      MovedContracts(mastery, rows[0], count);
      FoldStaysInUnitInterval(Moved(mastery, rows[0], count), count + 1, rows[1..]);
    }
  }

  function Pow82(n: nat): (p: real)
    ensures 0.0 < p <= 1.0
  {
    if n == 0 then 1.0 else 0.82 * Pow82(n - 1)
  }

  /** What is left of a gap `g` after `n` steps: 0.82^n of it, plus at most 1/3600 (the fixed
      point of the accumulated rounding error, below 0.0003). */
  function GapBound(n: nat, g: real): real {
    Pow82(n) * g + (1.0 - Pow82(n)) / 3600.0
  }

  /** Observations that all earn one credit (equal scores at one hint level, in particular)
      bring the estimate within GapBound of that credit. */
  lemma {:induction false} RepeatedObservationsConverge(mastery: real, count: int, credit: real, rows: seq<Observation>)
    requires 0.0 <= mastery <= 1.0
    requires forall i :: 0 <= i < |rows| ==> Credit(rows[i]) == credit
    ensures Abs(Fold(mastery, count, rows) - credit) <= GapBound(|rows|, Abs(mastery - credit))
    decreases |rows|
  {
    if rows != [] {
      var next := Moved(mastery, rows[0], count);
      MovedContracts(mastery, rows[0], count);
      RepeatedObservationsConverge(next, count + 1, credit, rows[1..]);
      GapAfter(|rows| - 1, Abs(mastery - credit), Abs(next - credit));
    }
  }

  lemma {:induction false} GapAfter(n: nat, g: real, g': real)
    requires g' <= 0.82 * g + HALF_UNIT
    ensures GapBound(n, g') <= GapBound(n + 1, g)
  {
    MulNonneg(Pow82(n), 0.82 * g + HALF_UNIT - g');
  }

  /** Pointwise at least as good a record never ends at a lower mastery. */
  lemma {:induction false} FoldMonotone(m: real, m': real, count: int, rows: seq<Observation>, rows': seq<Observation>)
    requires m <= m' && |rows| == |rows'|
    requires forall i :: 0 <= i < |rows| ==>
      rows[i].score <= rows'[i].score && rows[i].hintLevel >= rows'[i].hintLevel
    ensures Fold(m, count, rows) <= Fold(m', count, rows')
    decreases |rows|
  {
    if rows != [] {
      MovedMonotone(m, m', rows[0], rows'[0], count);
      FoldMonotone(Moved(m, rows[0], count), Moved(m', rows'[0], count), count + 1, rows[1..], rows'[1..]);
    }
  }

  lemma {:induction false} FoldAppend(m: real, count: int, rows: seq<Observation>, last: Observation)
    ensures Fold(m, count, rows + [last]) == Moved(Fold(m, count, rows), last, count + |rows|)
    decreases |rows|
  {
    if rows == [] {
      assert rows + [last] == [last];
      assert Fold(Moved(m, last, count), count + 1, [last][1..]) == Moved(m, last, count);
    } else {
      assert (rows + [last])[1..] == rows[1..] + [last];
      FoldAppend(Moved(m, rows[0], count), count + 1, rows[1..], last);
    }
  }

  // ----- The update loop over a learner model -----

  function Known(current: map<string, real>, concept: string): real {
    if concept in current then current[concept] else DEFAULT_PRIOR
  }

  function CountOf(counts: map<string, int>, concept: string): int {
    if concept in counts then counts[concept] else 0
  }

  datatype Model = Model(scores: map<string, real>, changes: seq<Change>)

  function MovedConcept(m: Model, concept: string, after: real): Model {
    Model(m.scores[concept := after], m.changes + [Change(concept, Known(m.scores, concept), after)])
  }

  /** The learner model, with the explanation of every move, after the scored concepts moved
      one by one. */
  function Applied(current: map<string, real>, graded: seq<(string, real)>, hintLevel: int, counts: map<string, int>)
    : Model
    decreases |graded|
  {
    if graded == [] then Model(current, [])
    else
      var earlier := Applied(current, graded[..|graded| - 1], hintLevel, counts);
      var (concept, raw) := graded[|graded| - 1];
      MovedConcept(earlier, concept,
                   Moved(Known(earlier.scores, concept), Observation(raw, hintLevel), CountOf(counts, concept)))
  }

  /** Each scored concept moves once, from its old value or the prior, and is explained by the
      change at its position; every other concept keeps its value. */
  lemma {:induction false} AppliedIsPointwise(current: map<string, real>, graded: seq<(string, real)>, hintLevel: int,
                                              counts: map<string, int>, concept: string)
    requires forall i, j :: 0 <= i < j < |graded| ==> graded[i].0 != graded[j].0
    ensures var m := Applied(current, graded, hintLevel, counts);
      && |m.changes| == |graded|
      && (if exists i :: 0 <= i < |graded| && graded[i].0 == concept then
            concept in m.scores &&
            forall i :: 0 <= i < |graded| && graded[i].0 == concept ==>
              && m.scores[concept]
                 == Moved(Known(current, concept), Observation(graded[i].1, hintLevel), CountOf(counts, concept))
              && m.changes[i] == Change(concept, Known(current, concept), m.scores[concept])
          else
            (concept in m.scores <==> concept in current) && Known(m.scores, concept) == Known(current, concept))
    decreases |graded|
  {
    if graded != [] {
      AppliedIsPointwise(current, graded[..|graded| - 1], hintLevel, counts, concept);
    }
  }

  /** Fold graded results into a learner model. */
  method Apply(current: map<string, real>, graded: seq<(string, real)>, hintLevel: int, counts: map<string, int>)
    returns (updated: map<string, real>, changes: seq<Change>)
    ensures Model(updated, changes) == Applied(current, graded, hintLevel, counts)
  {
    updated, changes := current, [];
    for n := 0 to |graded|
      invariant Model(updated, changes) == Applied(current, graded[..n], hintLevel, counts)
    {
      var (concept, raw) := graded[n];
      assert graded[..n + 1][..n] == graded[..n];
      var before := Known(updated, concept);
      var after := Moved(before, Observation(raw, hintLevel), CountOf(counts, concept));
      updated := updated[concept := after];
      changes := changes + [Change(concept, before, after)];
    }
    assert graded[..|graded|] == graded;
  }
}
