/** Review scheduling: how the expected lifetime of a memory reacts to graded recalls. */
module Scheduling {
  import opened Rounding
  import opened Mastery

  const MIN_STABILITY_DAYS := 0.25
  const MAX_STABILITY_DAYS := 180.0
  const INITIAL_STABILITY_DAYS := 1.0
  const RECALL_THRESHOLD := 0.6

  /** The interval a fold starts from: a missing or non-positive one counts as one day. */
  function StartingPoint(current: real): (s: real)
    ensures s > 0.0
  {
    if current > 0.0 then current else INITIAL_STABILITY_DAYS
  }

  function Ease(difficulty: real): (e: real)
    ensures 1.3 <= e <= 3.0
  {
    1.3 + 1.7 * (1.0 - Clamp(0.0, 1.0, difficulty))
  }

  /** The growth factor of one recall: above one for a pass, at most 0.46 for a lapse. */
  function Factor(o: Observation, difficulty: real): real {
    FactorOf(Ease(difficulty), Clamp(0.0, 1.0, o.score), HintDiscount(o.hintLevel))
  }

  function FactorOf(ease: real, score: real, scaffold: real): real {
    if score >= RECALL_THRESHOLD then 1.0 + (ease - 1.0) * score * scaffold
    else 0.25 + 0.35 * score
  }

  function Stored(grown: real): real {
    Round4(Clamp(MIN_STABILITY_DAYS, MAX_STABILITY_DAYS, grown))
  }

  function Grown(current: real, factor: real): real {
    Stored(StartingPoint(current) * factor)
  }

  function NextStability(current: real, o: Observation, difficulty: real): real {
    Grown(current, Factor(o, difficulty))
  }

  /** Folding graded rows left to right. */
  function FoldStability(current: real, difficulty: real, rows: seq<Observation>): real
    decreases |rows|
  {
    if rows == [] then current
    else FoldStability(NextStability(current, rows[0], difficulty), difficulty, rows[1..])
  }

  /** Intervals the profile may hold once at least one graded row was folded. */
  predicate ValidInterval(s: real) {
    MIN_STABILITY_DAYS <= s <= MAX_STABILITY_DAYS && OnGrid(s)
  }

  lemma {:induction false} StoredIsValid(grown: real)
    ensures ValidInterval(Stored(grown))
  {
    var c := Clamp(MIN_STABILITY_DAYS, MAX_STABILITY_DAYS, grown);
    Round4StaysWithin(MIN_STABILITY_DAYS, MAX_STABILITY_DAYS, c);
    Round4Properties(c, c);
  }

  lemma {:induction false} StoredMonotone(x: real, y: real)
    requires x <= y
    ensures 0.0 < Stored(x) <= Stored(y)
  {
    StoredIsValid(x);
    Round4Properties(Clamp(MIN_STABILITY_DAYS, MAX_STABILITY_DAYS, x),
                     Clamp(MIN_STABILITY_DAYS, MAX_STABILITY_DAYS, y));
  }

  /** Pointwise better recalls have larger factors, across the pass threshold too, and a pass
      never has a factor below one. */
  lemma {:induction false} FactorMonotone(o: Observation, o': Observation, difficulty: real)
    requires o.score <= o'.score && o.hintLevel >= o'.hintLevel
    ensures 0.25 <= Factor(o, difficulty) <= Factor(o', difficulty)
    ensures if o.score >= RECALL_THRESHOLD then Factor(o, difficulty) >= 1.0 else Factor(o, difficulty) <= 0.46
  {
    FactorOfMonotone(Ease(difficulty), Clamp(0.0, 1.0, o.score), Clamp(0.0, 1.0, o'.score),
                     HintDiscount(o.hintLevel), HintDiscount(o'.hintLevel));
  }

  lemma {:induction false} FactorOfMonotone(ease: real, s: real, s': real, h: real, h': real)
    requires 1.0 <= ease && 0.0 <= s <= s' <= 1.0 && 0.0 <= h <= h'
    ensures 0.25 <= FactorOf(ease, s, h) <= FactorOf(ease, s', h')
    ensures if s >= RECALL_THRESHOLD then FactorOf(ease, s, h) >= 1.0 else FactorOf(ease, s, h) <= 0.46
  {
    ProductMonotone(ease - 1.0, ease - 1.0, s, s');
    ProductMonotone((ease - 1.0) * s, (ease - 1.0) * s', h, h');
  }

  /** A pass never shortens a stored interval, and a lapse keeps at most 46 percent of it
      (clamped and rounded like every stored interval). */
  lemma {:induction false} PassNeverShortens(current: real, o: Observation, difficulty: real)
    requires ValidInterval(current)
    ensures o.score >= RECALL_THRESHOLD ==> NextStability(current, o, difficulty) >= current
    ensures o.score < RECALL_THRESHOLD ==> NextStability(current, o, difficulty) <= Stored(0.46 * current)
  {
    FactorMonotone(o, o, difficulty);
    StoredIsIdempotent(current);
    if o.score >= RECALL_THRESHOLD {
      GrownMonotone(current, current, 1.0, Factor(o, difficulty));
    } else {
      GrownMonotone(current, current, Factor(o, difficulty), 0.46);
    }
  }

  lemma {:induction false} StoredIsIdempotent(s: real)
    requires ValidInterval(s)
    ensures StartingPoint(s) == s && Stored(s) == s && Grown(s, 1.0) == s
  {
    Round4Properties(s, s);
    assert s * 1.0 == s;
  }

  /** After the first graded row the interval is always a four-decimal number of days
      between a quarter and one hundred and eighty. */
  lemma {:induction false} FoldStaysInRange(current: real, difficulty: real, rows: seq<Observation>)
    requires rows != []
    ensures ValidInterval(FoldStability(current, difficulty, rows))
    decreases |rows|
  {
    var next := NextStability(current, rows[0], difficulty);
    if |rows| == 1 {
      StoredIsValid(StartingPoint(current) * Factor(rows[0], difficulty));
      assert FoldStability(next, difficulty, rows[1..]) == next;
    } else {
      FoldStaysInRange(next, difficulty, rows[1..]);
    }
  }

  lemma {:induction false} NextMonotone(s: real, s': real, o: Observation, o': Observation, difficulty: real)
    requires StartingPoint(s) <= StartingPoint(s')
    requires o.score <= o'.score && o.hintLevel >= o'.hintLevel
    ensures 0.0 < NextStability(s, o, difficulty) <= NextStability(s', o', difficulty)
  {
    FactorMonotone(o, o', difficulty);
    GrownMonotone(s, s', Factor(o, difficulty), Factor(o', difficulty));
  }

  lemma {:induction false} GrownMonotone(s: real, s': real, f: real, f': real)
    requires StartingPoint(s) <= StartingPoint(s') && 0.0 <= f <= f'
    ensures 0.0 < Grown(s, f) <= Grown(s', f')
  {
    var x, x' := StartingPoint(s) * f, StartingPoint(s') * f';
    assert x <= x' by { ProductMonotone(StartingPoint(s), StartingPoint(s'), f, f'); }
    StoredMonotone(x, x');
  }

  /** From one start, a pointwise at least as good record never gives a shorter interval. */
  lemma {:induction false} FoldStabilityMonotone(s: real, s': real, difficulty: real,
                                                 rows: seq<Observation>, rows': seq<Observation>)
    requires |rows| == |rows'| && s <= s' && StartingPoint(s) <= StartingPoint(s')
    requires forall i :: 0 <= i < |rows| ==>
      rows[i].score <= rows'[i].score && rows[i].hintLevel >= rows'[i].hintLevel
    ensures FoldStability(s, difficulty, rows) <= FoldStability(s', difficulty, rows')
    decreases |rows|
  {
    if rows != [] {
      NextMonotone(s, s', rows[0], rows'[0], difficulty);
      FoldStabilityMonotone(NextStability(s, rows[0], difficulty), NextStability(s', rows'[0], difficulty),
                            difficulty, rows[1..], rows'[1..]);
    }
  }

  /** The fold does not care where a record is cut into batches. */
  lemma {:induction false} FoldSplits(s: real, difficulty: real, a: seq<Observation>, b: seq<Observation>)
    ensures FoldStability(s, difficulty, a + b) == FoldStability(FoldStability(s, difficulty, a), difficulty, b)
    decreases |a|
  {
    if a == [] {
      assert a + b == b;
    } else {
      assert (a + b)[1..] == a[1..] + b;
      FoldSplits(NextStability(s, a[0], difficulty), difficulty, a[1..], b);
    }
  }
}
