/** What a point's mastery and review interval depend on: where a backlog is cut, which rows are
    graded, and what the learner overrode. */
module EvidenceFolds {
  import opened Wrappers
  import opened Rounding
  import opened EvidenceLedger
  import opened EvidenceProjection
  import Mastery
  import Scheduling

  // ----- Where a batch is cut -----

  function GradedCount(rows: seq<Row>): (n: nat)
    ensures n <= |rows|
    decreases |rows|
  {
    if rows == [] then 0 else (if rows[0].grade.Graded? then 1 else 0) + GradedCount(rows[1..])
  }

  predicate AllGraded(rows: seq<Row>) {
    forall i :: 0 <= i < |rows| ==> rows[i].grade.Graded?
  }

  lemma {:induction false} AllGradedIff(rows: seq<Row>)
    ensures GradedCount(rows) == |rows| <==> AllGraded(rows)
    decreases |rows|
  {
    if rows != [] {
      AllGradedIff(rows[1..]);
      assert rows == [rows[0]] + rows[1..];
    }
  }

  /** Inside one batch only graded rows count. */
  lemma {:induction false} FoldMasterySplits(m: real, count: nat, a: seq<Row>, b: seq<Row>)
    ensures FoldMastery(m, count, a + b) == FoldMastery(FoldMastery(m, count, a), count + GradedCount(a), b)
    decreases |a|
  {
    if a == [] {
      assert a + b == b;
    } else {
      assert (a + b)[1..] == a[1..] + b;
      match a[0].grade
      case Ungraded => FoldMasterySplits(m, count, a[1..], b);
      case Graded(None, _) => FoldMasterySplits(m, count + 1, a[1..], b);
      case Graded(Some(score), hint) =>
        FoldMasterySplits(Mastery.Moved(m, Mastery.Observation(score, hint), count), count + 1, a[1..], b);
    }
  }

  const SETTLED := 6

  /** From six counted rows on the learning rate stays at its floor; before, every row lowers it. */
  lemma {:induction false} RateSettles(count: nat, later: nat)
    ensures count >= SETTLED ==> Mastery.LearningRate(count) == 0.18
    ensures count < SETTLED && count < later ==> Mastery.LearningRate(count) - Mastery.LearningRate(later) >= 0.02
  {
    RateFalls(SETTLED, count);
    RateFalls(count + 1, later);
    assert Mastery.LearningRate(6) == 0.18;
    assert Mastery.LearningRate(0) == 0.55;
    assert 0.40 <= Mastery.LearningRate(1) <= 0.41;
    assert 0.32 <= Mastery.LearningRate(2) <= 0.33;
    assert 0.26 <= Mastery.LearningRate(3) <= 0.27;
    assert 0.22 <= Mastery.LearningRate(4) <= 0.23;
    assert Mastery.LearningRate(5) == 0.2;
  }

  lemma {:induction false} RateFalls(count: nat, later: nat)
    ensures count <= later ==> Mastery.LearningRate(later) <= Mastery.LearningRate(count)
  {
    if count <= later {
      var d, d' := 1.0 + 0.35 * count as real, 1.0 + 0.35 * later as real;
      QuotientFalls(d, d');
    }
  }

  lemma {:induction false} QuotientFalls(d: real, d': real)
    requires 1.0 <= d <= d'
    ensures 0.55 / d' <= 0.55 / d
  {
    var q, q' := 0.55 / d, 0.55 / d';
    assert q * d == 0.55 && q' * d' == 0.55;
    if q' > q {
      MulNonneg(q' - q, d);
      MulNonneg(q', d' - d);
      assert q' * d' == q' * d + q' * (d' - d);
      assert q' * d == q * d + (q' - q) * d;
      assert (q' - q) * d >= q' - q by {
        MulNonneg(q' - q, d - 1.0);
      }
    }
  }

  lemma {:induction false} SettledCountsAgree(m: real, count: nat, other: nat, rows: seq<Row>)
    requires count >= SETTLED && other >= SETTLED
    ensures FoldMastery(m, count, rows) == FoldMastery(m, other, rows)
    decreases |rows|
  {
    if rows != [] {
      RateSettles(count, count);
      RateSettles(other, other);
      match rows[0].grade
      case Ungraded => SettledCountsAgree(m, count, other, rows[1..]);
      case Graded(None, _) => SettledCountsAgree(m, count + 1, other + 1, rows[1..]);
      case Graded(Some(score), hint) =>
        SettledCountsAgree(Mastery.Moved(m, Mastery.Observation(score, hint), count), count + 1, other + 1, rows[1..]);
    }
  }

  /** No row that is not graded comes before one of the first six graded rows. */
  predicate Settles(rows: seq<Row>) {
    forall i :: 0 <= i < |rows| && rows[i].grade.Graded? ==> AllGraded(rows[..i]) || GradedCount(rows[..i]) >= SETTLED
  }

  lemma {:induction false} SettlesEarly(seen: seq<Row>, unseen: seq<Row>)
    requires Settles(seen + unseen)
    ensures Settles(seen)
  {
    forall i | 0 <= i < |seen| && seen[i].grade.Graded? ensures AllGraded(seen[..i]) || GradedCount(seen[..i]) >= SETTLED {
      assert (seen + unseen)[i] == seen[i] && (seen + unseen)[..i] == seen[..i];
    }
  }

  /** Then a cut between them makes no difference. */
  lemma {:induction false} SettledCut(m: real, seen: seq<Row>, unseen: seq<Row>)
    requires Settles(seen + unseen)
    ensures FoldMastery(m, |seen|, unseen) == FoldMastery(m, GradedCount(seen), unseen)
  {
    AllGradedIff(seen);
    if GradedCount(seen) >= SETTLED {
      SettledCountsAgree(m, |seen|, GradedCount(seen), unseen);
    } else if !AllGraded(seen) {
      NoneGraded(seen, unseen, |unseen|);
      UngradedFold(m, |seen|, unseen);
      UngradedFold(m, GradedCount(seen), unseen);
    }
  }

  lemma {:induction false} NoneGraded(seen: seq<Row>, unseen: seq<Row>, n: nat)
    requires Settles(seen + unseen) && n <= |unseen| && GradedCount(seen) < SETTLED && !AllGraded(seen)
    ensures forall i :: 0 <= i < n ==> unseen[i].grade.Ungraded?
  {
    if n > 0 {
      NoneGraded(seen, unseen, n - 1);
      var a, k := seen + unseen[..n - 1], |seen| + n - 1;
      assert (seen + unseen)[..k] == a && (seen + unseen)[k] == unseen[n - 1];
      GradedCountAdds(seen, unseen[..n - 1]);
      assert !AllGraded(a) by {
        var i :| 0 <= i < |seen| && !seen[i].grade.Graded?;
        assert a[i] == seen[i];
      }
    }
  }

  lemma {:induction false} GradedCountAdds(a: seq<Row>, b: seq<Row>)
    requires forall i :: 0 <= i < |b| ==> b[i].grade.Ungraded?
    ensures GradedCount(a + b) == GradedCount(a)
    decreases |a| + |b|
  {
    if a != [] {
      assert (a + b)[1..] == a[1..] + b;
      GradedCountAdds(a[1..], b);
    } else if b != [] {
      assert a + b == b && a + b[1..] == b[1..];
      GradedCountAdds(a, b[1..]);
    }
  }

  lemma {:induction false} UngradedFold(m: real, count: nat, rows: seq<Row>)
    requires forall i :: 0 <= i < |rows| ==> rows[i].grade.Ungraded?
    ensures FoldMastery(m, count, rows) == m
    decreases |rows|
  {
    if rows != [] {
      UngradedFold(m, count, rows[1..]);
    }
  }

  /** Before the rate has settled, one more counted row shows in the very next observation. */
  lemma {:induction false} UnsettledCountsDiffer(m: real, count: nat, later: nat) returns (rows: seq<Row>)
    requires 0.0 <= m <= 1.0 && count < SETTLED && count < later
    ensures FoldMastery(m, count, rows) != FoldMastery(m, later, rows)
  {
    var score := if m < 0.5 then 1.0 else 0.0;
    var o := Mastery.Observation(score, 0);
    rows := [Row("next", 1, "p", Graded(Some(score), 0))];
    assert rows[1..] == [];
    RateSettles(count, later);
    Mastery.RateBounds(count);
    Mastery.RateBounds(later);
    StepsDiffer(m, score, Mastery.LearningRate(count), Mastery.LearningRate(later));
    assert Mastery.Credit(o) == score;
  }

  lemma {:induction false} StepsDiffer(m: real, credit: real, rate: real, slower: real)
    requires 0.0 <= m <= 1.0 && credit == (if m < 0.5 then 1.0 else 0.0)
    requires 0.18 <= slower && slower + 0.02 <= rate <= 0.55
    ensures Mastery.Step(m, credit, rate) != Mastery.Step(m, credit, slower)
  {
    var x, y := m + rate * (credit - m), m + slower * (credit - m);
    GapBetween(m, credit, rate, slower);
    StepIsRounded(m, credit, rate, x);
    StepIsRounded(m, credit, slower, y);
    RoundedApart(x, y);
  }

  lemma {:induction false} StepIsRounded(m: real, credit: real, rate: real, x: real)
    requires 0.0 <= m <= 1.0 && 0.0 <= credit <= 1.0 && 0.18 <= rate <= 1.0 && x == m + rate * (credit - m)
    ensures 0.0 <= x <= 1.0 && Mastery.Step(m, credit, rate) == Round4(Clamp(0.0, 1.0, x))
  {
    Mastery.Between(m, credit, rate);
  }

  lemma {:induction false} GapBetween(m: real, credit: real, rate: real, slower: real)
    requires 0.0 <= m <= 1.0 && credit == (if m < 0.5 then 1.0 else 0.0) && slower + 0.02 <= rate
    ensures var x, y := m + rate * (credit - m), m + slower * (credit - m); x - y >= 0.01 || y - x >= 0.01
  {
    if m < 0.5 {
      ProductMonotone(0.02, rate - slower, 0.5, credit - m);
      assert (m + rate * (credit - m)) - (m + slower * (credit - m)) == (rate - slower) * (credit - m);
    } else {
      ProductMonotone(0.02, rate - slower, 0.5, m - credit);
      assert (m + slower * (credit - m)) - (m + rate * (credit - m)) == (rate - slower) * (m - credit);
    }
  }

  lemma {:induction false} RoundedApart(x: real, y: real)
    requires 0.0 <= x <= 1.0 && 0.0 <= y <= 1.0 && (x - y >= 0.01 || y - x >= 0.01)
    ensures Round4(Clamp(0.0, 1.0, x)) != Round4(Clamp(0.0, 1.0, y))
  {
    Round4Properties(x, x);
    Round4Properties(y, y);
  }

  /** A row as the folds leave it: not frozen, and with a mastery that reads as a positive share. */
  predicate Ordinary(current: Option<ProfileRow>) {
    current.Some? ==> !current.value.frozen && current.value.count > 0 && 0.0001 <= Round4(current.value.mastery) <= 1.0
  }

  lemma {:induction false} BeforeIsPositive(current: Option<ProfileRow>)
    requires Ordinary(current)
    ensures Share(MasteryBefore(current)) && (CountBefore(current) == 0 ==> MasteryBefore(current) >= DEFAULT_MASTERY)
  {
    if current.Some? {
      Round4Properties(current.value.mastery, 0.0);
    } else {
      assert DEFAULT_MASTERY == Round4(DEFAULT_MASTERY);
      Round4Properties(DEFAULT_MASTERY, 0.0);
    }
  }

  /** A positive four-decimal share. */
  predicate Share(m: real) {
    0.0001 <= m <= 1.0 && OnGrid(m)
  }

  /** Cutting a backlog in two gives the same mastery, whatever the second part is, if and only if
      the first part holds graded rows only or six rows have been counted by the cut. */
  lemma {:induction false} SplitBatchAgreesIff(current: Option<ProfileRow>, a: seq<Row>)
    requires Ordinary(current)
    ensures (forall b :: SplitAgrees(current, a, b)) <==>
      AllGraded(a) || CountBefore(current) + GradedCount(a) >= SETTLED
  {
    AllGradedIff(a);
    if CountBefore(current) + GradedCount(a) >= SETTLED || AllGraded(a) {
      forall b ensures SplitAgrees(current, a, b) {
        SplitAgreesWhen(current, a, b);
      }
    } else {
      var b := SplitDisagrees(current, a);
      assert !SplitAgrees(current, a, b);
    }
  }

  predicate SplitAgrees(current: Option<ProfileRow>, a: seq<Row>, b: seq<Row>) {
    Updated(Some(Updated(current, a)), b).mastery == Updated(current, a + b).mastery
  }

  lemma {:induction false} SplitAgreesWhen(current: Option<ProfileRow>, a: seq<Row>, b: seq<Row>)
    requires Ordinary(current)
    requires CountBefore(current) + GradedCount(a) >= SETTLED || GradedCount(a) == |a|
    ensures SplitAgrees(current, a, b)
  {
    var c := CountBefore(current);
    SplitMasteries(current, a, b);
    if c + GradedCount(a) >= SETTLED {
      SettledCountsAgree(FoldMastery(MasteryBefore(current), c, a), c + |a|, c + GradedCount(a), b);
    }
  }

  lemma {:induction false} SplitDisagrees(current: Option<ProfileRow>, a: seq<Row>) returns (b: seq<Row>)
    requires Ordinary(current) && CountBefore(current) + GradedCount(a) < SETTLED && GradedCount(a) < |a|
    ensures !SplitAgrees(current, a, b)
  {
    var c := CountBefore(current);
    BeforeIsPositive(current);
    FoldStaysShare(MasteryBefore(current), c, a);
    b := UnsettledCountsDiffer(FoldMastery(MasteryBefore(current), c, a), c + GradedCount(a), c + |a|);
    SplitMasteries(current, a, b);
  }

  lemma {:induction false} SplitMasteries(current: Option<ProfileRow>, a: seq<Row>, b: seq<Row>)
    requires Ordinary(current)
    ensures var m := FoldMastery(MasteryBefore(current), CountBefore(current), a);
      && Updated(Some(Updated(current, a)), b).mastery == FoldMastery(m, CountBefore(current) + |a|, b)
      && Updated(current, a + b).mastery == FoldMastery(m, CountBefore(current) + GradedCount(a), b)
  {
    var first := Updated(current, a);
    WrittenAsFolded(current, a);
    WrittenAsFolded(Some(first), b);
    WrittenAsFolded(current, a + b);
    BeforeIsPositive(current);
    FoldStaysShare(MasteryBefore(current), CountBefore(current), a);
    Round4Properties(first.mastery, 0.0);
    FoldMasterySplits(MasteryBefore(current), CountBefore(current), a, b);
  }

  /** An ungraded row counts towards the learning rate only from the next batch on. */
  lemma {:induction false} UngradedRowMovesTheBoundary()
    ensures var seen, right := Row("e1", 1, "p", Ungraded), Row("e2", 2, "p", Graded(Some(1.0), 0));
      Updated(Some(Updated(None, [seen])), [right]).mastery == 0.6148 && Updated(None, [seen, right]).mastery == 0.7075
  {
    var seen, right := Row("e1", 1, "p", Ungraded), Row("e2", 2, "p", Graded(Some(1.0), 0));
    var o := Mastery.Observation(1.0, 0);
    assert Mastery.Moved(0.35, o, 0) == 0.7075;
    assert Mastery.Moved(0.35, o, 1) == 0.6148;
    assert [right][1..] == [] && [seen][1..] == [] && [seen] + [right] == [seen, right];
    assert FoldMastery(0.35, 0, [seen]) == 0.35 && GradedCount([seen]) == 0;
    SplitMasteries(None, [seen], [right]);
  }

  // ----- A mastery that reads as zero -----

  /** One observation keeps a positive mastery positive: only the first one of all has a learning
      rate above one half, and it starts from the default. */
  lemma {:induction false} MovedStaysShare(m: real, o: Mastery.Observation, count: nat)
    requires 0.0001 <= m && (count == 0 ==> m >= DEFAULT_MASTERY)
    ensures Share(Mastery.Moved(m, o, count))
  {
    var rate, credit := Mastery.LearningRate(count), Mastery.Credit(o);
    Mastery.RateBounds(count);
    Mastery.CreditBounds(o);
    if count > 0 {
      LaterRate(count);
    }
    StepStaysShare(m, credit, rate);
  }

  lemma {:induction false} LaterRate(count: int)
    requires count > 0
    ensures Mastery.LearningRate(count) <= 0.41
  {
    var d := 1.0 + 0.35 * count as real;
    MulNonneg(0.55 / d, d - 1.35);
    assert 0.55 / d * d == 0.55;
  }

  lemma {:induction false} StepStaysShare(m: real, credit: real, rate: real)
    requires 0.0001 <= m && 0.0 <= credit <= 1.0 && 0.18 <= rate <= 0.55
    requires rate > 0.41 ==> m >= DEFAULT_MASTERY
    ensures Share(Mastery.Step(m, credit, rate))
  {
    var raw := m + rate * (credit - m);
    MulNonneg(rate, credit);
    if rate > 0.41 {
      MulNonneg(0.55 - rate, m);
    } else {
      MulNonneg(0.41 - rate, m);
    }
    assert rate * (credit - m) == rate * credit - rate * m;
    RoundedStaysShare(Clamp(0.0, 1.0, raw));
  }

  lemma {:induction false} RoundedStaysShare(raw: real)
    requires 0.000051 <= raw <= 1.0
    ensures Share(Round4(raw))
  {
    Round4Properties(raw, raw);
    Round4StaysWithin(0.0, 1.0, raw);
    assert NearestEven(raw * 10000.0) >= 1;
  }

  lemma {:induction false} FoldStaysShare(m: real, count: nat, rows: seq<Row>)
    requires 0.0001 <= m && (count == 0 ==> m >= DEFAULT_MASTERY)
    ensures 0.0001 <= FoldMastery(m, count, rows) && (Share(m) ==> Share(FoldMastery(m, count, rows)))
    decreases |rows|
  {
    if rows != [] {
      match rows[0].grade
      case Ungraded => FoldStaysShare(m, count, rows[1..]);
      case Graded(None, _) => FoldStaysShare(m, count + 1, rows[1..]);
      case Graded(Some(score), hint) =>
        var o := Mastery.Observation(score, hint);
        MovedStaysShare(m, o, count);
        FoldStaysShare(Mastery.Moved(m, o, count), count + 1, rows[1..]);
    }
  }

  /** The mastery of a row is read back as it was stored, not as the default. */
  predicate ReadBack(row: ProfileRow) {
    MasteryBefore(Some(row)) == Round4(row.mastery)
  }

  /** Whatever batch a row takes next, the mastery that is stored then is read back as it is, if and only
      if the mastery before does not read as zero (a frozen row, which keeps it) or is not negative (any
      other). A zero before is itself read as the default, and what is written from there is read back;
      a negative value can fold to a stored zero. */
  lemma {:induction false} EveryBatchIsReadBackIff(row: ProfileRow)
    requires row.count > 0
    ensures (forall unseen :: Accepted(Some(row), unseen) ==> ReadBack(Updated(Some(row), unseen))) <==>
      if row.frozen then Round4(row.mastery) != 0.0 else Round4(row.mastery) >= 0.0
  {
    Round4Properties(row.mastery, 0.0);
    if row.frozen {
      assert Accepted(Some(row), []) <==> IsShare(MasteryBefore(Some(row)));
      assert Updated(Some(row), []).mastery == row.mastery;
    } else if Round4(row.mastery) >= 0.0 {
      forall unseen ensures ReadBack(Updated(Some(row), unseen)) {
        NonnegativeIsReadBack(row, unseen);
      }
    } else {
      NegativeFoldsToZero(row);
    }
  }

  lemma {:induction false} NonnegativeIsReadBack(row: ProfileRow, unseen: seq<Row>)
    requires row.count > 0 && !row.frozen && Round4(row.mastery) >= 0.0
    ensures Updated(Some(row), unseen).mastery >= 0.0001 && ReadBack(Updated(Some(row), unseen))
  {
    var m := MasteryBefore(Some(row));
    Round4Properties(row.mastery, 0.0);
    PositiveOnGrid(m);
    FoldStaysShare(m, row.count, unseen);
    WrittenAsFolded(Some(row), unseen);
    var after := Updated(Some(row), unseen).mastery;
    Round4Properties(0.0001, after);
    Round4Properties(0.0001, 0.0);
  }

  lemma {:induction false} PositiveOnGrid(m: real)
    ensures m > 0.0 && OnGrid(m) ==> m >= 0.0001
    ensures DEFAULT_MASTERY >= 0.0001
  {
    if m > 0.0 && OnGrid(m) {
      assert (m * 10000.0).Floor >= 1;
    }
  }

  lemma {:induction false} NegativeFoldsToZero(row: ProfileRow)
    requires !row.frozen && Round4(row.mastery) < 0.0
    ensures exists unseen :: Accepted(Some(row), unseen) && !ReadBack(Updated(Some(row), unseen))
  {
    var unseen := [Row("next", 1, "p", Graded(Some(0.0), 0))];
    assert unseen[1..] == [];
    var m, rate := MasteryBefore(Some(row)), Mastery.LearningRate(row.count);
    Mastery.RateBounds(row.count);
    MulNonneg(1.0 - rate, -m);
    assert m + rate * (0.0 - m) == (1.0 - rate) * m;
    assert Mastery.Credit(Mastery.Observation(0.0, 0)) == 0.0;
    assert Round4(0.0) == 0.0;
    assert FoldMastery(m, row.count, unseen) == Mastery.Moved(m, Mastery.Observation(0.0, 0), row.count) == 0.0;
    assert Updated(Some(row), unseen).mastery == 0.0;
  }

  // ----- Overrides of difficulty -----

  /** A difficulty override leaves every later interval as it would have been if and only if the row
      still reads as the default difficulty. */
  lemma {:induction false} DifficultyIsHarmlessIff(row: ProfileRow)
    requires row.stability == 0.0 || Scheduling.ValidInterval(row.stability)
    ensures (forall unseen :: DeltaOf(Some(row), unseen).stability
                           == DeltaOf(Some(row.(difficulty := DEFAULT_DIFFICULTY)), unseen).stability) <==>
      DifficultyOf(Some(row)) == DEFAULT_DIFFICULTY
  {
    assert Round4(DEFAULT_DIFFICULTY) == DEFAULT_DIFFICULTY;
    if DifficultyOf(Some(row)) != DEFAULT_DIFFICULTY {
      IntervalIsReadBack(row.stability);
      var unseen := TellingRecord(row.stability, DifficultyOf(Some(row)));
      assert DeltaOf(Some(row), unseen).stability
          != DeltaOf(Some(row.(difficulty := DEFAULT_DIFFICULTY)), unseen).stability;
    }
  }

  /** Five lapses bring any interval down to a quarter of a day, and then one pass, whose score makes
      the default difficulty land exactly between two stored values, tells any other difficulty. */
  lemma {:induction false} TellingRecord(s: real, difficulty: real) returns (rows: seq<Row>)
    requires s == 0.0 || Scheduling.ValidInterval(s)
    requires difficulty != DEFAULT_DIFFICULTY
    ensures Scheduling.FoldStability(s, difficulty, Scored(rows))
         != Scheduling.FoldStability(s, DEFAULT_DIFFICULTY, Scored(rows))
  {
    var lapse := Row("l", 1, "p", Graded(Some(0.0), 0));
    var score := if difficulty < DEFAULT_DIFFICULTY then 2500.5 / 2875.0 else 2501.5 / 2875.0;
    var pass := Row("r", 2, "p", Graded(Some(score), 0));
    var zero, right := Mastery.Observation(0.0, 0), Mastery.Observation(score, 0);
    rows := [lapse, lapse, lapse, lapse, lapse, pass];
    ScoredSix(lapse, pass, zero, right);
    AfterLapses(s, difficulty, right);
    AfterLapses(s, DEFAULT_DIFFICULTY, right);
    PassTells(difficulty, score);
  }

  lemma {:induction false} AfterLapses(s: real, difficulty: real, o: Mastery.Observation)
    requires s == 0.0 || Scheduling.ValidInterval(s)
    ensures var zero := Mastery.Observation(0.0, 0);
      Scheduling.FoldStability(s, difficulty, [zero, zero, zero, zero, zero, o]) == Scheduling.NextStability(0.25, o, difficulty)
  {
    var zero := Mastery.Observation(0.0, 0);
    var five := [zero, zero, zero, zero, zero];
    assert five + [o] == [zero, zero, zero, zero, zero, o] && [o][1..] == [];
    LapsesReachTheFloor(s, difficulty);
    Scheduling.FoldSplits(s, difficulty, five, [o]);
  }

  lemma {:induction false} ScoredSix(lapse: Row, pass: Row, zero: Mastery.Observation, right: Mastery.Observation)
    requires lapse.grade == Graded(Some(zero.score), zero.hintLevel)
    requires pass.grade == Graded(Some(right.score), right.hintLevel)
    ensures Scored([lapse, lapse, lapse, lapse, lapse, pass]) == [zero, zero, zero, zero, zero, right]
  {
    ScoredFirst(pass, [], right);
    ScoredFirst(lapse, [pass], zero);
    ScoredFirst(lapse, [lapse, pass], zero);
    ScoredFirst(lapse, [lapse, lapse, pass], zero);
    ScoredFirst(lapse, [lapse, lapse, lapse, pass], zero);
    ScoredFirst(lapse, [lapse, lapse, lapse, lapse, pass], zero);
    assert [pass] == [pass] + [] && [lapse, pass] == [lapse] + [pass];
    assert [lapse, lapse, pass] == [lapse] + [lapse, pass];
    assert [lapse, lapse, lapse, pass] == [lapse] + [lapse, lapse, pass];
    assert [lapse, lapse, lapse, lapse, pass] == [lapse] + [lapse, lapse, lapse, pass];
    assert [lapse, lapse, lapse, lapse, lapse, pass] == [lapse] + [lapse, lapse, lapse, lapse, pass];
  }

  lemma {:induction false} ScoredFirst(row: Row, rest: seq<Row>, o: Mastery.Observation)
    requires row.grade == Graded(Some(o.score), o.hintLevel)
    ensures Scored([row] + rest) == [o] + Scored(rest)
  {
    ScoredHead([row] + rest);
    assert ([row] + rest)[1..] == rest;
  }

  lemma {:induction false} LapseQuarters(s: real, difficulty: real, bound: real)
    requires 0.0 <= s <= bound && 1.0 <= bound
    ensures Scheduling.NextStability(s, Mastery.Observation(0.0, 0), difficulty) <= Scheduling.Stored(0.25 * bound)
    ensures Scheduling.ValidInterval(Scheduling.NextStability(s, Mastery.Observation(0.0, 0), difficulty))
  {
    assert Scheduling.Factor(Mastery.Observation(0.0, 0), difficulty) == 0.25;
    Scheduling.StoredMonotone(0.25 * Scheduling.StartingPoint(s), 0.25 * bound);
    Scheduling.StoredIsValid(0.25 * Scheduling.StartingPoint(s));
  }

  lemma {:induction false} LapsesReachTheFloor(s: real, difficulty: real)
    requires s == 0.0 || Scheduling.ValidInterval(s)
    ensures var zero := Mastery.Observation(0.0, 0);
      Scheduling.FoldStability(s, difficulty, [zero, zero, zero, zero, zero]) == 0.25
  {
    var zero := Mastery.Observation(0.0, 0);
    assert Scheduling.Stored(45.0) == 45.0;
    assert Scheduling.Stored(11.25) == 11.25;
    assert Scheduling.Stored(2.8125) == 2.8125;
    assert Scheduling.Stored(0.703125) == 0.7031;
    assert Scheduling.Stored(0.25) == 0.25;
    var s1 := Scheduling.NextStability(s, zero, difficulty);
    LapseQuarters(s, difficulty, 180.0);
    var s2 := Scheduling.NextStability(s1, zero, difficulty);
    LapseQuarters(s1, difficulty, 45.0);
    var s3 := Scheduling.NextStability(s2, zero, difficulty);
    LapseQuarters(s2, difficulty, 11.25);
    var s4 := Scheduling.NextStability(s3, zero, difficulty);
    LapseQuarters(s3, difficulty, 2.8125);
    var s5 := Scheduling.NextStability(s4, zero, difficulty);
    LapseQuarters(s4, difficulty, 1.0);
    var five := [zero, zero, zero, zero, zero];
    assert five[1..] == [zero, zero, zero, zero] && five[1..][1..] == [zero, zero, zero];
    assert five[1..][1..][1..] == [zero, zero] && [zero, zero][1..] == [zero] && [zero][1..] == [];
    assert Scheduling.FoldStability(s4, difficulty, [zero]) == s5;
    assert Scheduling.FoldStability(s3, difficulty, [zero, zero]) == s5;
    assert Scheduling.FoldStability(s2, difficulty, [zero, zero, zero]) == s5;
    assert Scheduling.FoldStability(s1, difficulty, [zero, zero, zero, zero]) == s5;
  }

  lemma {:induction false} PassTells(difficulty: real, score: real)
    requires difficulty != DEFAULT_DIFFICULTY
    requires score == if difficulty < DEFAULT_DIFFICULTY then 2500.5 / 2875.0 else 2501.5 / 2875.0
    ensures var o := Mastery.Observation(score, 0);
      Scheduling.NextStability(0.25, o, difficulty) != Scheduling.NextStability(0.25, o, DEFAULT_DIFFICULTY)
  {
    var o := Mastery.Observation(score, 0);
    var ease := Scheduling.Ease(difficulty);
    assert Scheduling.Ease(DEFAULT_DIFFICULTY) == 2.15;
    assert if difficulty < DEFAULT_DIFFICULTY then ease > 2.15 else ease < 2.15;
    assert Scheduling.Factor(o, difficulty) == 1.0 + (ease - 1.0) * score * 1.0;
    assert Scheduling.Factor(o, DEFAULT_DIFFICULTY) == 1.0 + 1.15 * score * 1.0;
    GrownFromFloor(ease, score);
    GrownFromFloor(2.15, score);
    if difficulty < DEFAULT_DIFFICULTY {
      TieBreaksUp(ease, score);
    } else {
      TieBreaksDown(ease, score);
    }
  }

  lemma {:induction false} GrownFromFloor(ease: real, score: real)
    requires 1.3 <= ease <= 3.0 && 0.6 <= score <= 1.0
    ensures Scheduling.Grown(0.25, 1.0 + (ease - 1.0) * score * 1.0)
         == NearestEven(2500.0 + 2500.0 * ((ease - 1.0) * score)) as real / 10000.0
  {
    var growth := (ease - 1.0) * score;
    ProductMonotone(0.3, ease - 1.0, 0.6, score);
    ProductMonotone(ease - 1.0, 2.0, score, 1.0);
    StoredGrowth(growth);
    assert (ease - 1.0) * score * 1.0 == growth;
  }

  lemma {:induction false} StoredGrowth(growth: real)
    requires 0.18 <= growth <= 2.0
    ensures Scheduling.Grown(0.25, 1.0 + growth) == NearestEven(2500.0 + 2500.0 * growth) as real / 10000.0
  {
    var grown := 0.25 * (1.0 + growth);
    assert grown == 0.25 + 0.25 * growth;
    assert grown * 10000.0 == 2500.0 + 2500.0 * growth;
  }

  lemma {:induction false} TieBreaksUp(ease: real, score: real)
    requires ease > 2.15 && score == 2500.5 / 2875.0
    ensures NearestEven(2500.0 + 2500.0 * ((ease - 1.0) * score)) != NearestEven(2500.0 + 2500.0 * ((2.15 - 1.0) * score))
  {
    assert 2500.0 * ((2.15 - 1.0) * score) == 2500.5;
    assert (ease - 1.0) * score == (2.15 - 1.0) * score + (ease - 2.15) * score;
    MulPositive(ease - 2.15, score);
  }

  lemma {:induction false} TieBreaksDown(ease: real, score: real)
    requires ease < 2.15 && score == 2501.5 / 2875.0
    ensures NearestEven(2500.0 + 2500.0 * ((ease - 1.0) * score)) != NearestEven(2500.0 + 2500.0 * ((2.15 - 1.0) * score))
  {
    assert 2500.0 * ((2.15 - 1.0) * score) == 2501.5;
    assert (ease - 1.0) * score == (2.15 - 1.0) * score - (2.15 - ease) * score;
    MulPositive(2.15 - ease, score);
  }

  lemma {:induction false} MulPositive(x: real, y: real)
    requires x > 0.0 && y > 0.0
    ensures x * y > 0.0
  {
  }
}
