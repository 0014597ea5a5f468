/** What the mastery and the review interval of a point are worth after any run: which overrides leave
    them a function of the ledger, and which keep them readable. */
module EvidenceRuns {
  import opened Wrappers
  import opened Rounding
  import opened EvidenceLedger
  import opened EvidenceProjection
  import opened EvidenceFolds
  import Scheduling

  /** Four things a profile row can be: with the interval of its own record, with the mastery of its
      own record, with a mastery that is read back, or with one that is read as a share. */
  datatype Virtue = OwnInterval | OwnMastery | Readable | InRange

  ghost predicate Has(v: Virtue, ledger: seq<Row>, p: string, row: ProfileRow) {
    Accounts(ledger, p, row) &&
    var rows := RowsIn(ledger, p, 0, row.lastSeq);
    match v
    case OwnInterval =>
      DifficultyOf(Some(row)) == DEFAULT_DIFFICULTY && row.stability == Scheduling.FoldStability(0.0, DEFAULT_DIFFICULTY, Scored(rows))
    case OwnMastery =>
      !row.frozen && Share(row.mastery) && (Settles(rows) ==> row.mastery == FoldMastery(DEFAULT_MASTERY, 0, rows))
    case Readable => Round4(row.mastery) >= 0.0001
    case InRange => IsShare(MasteryBefore(Some(row)))
  }

  /** The overrides that a virtue survives: those that leave the difficulty at its default, those that
      leave the mastery and the flag alone, those that set no mastery of zero or less, and those that set
      one in 0..1. */
  predicate Permits(v: Virtue, a: Action) {
    a.Override? ==>
      match v
      case OwnInterval => a.difficulty.Some? ==> Round4(a.difficulty.value) == 0.0 || Round4(a.difficulty.value) == DEFAULT_DIFFICULTY
      case OwnMastery => !a.enabled && a.mastery.None?
      case Readable => a.mastery.Some? ==> Round4(a.mastery.value) >= 0.0001
      case InRange => a.mastery.Some? ==> IsShare(Round4(a.mastery.value))
  }

  ghost predicate AllHave(v: Virtue, ledger: seq<Row>, profile: Profile) {
    forall p :: p in profile ==> Has(v, ledger, p, profile[p])
  }

  ghost predicate Virtuous(v: Virtue, s: State) {
    Inv(s) && AllHave(v, s.store.ledger, s.store.profile)
    && (s.phase.HasProfile? ==> AllHave(v, s.store.ledger, s.phase.read))
  }

  // ----- Writing a row -----

  lemma {:induction false} WriteKeepsInterval(ledger: seq<Row>, p: string, stored: Option<ProfileRow>, current: Option<ProfileRow>,
                                              top: nat, row: ProfileRow)
    requires Watermark(current) < top <= |ledger| && Writes(ledger, p, stored, current, top, row)
    requires current.Some? ==> Has(OwnInterval, ledger, p, current.value)
    requires stored.Some? ==> Has(OwnInterval, ledger, p, stored.value)
    ensures Has(OwnInterval, ledger, p, row)
  {
    var w := Watermark(current);
    var seen, unseen := RowsIn(ledger, p, 0, w), RowsIn(ledger, p, w, top);
    UpdateKeepsAccount(ledger, p, stored, current, top, row);
    if current.Some? {
      IntervalIsReadBack(current.value.stability);
    }
    assert Round4(DEFAULT_DIFFICULTY) == DEFAULT_DIFFICULTY;
    assert DifficultyOf(current) == DEFAULT_DIFFICULTY;
    assert StabilityBefore(current) == Scheduling.FoldStability(0.0, DEFAULT_DIFFICULTY, Scored(seen));
    ScoredConcat(seen, unseen);
    Scheduling.FoldSplits(0.0, DEFAULT_DIFFICULTY, Scored(seen), Scored(unseen));
  }

  lemma {:induction false} WriteKeepsMastery(ledger: seq<Row>, p: string, stored: Option<ProfileRow>, current: Option<ProfileRow>,
                                             top: nat, row: ProfileRow)
    requires Watermark(current) < top <= |ledger| && Writes(ledger, p, stored, current, top, row)
    requires current.Some? ==> Has(OwnMastery, ledger, p, current.value)
    requires stored.Some? ==> Has(OwnMastery, ledger, p, stored.value)
    ensures Has(OwnMastery, ledger, p, row)
  {
    var w := Watermark(current);
    var seen, unseen := RowsIn(ledger, p, 0, w), RowsIn(ledger, p, w, top);
    UpdateKeepsAccount(ledger, p, stored, current, top, row);
    CountedRows(ledger, p, current);
    OwnMasteryBefore(current);
    FoldStaysShare(MasteryBefore(current), CountBefore(current), unseen);
    WrittenAsFolded(current, unseen);
    assert row.mastery == Updated(current, unseen).mastery;
    if Settles(seen + unseen) {
      SettlesEarly(seen, unseen);
      FoldMasterySplits(DEFAULT_MASTERY, 0, seen, unseen);
      SettledCut(MasteryBefore(current), seen, unseen);
    }
  }

  lemma {:induction false} CountedRows(ledger: seq<Row>, p: string, current: Option<ProfileRow>)
    requires Watermark(current) <= |ledger| && (current.Some? ==> Accounts(ledger, p, current.value))
    ensures CountBefore(current) == |RowsIn(ledger, p, 0, Watermark(current))|
    ensures current.Some? ==> current.value.count > 0
  {
    if current.Some? {
      RowsInEmpty(ledger, p, 0, current.value.lastSeq);
    }
  }

  lemma {:induction false} OwnMasteryBefore(current: Option<ProfileRow>)
    requires current.Some? ==> Share(current.value.mastery) && current.value.count > 0
    ensures MasteryBefore(current) == (if current.Some? then current.value.mastery else DEFAULT_MASTERY)
    ensures Share(MasteryBefore(current)) && (CountBefore(current) == 0 ==> MasteryBefore(current) >= DEFAULT_MASTERY)
  {
    if current.Some? {
      Round4Properties(current.value.mastery, 0.0);
    } else {
      assert DEFAULT_MASTERY == Round4(DEFAULT_MASTERY);
      Round4Properties(DEFAULT_MASTERY, 0.0);
    }
  }

  lemma {:induction false} WriteKeepsReadable(ledger: seq<Row>, p: string, stored: Option<ProfileRow>, current: Option<ProfileRow>,
                                              top: nat, row: ProfileRow)
    requires Watermark(current) < top <= |ledger| && Writes(ledger, p, stored, current, top, row)
    requires current.Some? ==> Has(Readable, ledger, p, current.value)
    requires stored.Some? ==> Has(Readable, ledger, p, stored.value)
    ensures Has(Readable, ledger, p, row)
  {
    var unseen := RowsIn(ledger, p, Watermark(current), top);
    UpdateKeepsAccount(ledger, p, stored, current, top, row);
    CountedRows(ledger, p, current);
    FoldStaysShare(MasteryBefore(current), CountBefore(current), unseen);
    var m := FoldMastery(MasteryBefore(current), CountBefore(current), unseen);
    Round4Properties(0.0001, m);
    Round4Properties(0.0001, Round4(m));
    Round4Properties(0.0001, 0.0);
  }

  lemma {:induction false} WriteKeepsInRange(ledger: seq<Row>, p: string, stored: Option<ProfileRow>, current: Option<ProfileRow>,
                                             top: nat, row: ProfileRow)
    requires Watermark(current) < top <= |ledger| && Writes(ledger, p, stored, current, top, row)
    requires current.Some? ==> Has(InRange, ledger, p, current.value)
    requires stored.Some? ==> Has(InRange, ledger, p, stored.value)
    ensures Has(InRange, ledger, p, row)
  {
    var unseen := RowsIn(ledger, p, Watermark(current), top);
    UpdateKeepsAccount(ledger, p, stored, current, top, row);
    FoldIsShareIff(MasteryBefore(current), CountBefore(current), unseen);
    var m := FoldMastery(MasteryBefore(current), CountBefore(current), unseen);
    Round4StaysWithin(0.0, 1.0, m);
    Round4StaysWithin(0.0, 1.0, Round4(m));
  }

  lemma {:induction false} WriteKeepsVirtue(v: Virtue, ledger: seq<Row>, p: string, stored: Option<ProfileRow>,
                                            current: Option<ProfileRow>, top: nat, row: ProfileRow)
    requires Watermark(current) < top <= |ledger| && Writes(ledger, p, stored, current, top, row)
    requires current.Some? ==> Has(v, ledger, p, current.value)
    requires stored.Some? ==> Has(v, ledger, p, stored.value)
    ensures Has(v, ledger, p, row)
  {
    match v
    case OwnInterval => WriteKeepsInterval(ledger, p, stored, current, top, row);
    case OwnMastery => WriteKeepsMastery(ledger, p, stored, current, top, row);
    case Readable => WriteKeepsReadable(ledger, p, stored, current, top, row);
    case InRange => WriteKeepsInRange(ledger, p, stored, current, top, row);
  }

  // ----- Every step -----

  lemma {:induction false} GrowingKeepsVirtue(v: Virtue, ledger: seq<Row>, grown: seq<Row>, profile: Profile)
    requires ledger <= grown && AllHave(v, ledger, profile)
    ensures AllHave(v, grown, profile)
  {
    forall p | p in profile ensures Has(v, grown, p, profile[p]) {
      assert Has(v, ledger, p, profile[p]);
      RowsInPrefix(ledger, grown, p, profile[p].lastSeq);
    }
  }

  lemma {:induction false} FoldKeepsVirtue(v: Virtue, s: State)
    requires Virtuous(v, s) && s.phase.HasProfile?
    ensures AllHave(v, s.store.ledger, Folded(s.store.profile, s.phase.read, s.phase.pending))
  {
    var d, read, pending := s.store, s.phase.read, s.phase.pending;
    var low, top := d.cursor, d.cursor + |pending|;
    assert pending == d.ledger[low..top];
    var after := Folded(d.profile, read, pending);
    forall p | p in after ensures Has(v, d.ledger, p, after[p]) {
      FoldOfPoint(d.ledger, d.profile, read, p, low, top);
      var w := Watermark(Lookup(read, p));
      if w < top && RowsIn(d.ledger, p, w, top) != [] {
        WriteKeepsVirtue(v, d.ledger, p, Lookup(d.profile, p), Lookup(read, p), top, after[p]);
      }
    }
  }

  lemma {:induction false} OverrideKeepsVirtue(v: Virtue, ledger: seq<Row>, p: string, row: ProfileRow, a: Action)
    requires a.Override? && Permits(v, a) && Has(v, ledger, p, row)
    ensures Has(v, ledger, p, Overridden(row, a.enabled, a.mastery, a.difficulty))
  {
  }

  lemma {:induction false} StepKeepsVirtue(v: Virtue, s: State, a: Action)
    requires Virtuous(v, s) && Permits(v, a)
    ensures Virtuous(v, Next(s, a))
  {
    StepKeepsInv(s, a);
    match a
    case Append(records) =>
      AppendKeepsNumbering(s.store.ledger, records);
      GrowingKeepsVirtue(v, s.store.ledger, Next(s, a).store.ledger, s.store.profile);
      if s.phase.HasProfile? {
        GrowingKeepsVirtue(v, s.store.ledger, Next(s, a).store.ledger, s.phase.read);
      }
    case WriteProfile =>
      if s.phase.HasProfile? {
        FoldKeepsVirtue(v, s);
      }
    case Override(point, _, _, _) =>
      if point in s.store.profile {
        OverrideKeepsVirtue(v, s.store.ledger, point, s.store.profile[point], a);
      }
    case _ =>
  }

  predicate AllPermitted(v: Virtue, actions: seq<Action>) {
    forall i :: 0 <= i < |actions| ==> Permits(v, actions[i])
  }

  lemma {:induction false} RunKeepsVirtue(v: Virtue, actions: seq<Action>)
    requires AllPermitted(v, actions)
    ensures Virtuous(v, Run(START, actions))
  {
    if actions != [] {
      var init := actions[..|actions| - 1];
      RunKeepsVirtue(v, init);
      StepKeepsVirtue(v, Run(START, init), actions[|actions| - 1]);
    }
  }

  // ----- What runs agree on -----

  /** Two caught-up runs over one ledger agree on every review interval, however their appends,
      batches, crashes and overrides interleaved, as long as no override moves a difficulty off its
      default; DifficultyIsHarmlessIff shows what any other difficulty does. */
  lemma {:induction false} CaughtUpIntervalsAgree(a: seq<Action>, b: seq<Action>, p: string)
    requires AllPermitted(OwnInterval, a) && AllPermitted(OwnInterval, b)
    requires var d, e := Run(START, a).store, Run(START, b).store;
      d.ledger == e.ledger && d.cursor == e.cursor == |d.ledger| && p in d.profile
    ensures var d, e := Run(START, a).store, Run(START, b).store;
      p in e.profile && d.profile[p].stability == e.profile[p].stability
  {
    CaughtUpRunsAgree(a, b);
    RunKeepsVirtue(OwnInterval, a);
    RunKeepsVirtue(OwnInterval, b);
    assert Has(OwnInterval, Run(START, a).store.ledger, p, Run(START, a).store.profile[p]);
    assert Has(OwnInterval, Run(START, b).store.ledger, p, Run(START, b).store.profile[p]);
  }

  /** They agree on the mastery of a point as well, wherever the batches were cut, when none of its rows
      that is not graded comes before one of its first six graded rows; overrides may touch the difficulty
      only. SplitBatchAgreesIff shows what a cut does to any other record. */
  lemma {:induction false} CaughtUpMasteriesAgree(a: seq<Action>, b: seq<Action>, p: string)
    requires AllPermitted(OwnMastery, a) && AllPermitted(OwnMastery, b)
    requires var d, e := Run(START, a).store, Run(START, b).store;
      && d.ledger == e.ledger && d.cursor == e.cursor == |d.ledger| && p in d.profile
      && Settles(RowsOf(d.ledger, p))
    ensures var d, e := Run(START, a).store, Run(START, b).store;
      p in e.profile && d.profile[p].mastery == e.profile[p].mastery
  {
    var d, e := Run(START, a).store, Run(START, b).store;
    CaughtUpRunsAgree(a, b);
    RunKeepsVirtue(OwnMastery, a);
    RunKeepsVirtue(OwnMastery, b);
    assert Has(OwnMastery, d.ledger, p, d.profile[p]);
    assert Has(OwnMastery, e.ledger, p, e.profile[p]);
    var w := d.profile[p].lastSeq;
    assert d.ledger[0..|d.ledger|] == d.ledger;
    RowsOfSlice(d.ledger, p, 0, |d.ledger|);
    RowsInSplits(d.ledger, p, 0, w, |d.ledger|);
    SettlesEarly(RowsIn(d.ledger, p, 0, w), RowsIn(d.ledger, p, w, |d.ledger|));
  }

  /** As long as no override sets a mastery of zero or less, every stored mastery of every run is read
      back as it was stored; EveryBatchIsReadBackIff shows what the other values do. */
  lemma {:induction false} MasteryStaysReadable(actions: seq<Action>, p: string)
    requires AllPermitted(Readable, actions) && p in Run(START, actions).store.profile
    ensures var row := Run(START, actions).store.profile[p]; Round4(row.mastery) >= 0.0001 && ReadBack(row)
  {
    RunKeepsVirtue(Readable, actions);
    assert Has(Readable, Run(START, actions).store.ledger, p, Run(START, actions).store.profile[p]);
  }
}
