/** How one correction by the learner stops the projection of everything: a change with a mastery
    outside 0..1 is refused, the cursor stays where it is, and the next fold meets the same rows. */
module EvidenceJams {
  import opened Wrappers
  import opened Rounding
  import opened EvidenceLedger
  import opened EvidenceProjection
  import opened EvidenceRuns
  import opened StateUpdater

  predicate IsScored(row: Row) {
    row.grade.Graded? && row.grade.score.Some?
  }

  /** No scored row of the point at ledger positions `low` to `top`. */
  ghost predicate Quiet(ledger: seq<Row>, p: string, low: nat, top: nat) {
    forall i :: low <= i < top && i < |ledger| && ledger[i].point == p ==> !IsScored(ledger[i])
  }

  predicate OutOfRange(profile: Profile, p: string) {
    p in profile && !IsShare(MasteryBefore(Some(profile[p])))
  }

  /** The first row that a point with a mastery outside 0..1 has not seen is at position `at`, past
      the cursor. */
  ghost predicate Blocks(d: Durable, p: string, at: nat) {
    && OutOfRange(d.profile, p) && d.cursor <= at
    && d.profile[p].lastSeq <= at < |d.ledger| && d.ledger[at].point == p
    && forall i :: d.profile[p].lastSeq <= i < at ==> d.ledger[i].point != p
  }

  /** Folds of at most `most` rows, and no correction that brings the point back into range. */
  predicate LeavesBlocked(a: Action, p: string, most: nat) {
    match a
    case ReadPending(limit) => limit <= most
    case Override(point, _, Some(m), _) => point == p ==> Round4(m) < 0.0 || Round4(m) > 1.0
    case _ => true
  }

  // ----- The batch that meets the row -----

  lemma {:induction false} QuietRows(ledger: seq<Row>, p: string, low: nat, top: nat)
    requires low <= top <= |ledger| && Quiet(ledger, p, low, top)
    ensures Scored(RowsIn(ledger, p, low, top)) == []
    decreases top - low
  {
    if low < top {
      QuietRows(ledger, p, low, top - 1);
      ScoredConcat(RowsIn(ledger, p, low, top - 1), [ledger[top - 1]]);
    }
  }

  /** What a batch from the cursor holds of a point whose rows below the cursor are all counted. */
  lemma {:induction false} UnseenInBatch(d: Durable, read: Profile, p: string, top: nat)
    requires Valid(d) && SameAccounts(read, d.profile) && p in d.profile && d.cursor <= top <= |d.ledger|
    ensures var w := d.profile[p].lastSeq;
      Unseen(read, d.ledger[d.cursor..top], p) == if w >= top then [] else RowsIn(d.ledger, p, w, top)
  {
    RowsOfSlice(d.ledger, p, d.cursor, top);
    assert SameAccount(read[p], d.profile[p]);
    UnseenIsTail(d.ledger, p, d.profile[p].lastSeq, d.cursor, top);
  }

  /** A batch that reaches the blocking row is refused. */
  lemma {:induction false} BatchIsRefused(d: Durable, read: Profile, p: string, at: nat, top: nat)
    requires Valid(d) && SameAccounts(read, d.profile) && Blocks(d, p, at) && OutOfRange(read, p)
    requires at < top <= |d.ledger| && Quiet(d.ledger, p, d.profile[p].lastSeq, top)
    ensures !AllAccepted(read, d.ledger[d.cursor..top])
  {
    var pending, w := d.ledger[d.cursor..top], d.profile[p].lastSeq;
    UnseenInBatch(d, read, p, top);
    RowsInEmpty(d.ledger, p, w, top);
    QuietRows(d.ledger, p, w, top);
    AcceptedIff(Lookup(read, p), Unseen(read, pending, p));
    assert p in Points(pending) by {
      assert pending[at - d.cursor] == d.ledger[at];
      assert Accounts(d.ledger, p, d.profile[p]);
    }
  }

  /** A batch that ends before it leaves the point alone and counts nothing at or past it. */
  lemma {:induction false} EarlierBatch(d: Durable, read: Profile, p: string, at: nat, top: nat)
    requires Valid(d) && Accounted(d.ledger, read) && SameAccounts(read, d.profile) && Blocks(d, p, at)
    requires d.cursor <= top <= at
    ensures var after := Folded(d.profile, read, d.ledger[d.cursor..top]);
      && p in after && after[p] == d.profile[p]
      && forall q :: q in after ==> after[q].lastSeq <= at || (q in d.profile && after[q].lastSeq == d.profile[q].lastSeq)
  {
    var after := Folded(d.profile, read, d.ledger[d.cursor..top]);
    UnseenInBatch(d, read, p, top);
    var w := d.profile[p].lastSeq;
    if w < top {
      RowsInEmpty(d.ledger, p, w, top);
    }
    forall q | q in after
      ensures after[q].lastSeq <= at || (q in d.profile && after[q].lastSeq == d.profile[q].lastSeq)
    {
      FoldOfPoint(d.ledger, d.profile, read, q, d.cursor, top);
      var seen := Watermark(Lookup(read, q));
      if seen < top && RowsIn(d.ledger, q, seen, top) != [] {
        MaxSeqIsLastRow(d.ledger, q, seen, top);
      }
    }
  }

  // ----- Every run -----

  /** Counted no further than `at`, unless that was so before. */
  ghost predicate NothingPast(profile: Profile, before: Profile, at: nat) {
    forall q :: q in profile ==> profile[q].lastSeq <= at || (q in before && profile[q].lastSeq == before[q].lastSeq)
  }

  ghost predicate Jammed(s: State, p: string, at: nat, most: nat, before: Profile) {
    && Inv(s) && Blocks(s.store, p, at) && NothingPast(s.store.profile, before, at)
    && p in before && before[p].lastSeq == s.store.profile[p].lastSeq
    && match s.phase
       case HasPending(pending) => |pending| <= most
       case HasProfile(pending, read) => |pending| <= most && OutOfRange(read, p)
       case Written(top) => top <= at
       case _ => true
  }

  lemma {:induction false} WriteStaysJammed(s: State, p: string, at: nat, most: nat, before: Profile)
    requires Jammed(s, p, at, most, before) && s.phase.HasProfile?
    requires Quiet(s.store.ledger, p, before[p].lastSeq, at + most)
    ensures Jammed(Next(s, WriteProfile), p, at, most, before)
  {
    var d, pending, read := s.store, s.phase.pending, s.phase.read;
    var top := d.cursor + |pending|;
    assert pending == d.ledger[d.cursor..top];
    WriteKeepsInv(s);
    MaxSeqOfSlice(d.ledger, d.cursor, top);
    WriteOutcome(s, Folded(d.profile, read, pending), top);
    if at < top {
      BatchIsRefused(d, read, p, at, top);
      SameStoreStaysJammed(s, Idle, p, at, most, before);
    } else {
      EarlierBatch(d, read, p, at, top);
      if AllAccepted(read, pending) {
        WrittenIsJammed(s, Folded(d.profile, read, pending), top, p, at, most, before);
      } else {
        SameStoreStaysJammed(s, Idle, p, at, most, before);
      }
    }
  }

  lemma {:induction false} SameStoreStaysJammed(s: State, phase: Phase, p: string, at: nat, most: nat, before: Profile)
    requires Jammed(s, p, at, most, before) && Inv(State(s.store, phase))
    requires match phase
      case HasPending(pending) => |pending| <= most
      case HasProfile(pending, read) => |pending| <= most && OutOfRange(read, p)
      case Written(top) => top <= at
      case _ => true
    ensures Jammed(State(s.store, phase), p, at, most, before)
  {
  }

  lemma {:induction false} WrittenIsJammed(s: State, after: Profile, top: nat, p: string, at: nat, most: nat, before: Profile)
    requires Jammed(s, p, at, most, before) && top <= at
    requires p in after && after[p] == s.store.profile[p] && NothingPast(after, s.store.profile, at)
    requires Inv(State(s.store.(profile := after), Written(top)))
    ensures Jammed(State(s.store.(profile := after), Written(top)), p, at, most, before)
  {
  }

  lemma {:induction false} OverrideStaysJammed(s: State, a: Action, p: string, at: nat, most: nat, before: Profile)
    requires Jammed(s, p, at, most, before) && LeavesBlocked(a, p, most) && a.Override? && Inv(Next(s, a))
    ensures Jammed(Next(s, a), p, at, most, before)
  {
    if a.point in s.store.profile {
      var row := Overridden(s.store.profile[a.point], a.enabled, a.mastery, a.difficulty);
      OverrideStaysOutOfRange(s.store.profile, a, row, p, most);
      OverriddenIsJammed(s, s.store.profile[a.point := row], p, at, most, before);
    }
  }

  lemma {:induction false} OverrideStaysOutOfRange(profile: Profile, a: Action, row: ProfileRow, p: string, most: nat)
    requires a.Override? && a.point in profile && OutOfRange(profile, p) && LeavesBlocked(a, p, most)
    requires row == Overridden(profile[a.point], a.enabled, a.mastery, a.difficulty)
    ensures OutOfRange(profile[a.point := row], p)
  {
  }

  lemma {:induction false} OverriddenIsJammed(s: State, after: Profile, p: string, at: nat, most: nat, before: Profile)
    requires Jammed(s, p, at, most, before) && Inv(s.(store := s.store.(profile := after)))
    requires OutOfRange(after, p) && after.Keys == s.store.profile.Keys
    requires forall q :: q in after ==> after[q].lastSeq == s.store.profile[q].lastSeq
    ensures Jammed(s.(store := s.store.(profile := after)), p, at, most, before)
  {
  }

  lemma {:induction false} GrownIsJammed(s: State, grown: seq<Row>, p: string, at: nat, most: nat, before: Profile)
    requires Jammed(s, p, at, most, before) && Inv(s.(store := s.store.(ledger := grown))) && s.store.ledger <= grown
    ensures Jammed(s.(store := s.store.(ledger := grown)), p, at, most, before)
  {
  }

  lemma {:induction false} ReadStaysJammed(s: State, a: Action, p: string, at: nat, most: nat, before: Profile)
    requires Jammed(s, p, at, most, before) && LeavesBlocked(a, p, most) && Inv(Next(s, a))
    requires a.ReadCursor? || a.ReadPending? || a.ReadProfile? || a.Crash?
    ensures Jammed(Next(s, a), p, at, most, before)
  {
    SameStoreStaysJammed(s, Next(s, a).phase, p, at, most, before);
  }

  lemma {:induction false} StepStaysJammed(s: State, a: Action, p: string, at: nat, most: nat, before: Profile)
    requires Jammed(s, p, at, most, before) && LeavesBlocked(a, p, most)
    requires Quiet(s.store.ledger, p, before[p].lastSeq, at + most)
    ensures Jammed(Next(s, a), p, at, most, before)
  {
    StepKeepsInv(s, a);
    match a
    case Append(records) =>
      AppendKeepsNumbering(s.store.ledger, records);
      GrownIsJammed(s, AppendedAll(s.store.ledger, records), p, at, most, before);
    case WriteProfile =>
      if s.phase.HasProfile? {
        WriteStaysJammed(s, p, at, most, before);
      }
    case Override(_, _, _, _) => OverrideStaysJammed(s, a, p, at, most, before);
    case AdvanceCursor =>
    case _ => ReadStaysJammed(s, a, p, at, most, before);
  }

  lemma {:induction false} RunFromKeepsInv(s: State, actions: seq<Action>)
    requires Inv(s)
    ensures Inv(Run(s, actions))
  {
    if actions != [] {
      RunFromKeepsInv(s, actions[..|actions| - 1]);
      StepKeepsInv(Run(s, actions[..|actions| - 1]), actions[|actions| - 1]);
    }
  }

  lemma {:induction false} RunStaysJammed(s: State, actions: seq<Action>, p: string, at: nat, most: nat)
    requires Inv(s) && s.phase.Idle? && Blocks(s.store, p, at)
    requires forall i :: 0 <= i < |actions| ==> LeavesBlocked(actions[i], p, most)
    requires Quiet(Run(s, actions).store.ledger, p, s.store.profile[p].lastSeq, at + most)
    ensures Jammed(Run(s, actions), p, at, most, s.store.profile)
  {
    if actions != [] {
      var init, last := actions[..|actions| - 1], actions[|actions| - 1];
      RunFromKeepsInv(s, init);
      StepIsMonotone(Run(s, init), last);
      var was, now := Run(s, init).store.ledger, Run(s, actions).store.ledger;
      assert forall i :: 0 <= i < |was| ==> was[i] == now[i];
      RunStaysJammed(s, init, p, at, most);
      StepStaysJammed(Run(s, init), last, p, at, most, s.store.profile);
    }
  }

  /** Once a point has a mastery outside 0..1 and an unseen row, no run of folds of at most `most` rows
      gets past that row, counts a row at or past it for any point, or changes the point's count, as
      long as no scored row of the point arrives within reach and no correction helps. */
  lemma {:induction false} NothingPassesTheRow(s: State, actions: seq<Action>, p: string, at: nat, most: nat)
    requires Inv(s) && s.phase.Idle? && Blocks(s.store, p, at)
    requires forall i :: 0 <= i < |actions| ==> LeavesBlocked(actions[i], p, most)
    requires Quiet(Run(s, actions).store.ledger, p, s.store.profile[p].lastSeq, at + most)
    ensures var before, d := s.store.profile, Run(s, actions).store;
      && d.cursor <= at && NothingPast(d.profile, before, at) && OutOfRange(d.profile, p)
      && d.profile[p].count == before[p].count && d.profile[p].lastSeq == before[p].lastSeq
  {
    RunFromKeepsInv(s, actions);
    RunStaysJammed(s, actions, p, at, most);
    var before, d := s.store.profile, Run(s, actions).store;
    assert Accounts(s.store.ledger, p, before[p]) && Accounts(d.ledger, p, d.profile[p]);
    RunExtends(s, actions);
    RowsInPrefix(s.store.ledger, d.ledger, p, before[p].lastSeq);
  }

  lemma {:induction false} RunExtends(s: State, actions: seq<Action>)
    requires Inv(s)
    ensures s.store.ledger <= Run(s, actions).store.ledger
  {
    if actions != [] {
      RunFromKeepsInv(s, actions[..|actions| - 1]);
      RunExtends(s, actions[..|actions| - 1]);
      StepIsMonotone(Run(s, actions[..|actions| - 1]), actions[|actions| - 1]);
    }
  }

  // ----- One such day -----

  const HELLO := Record("e1", "p", Ungraded)
  const AGAIN := Record("e2", "p", Ungraded)

  /** A row is folded, the learner sets the mastery, another row arrives; neither row is graded. */
  function Day(mastery: real): seq<Action> {
    [Append([HELLO])] + FOLD_CALLS(500) + [Override("p", true, Some(mastery), None), Append([AGAIN])]
  }

  const FIRST := Row("e1", 1, "p", Ungraded)
  const SECOND := Row("e2", 2, "p", Ungraded)

  function Evening(mastery: real): Durable {
    Durable([FIRST, SECOND], map["p" := ProfileRow(mastery, 0.0, DEFAULT_DIFFICULTY, 1, 1, true)], 1)
  }

  lemma {:induction false} RunSplits(s: State, a: seq<Action>, b: seq<Action>)
    ensures Run(s, a + b) == Run(Run(s, a), b)
  {
    if b == [] {
      assert a + b == a;
    } else {
      assert (a + b)[..|a + b| - 1] == a + b[..|b| - 1];
      RunSplits(s, a, b[..|b| - 1]);
    }
  }

  lemma {:induction false} RunOfOne(s: State, a: Action)
    ensures Run(s, [a]) == Next(s, a)
  {
    assert [a][..0] == [];
  }

  /** An unscored row of a new point makes a row with the default mastery. */
  lemma {:induction false} FirstFold()
    ensures FoldedStore(Durable([FIRST], map[], 0), 500)
         == Durable([FIRST], map["p" := ProfileRow(DEFAULT_MASTERY, 0.0, DEFAULT_DIFFICULTY, 1, 1, false)], 1)
  {
    var rows := [FIRST];
    assert rows[..0] == [] && rows[1..] == [];
    assert After([], 0) == [] && RowsOf([], "p") == [] && Scored([]) == [] && MaxSeq([]) == 0;
    assert After(rows, 0) == rows && RowsOf(rows, "p") == rows && Scored(rows) == [] && MaxSeq(rows) == 1;
    assert Pending(rows, 0, 500) == rows;
    assert Points(rows) == {"p"};
    assert Unseen(map[], rows, "p") == rows;
    FoldIsShareIff(DEFAULT_MASTERY, 0, rows);
    assert Round4(DEFAULT_MASTERY) == DEFAULT_MASTERY;
    assert AllAccepted(map[], rows);
    assert Assigned(None, DeltaOf(None, rows)) == ProfileRow(DEFAULT_MASTERY, 0.0, DEFAULT_DIFFICULTY, 1, 1, false);
    assert Folded(map[], map[], rows) == map["p" := Assigned(None, DeltaOf(None, rows))];
  }

  lemma {:induction false} FirstRowArrives()
    ensures Run(START, [Append([HELLO])]) == State(Durable([FIRST], map[], 0), Idle)
  {
    RunOfOne(START, Append([HELLO]));
    assert [HELLO][..0] == [] && AppendedAll([], []) == [] && MaxSeq([]) == 0;
  }

  lemma {:induction false} SecondRowArrives(profile: Profile)
    ensures Run(State(Durable([FIRST], profile, 1), Idle), [Append([AGAIN])]) == State(Durable([FIRST, SECOND], profile, 1), Idle)
  {
    RunOfOne(State(Durable([FIRST], profile, 1), Idle), Append([AGAIN]));
    assert [AGAIN][..0] == [] && AppendedAll([FIRST], []) == [FIRST];
    assert [FIRST][..0] == [] && MaxSeq([]) == 0 && MaxSeq([FIRST]) == 1;
    assert [FIRST][0].id == "e1";
  }

  lemma {:induction false} DayEndsAt(mastery: real)
    ensures Run(START, Day(mastery)) == State(Evening(mastery), Idle)
  {
    var setting := Override("p", true, Some(mastery), None);
    var read := map["p" := ProfileRow(DEFAULT_MASTERY, 0.0, DEFAULT_DIFFICULTY, 1, 1, false)];
    var s2 := State(Durable([FIRST], read, 1), Idle);
    FirstRowArrives();
    FirstFold();
    FoldIsARun(Durable([FIRST], map[], 0), 500);
    RunSplits(START, [Append([HELLO])], FOLD_CALLS(500));
    RunOfOne(s2, setting);
    assert Next(s2, setting) == State(Durable([FIRST], Evening(mastery).profile, 1), Idle);
    SecondRowArrives(Evening(mastery).profile);
    RunSplits(s2, [setting], [Append([AGAIN])]);
    assert [setting, Append([AGAIN])] == [setting] + [Append([AGAIN])];
    RunSplits(START, [Append([HELLO])] + FOLD_CALLS(500), [setting, Append([AGAIN])]);
  }

  /** With a mastery of 1.5, or of -0.2, every fold of at least one row is refused from then on. */
  lemma {:induction false} CorrectionOutOfRange(mastery: real, limit: nat)
    requires mastery == 1.5 || mastery == -0.2
    ensures var d := Run(START, Day(mastery)).store;
      && d == Evening(mastery) && d.cursor < |d.ledger| && Blocks(d, "p", 1)
      && FoldedStore(d, limit) == d
  {
    DayEndsAt(mastery);
    RunKeepsInv(Day(mastery));
    var d := Evening(mastery);
    assert Round4(1.5) == 1.5 && Round4(-0.2) == -0.2;
    assert Blocks(d, "p", 1);
    var top := PendingEnd(d.ledger, 1, limit);
    PendingIsSlice(d.ledger, 1, limit);
    if limit > 0 {
      assert top == 2;
      BatchIsRefused(d, d.profile, "p", 1, 2);
    }
  }

  // ----- When folds always get through -----

  /** As long as every correction sets a mastery that rounds into 0..1, each fold of every run gets
      through its whole slice. */
  lemma {:induction false} CorrectionsInRangeNeverBlock(actions: seq<Action>, limit: nat)
    requires AllPermitted(InRange, actions)
    ensures var d := Run(START, actions).store;
      d.cursor <= |d.ledger| && FoldedStore(d, limit).cursor == PendingEnd(d.ledger, d.cursor, limit)
  {
    RunKeepsVirtue(InRange, actions);
    var d := Run(START, actions).store;
    forall p ensures IsShare(MasteryBefore(Lookup(d.profile, p))) {
      if p in d.profile {
        assert Has(InRange, d.ledger, p, d.profile[p]);
      }
    }
    FoldGetsThroughIff(d, limit);
  }
}
