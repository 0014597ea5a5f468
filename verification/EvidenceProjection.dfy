/** Exactly-once folding of evidence behind two watermarks.

    The learner cursor and the per-point `lastSeq` are advanced in different transactions, so a
    crash between them replays rows that the profile already holds. The invariant below shows
    that no interleaving of appends, folds of any batch size, crashes and learner overrides loses
    a row or counts one twice. */
module EvidenceProjection {
  import opened Wrappers
  import opened Rounding
  import opened EvidenceLedger
  import Mastery
  import Scheduling

  /** What survives a crash. */
  datatype Durable = Durable(ledger: seq<Row>, profile: Profile, cursor: nat)

  // ----- The invariant -----

  /** A profile row is the exact account of its point's rows up to its own watermark, whatever the
      learner overrode in it. */
  ghost predicate Accounts(ledger: seq<Row>, point: string, row: ProfileRow) {
    && 0 < row.lastSeq <= |ledger| && ledger[row.lastSeq - 1].point == point
    && row.count == |RowsIn(ledger, point, 0, row.lastSeq)|
    && (row.stability == 0.0 || Scheduling.ValidInterval(row.stability))
  }

  /** Every named row at or below `top` has been folded into its point. */
  ghost predicate Covered(ledger: seq<Row>, profile: Profile, top: nat) {
    forall i :: 0 <= i < top && i < |ledger| && ledger[i].point != "" ==>
      ledger[i].point in profile && i + 1 <= profile[ledger[i].point].lastSeq
  }

  ghost predicate Accounted(ledger: seq<Row>, profile: Profile) {
    "" !in profile && forall p :: p in profile ==> Accounts(ledger, p, profile[p])
  }

  ghost predicate Valid(d: Durable) {
    && WellNumbered(d.ledger)
    && d.cursor <= |d.ledger|
    && Accounted(d.ledger, d.profile)
    && Covered(d.ledger, d.profile, d.cursor)
  }

  /** Two readings of a profile that differ at most by overrides. */
  ghost predicate SameAccounts(read: Profile, profile: Profile) {
    read.Keys == profile.Keys && forall p :: p in read ==> SameAccount(read[p], profile[p])
  }

  predicate SameAccount(x: ProfileRow, y: ProfileRow) {
    x.count == y.count && x.lastSeq == y.lastSeq && x.stability == y.stability
  }

  // ----- Filtering a slice of the ledger -----

  /** The rows of one point at ledger positions `low` to `top`. */
  function RowsIn(ledger: seq<Row>, p: string, low: nat, top: nat): seq<Row>
    requires low <= top <= |ledger|
    decreases top - low
  {
    if low == top then []
    else
      var rest := RowsIn(ledger, p, low, top - 1);
      if ledger[top - 1].point == p then rest + [ledger[top - 1]] else rest
  }

  lemma {:induction false} RowsOfSlice(ledger: seq<Row>, p: string, low: nat, top: nat)
    requires low <= top <= |ledger|
    ensures RowsOf(ledger[low..top], p) == RowsIn(ledger, p, low, top)
    decreases top - low
  {
    if low < top {
      assert ledger[low..top][..top - 1 - low] == ledger[low..top - 1];
      RowsOfSlice(ledger, p, low, top - 1);
    }
  }

  lemma {:induction false} RowsInSplits(ledger: seq<Row>, p: string, low: nat, mid: nat, top: nat)
    requires low <= mid <= top <= |ledger|
    ensures RowsIn(ledger, p, low, top) == RowsIn(ledger, p, low, mid) + RowsIn(ledger, p, mid, top)
    decreases top - mid
  {
    if mid < top {
      RowsInSplits(ledger, p, low, mid, top - 1);
    }
  }

  lemma {:induction false} RowsInEmpty(ledger: seq<Row>, p: string, low: nat, top: nat)
    requires low <= top <= |ledger|
    ensures RowsIn(ledger, p, low, top) == [] <==> forall i :: low <= i < top ==> ledger[i].point != p
    decreases top - low
  {
    if low < top {
      RowsInEmpty(ledger, p, low, top - 1);
    }
  }

  lemma {:induction false} RowsInPrefix(ledger: seq<Row>, grown: seq<Row>, p: string, top: nat)
    requires ledger <= grown && top <= |ledger|
    ensures RowsIn(ledger, p, 0, top) == RowsIn(grown, p, 0, top)
    decreases top
  {
    if top > 0 {
      RowsInPrefix(ledger, grown, p, top - 1);
    }
  }

  lemma {:induction false} ScoredConcat(a: seq<Row>, b: seq<Row>)
    ensures Scored(a + b) == Scored(a) + Scored(b)
  {
    if b == [] {
      assert a + b == a;
    } else {
      assert (a + b)[..|a + b| - 1] == a + b[..|b| - 1];
      ScoredConcat(a, b[..|b| - 1]);
    }
  }

  lemma {:induction false} AfterSnoc(rows: seq<Row>, last: Row, w: nat)
    ensures After(rows + [last], w) == if last.seqNo > w then After(rows, w) + [last] else After(rows, w)
  {
    assert (rows + [last])[..|rows|] == rows;
  }

  lemma {:induction false} MaxSeqSnoc(rows: seq<Row>, last: Row)
    ensures MaxSeq(rows + [last]) == if last.seqNo > MaxSeq(rows) then last.seqNo else MaxSeq(rows)
  {
    assert (rows + [last])[..|rows|] == rows;
  }

  /** The rows a fold finds unseen for a point are exactly its rows past its watermark, even
      when the batch starts above or below that watermark. */
  lemma {:induction false} UnseenIsTail(ledger: seq<Row>, p: string, w: nat, low: nat, top: nat)
    requires Numbered(ledger) && low <= top <= |ledger|
    requires forall i :: 0 <= i < low && ledger[i].point == p ==> i + 1 <= w
    ensures After(RowsIn(ledger, p, low, top), w) == if w >= top then [] else RowsIn(ledger, p, w, top)
    decreases top - low
  {
    if low == top {
      if w < top {
        RowsInEmpty(ledger, p, w, top);
      }
    } else {
      UnseenIsTail(ledger, p, w, low, top - 1);
      AfterSnoc(RowsIn(ledger, p, low, top - 1), ledger[top - 1], w);
    }
  }

  /** The highest sequence number among a point's rows in a slice belongs to its last row there. */
  lemma {:induction false} MaxSeqIsLastRow(ledger: seq<Row>, p: string, low: nat, top: nat)
    requires Numbered(ledger) && low <= top <= |ledger|
    requires RowsIn(ledger, p, low, top) != []
    ensures var m := MaxSeq(RowsIn(ledger, p, low, top));
            low < m <= top && ledger[m - 1].point == p && forall i :: m <= i < top ==> ledger[i].point != p
    decreases top - low
  {
    var init := RowsIn(ledger, p, low, top - 1);
    MaxSeqSnoc(init, ledger[top - 1]);
    if init != [] {
      MaxSeqIsLastRow(ledger, p, low, top - 1);
    }
  }

  // ----- One fold -----

  lemma {:induction false} IntervalIsReadBack(s: real)
    requires s == 0.0 || Scheduling.ValidInterval(s)
    ensures Round4(s) == s
  {
    Round4Properties(s, 0.0);
  }

  lemma {:induction false} IntervalStaysValid(s: real, difficulty: real, rows: seq<Mastery.Observation>)
    requires s == 0.0 || Scheduling.ValidInterval(s)
    ensures var t := Scheduling.FoldStability(s, difficulty, rows); t == 0.0 || Scheduling.ValidInterval(t)
  {
    if rows != [] {
      Scheduling.FoldStaysInRange(s, difficulty, rows);
    }
  }

  lemma {:induction false} AccountedUpTo(ledger: seq<Row>, p: string, w: nat, top: nat)
    requires Numbered(ledger) && w <= top <= |ledger|
    requires RowsIn(ledger, p, w, top) != []
    ensures var m := MaxSeq(RowsIn(ledger, p, w, top));
      && w < m <= top && ledger[m - 1].point == p
      && (forall i :: m <= i < top ==> ledger[i].point != p)
      && RowsIn(ledger, p, 0, m) == RowsIn(ledger, p, 0, w) + RowsIn(ledger, p, w, top)
  {
    var m := MaxSeq(RowsIn(ledger, p, w, top));
    MaxSeqIsLastRow(ledger, p, w, top);
    RowsInSplits(ledger, p, 0, w, top);
    RowsInSplits(ledger, p, 0, m, top);
    RowsInEmpty(ledger, p, m, top);
  }

  /** The row that is written for a point with unseen rows below `top`. */
  ghost predicate Writes(ledger: seq<Row>, p: string, stored: Option<ProfileRow>, current: Option<ProfileRow>, top: nat,
                         row: ProfileRow)
    requires Watermark(current) < top <= |ledger|
  {
    && Numbered(ledger) && RowsIn(ledger, p, Watermark(current), top) != []
    && (current.Some? ==> Accounts(ledger, p, current.value))
    && stored.Some? == current.Some? && (stored.Some? ==> SameAccount(current.value, stored.value))
    && row == Assigned(stored, DeltaOf(current, RowsIn(ledger, p, Watermark(current), top)))
  }

  /** Writing the unseen rows of one point keeps its account exact, also when the learner changed
      the stored row since it was read. */
  lemma {:induction false} UpdateKeepsAccount(ledger: seq<Row>, p: string, stored: Option<ProfileRow>, current: Option<ProfileRow>, top: nat,
                           row: ProfileRow)
    requires Watermark(current) < top <= |ledger| && Writes(ledger, p, stored, current, top, row)
    ensures Accounts(ledger, p, row) && Watermark(current) < row.lastSeq
    ensures forall i :: row.lastSeq <= i < top ==> ledger[i].point != p
    ensures RowsIn(ledger, p, 0, row.lastSeq)
         == RowsIn(ledger, p, 0, Watermark(current)) + RowsIn(ledger, p, Watermark(current), top)
  {
    var w := Watermark(current);
    var unseen := RowsIn(ledger, p, w, top);
    AccountedUpTo(ledger, p, w, top);
    if current.Some? {
      IntervalIsReadBack(current.value.stability);
    }
    assert StabilityBefore(current) == 0.0 || Scheduling.ValidInterval(StabilityBefore(current));
    IntervalStaysValid(StabilityBefore(current), DifficultyOf(current), Scored(unseen));
    assert row.lastSeq == MaxSeq(unseen);
  }

  /** A fold leaves a point alone, with nothing unseen, or writes it. */
  lemma {:induction false} FoldOfPoint(ledger: seq<Row>, profile: Profile, read: Profile, p: string, low: nat, top: nat)
    requires Numbered(ledger) && low <= top <= |ledger|
    requires Accounted(ledger, read) && SameAccounts(read, profile) && Covered(ledger, profile, low)
    requires p in Folded(profile, read, ledger[low..top])
    ensures var row := Folded(profile, read, ledger[low..top])[p];
      && p != ""
      && (var w := Watermark(Lookup(read, p));
          if w < top && RowsIn(ledger, p, w, top) != [] then Writes(ledger, p, Lookup(profile, p), Lookup(read, p), top, row)
          else p in profile && row == profile[p] && forall i :: w <= i < top ==> ledger[i].point != p)
  {
    var w := Watermark(Lookup(read, p));
    RowsOfSlice(ledger, p, low, top);
    UnseenIsTail(ledger, p, w, low, top);
    if w < top {
      RowsInEmpty(ledger, p, w, top);
      if RowsIn(ledger, p, w, top) != [] {
        PointOfBatch(ledger, profile, p, w, low, top);
      }
    }
  }

  lemma {:induction false} PointOfBatch(ledger: seq<Row>, profile: Profile, p: string, w: nat, low: nat, top: nat)
    requires low <= top <= |ledger| && w < top && Covered(ledger, profile, low) && p != ""
    requires p in profile ==> profile[p].lastSeq == w
    requires RowsIn(ledger, p, w, top) != []
    ensures p in Points(ledger[low..top])
  {
    RowsInEmpty(ledger, p, w, top);
    var i :| w <= i < top && ledger[i].point == p;
    assert i >= low;
    assert ledger[low..top][i - low] == ledger[i];
  }

  /** Folding any batch that starts at the cursor keeps every account exact and covers the whole
      batch, whatever part of it an earlier crashed fold already wrote and whatever the learner
      overrode since the profile was read. */
  lemma {:induction false} FoldIsExact(ledger: seq<Row>, profile: Profile, read: Profile, low: nat, top: nat)
    requires WellNumbered(ledger) && low <= top <= |ledger|
    requires Accounted(ledger, profile) && Accounted(ledger, read) && SameAccounts(read, profile)
    requires Covered(ledger, profile, low)
    ensures var after := Folded(profile, read, ledger[low..top]);
      && Accounted(ledger, after) && Covered(ledger, after, top)
      && (forall p :: p in profile ==> p in after && profile[p].lastSeq <= after[p].lastSeq)
  {
    var pending := ledger[low..top];
    var after := Folded(profile, read, pending);
    forall p | p in after
      ensures p != "" && Accounts(ledger, p, after[p])
      ensures forall i :: after[p].lastSeq <= i < top ==> ledger[i].point != p
      ensures p in profile ==> profile[p].lastSeq <= after[p].lastSeq
    {
      PointIsExact(ledger, profile, read, p, low, top);
    }
    forall i | 0 <= i < top && ledger[i].point != "" ensures ledger[i].point in after {
      if ledger[i].point !in profile {
        NewPointIsFolded(ledger, profile, read, i, low, top);
      }
    }
  }

  lemma {:induction false} PointIsExact(ledger: seq<Row>, profile: Profile, read: Profile, p: string, low: nat, top: nat)
    requires WellNumbered(ledger) && low <= top <= |ledger|
    requires Accounted(ledger, profile) && Accounted(ledger, read) && SameAccounts(read, profile)
    requires Covered(ledger, profile, low) && p in Folded(profile, read, ledger[low..top])
    ensures var row := Folded(profile, read, ledger[low..top])[p];
      && p != "" && Accounts(ledger, p, row)
      && (forall i :: row.lastSeq <= i < top ==> ledger[i].point != p)
      && (p in profile ==> profile[p].lastSeq <= row.lastSeq)
  {
    FoldOfPoint(ledger, profile, read, p, low, top);
    var w := Watermark(Lookup(read, p));
    if w < top && RowsIn(ledger, p, w, top) != [] {
      UpdateKeepsAccount(ledger, p, Lookup(profile, p), Lookup(read, p), top, Folded(profile, read, ledger[low..top])[p]);
    }
  }

  lemma {:induction false} NewPointIsFolded(ledger: seq<Row>, profile: Profile, read: Profile, i: nat, low: nat, top: nat)
    requires Numbered(ledger) && i < top && low <= top <= |ledger| && SameAccounts(read, profile) && Covered(ledger, profile, low)
    requires ledger[i].point != "" && ledger[i].point !in profile
    ensures ledger[i].point in Folded(profile, read, ledger[low..top])
  {
    var p := ledger[i].point;
    assert i >= low && ledger[low..top][i - low] == ledger[i];
    assert p in Points(ledger[low..top]);
    RowsOfSlice(ledger, p, low, top);
    UnseenIsTail(ledger, p, 0, low, top);
    RowsInEmpty(ledger, p, 0, top);
  }

  // ----- The updater as a step system -----

  /** Where the one fold that may hold the lock stands; all of it is lost in a crash. */
  datatype Phase =
    | Idle
    | HasCursor(mark: nat)
    | HasPending(pending: seq<Row>)
    | HasProfile(pending: seq<Row>, read: Profile)
    | Written(top: nat)

  datatype State = State(store: Durable, phase: Phase)

  /** One atomic action: an append, the next database call of the fold, a crash, or the learner's own
      correction of a row, which takes no lock. */
  datatype Action = Append(records: seq<Record>) | ReadCursor | ReadPending(limit: nat) | ReadProfile | WriteProfile
                  | AdvanceCursor | Crash
                  | Override(point: string, enabled: bool, mastery: Option<real>, difficulty: Option<real>)

  function Overridden(row: ProfileRow, enabled: bool, mastery: Option<real>, difficulty: Option<real>): ProfileRow {
    row.(frozen := enabled, mastery := if mastery.Some? then mastery.value else row.mastery,
         difficulty := if difficulty.Some? then difficulty.value else row.difficulty)
  }

  function Advanced(cursor: nat, top: nat): nat {
    if cursor < top then top else cursor
  }

  function Next(s: State, a: Action): State {
    match (a, s.phase)
    case (Append(records), _) => s.(store := s.store.(ledger := AppendedAll(s.store.ledger, records)))
    case (Crash, _) => s.(phase := Idle)
    case (Override(point, enabled, mastery, difficulty), _) =>
      if point !in s.store.profile then s
      else
        var row := Overridden(s.store.profile[point], enabled, mastery, difficulty);
        s.(store := s.store.(profile := s.store.profile[point := row]))
    case (ReadCursor, Idle) => s.(phase := HasCursor(s.store.cursor))
    case (ReadPending(limit), HasCursor(mark)) =>
      var pending := Pending(s.store.ledger, mark, limit);
      s.(phase := if pending == [] then Idle else HasPending(pending))
    case (ReadProfile, HasPending(pending)) => s.(phase := HasProfile(pending, s.store.profile))
    case (WriteProfile, HasProfile(pending, read)) =>
      if !AllAccepted(read, pending) then s.(phase := Idle)
      else State(s.store.(profile := Folded(s.store.profile, read, pending)), Written(MaxSeq(pending)))
    case (AdvanceCursor, Written(top)) =>
      State(s.store.(cursor := Advanced(s.store.cursor, top)), Idle)
    case _ => s
  }

  function Run(s: State, actions: seq<Action>): State {
    if actions == [] then s else Next(Run(s, actions[..|actions| - 1]), actions[|actions| - 1])
  }

  const START := State(Durable([], map[], 0), Idle)

  ghost predicate IsBatch(d: Durable, pending: seq<Row>) {
    |pending| > 0 && d.cursor + |pending| <= |d.ledger|
    && pending == d.ledger[d.cursor..d.cursor + |pending|]
  }

  ghost predicate Inv(s: State) {
    && Valid(s.store)
    && match s.phase
       case Idle => true
       case HasCursor(mark) => mark == s.store.cursor
       case HasPending(pending) => IsBatch(s.store, pending)
       case HasProfile(pending, read) =>
         IsBatch(s.store, pending) && Accounted(s.store.ledger, read) && SameAccounts(read, s.store.profile)
       case Written(top) => top <= |s.store.ledger| && Covered(s.store.ledger, s.store.profile, top)
  }

  lemma {:induction false} MaxSeqOfSlice(ledger: seq<Row>, low: nat, top: nat)
    requires Numbered(ledger) && low < top <= |ledger|
    ensures MaxSeq(ledger[low..top]) == top
    decreases top - low
  {
    assert ledger[low..top][..top - low - 1] == ledger[low..top - 1];
    if low < top - 1 {
      MaxSeqOfSlice(ledger, low, top - 1);
    }
  }

  lemma {:induction false} AppendKeepsInv(s: State, records: seq<Record>)
    requires Inv(s)
    ensures Inv(Next(s, Append(records)))
  {
    var was, grown := s.store.ledger, AppendedAll(s.store.ledger, records);
    AppendKeepsNumbering(was, records);
    GrowingKeepsAccounts(was, grown, s.store.profile);
    var next := Next(s, Append(records));
    match s.phase
    case HasPending(pending) => assert IsBatch(next.store, pending);
    case HasProfile(pending, read) =>
      GrowingKeepsAccounts(was, grown, read);
      assert IsBatch(next.store, pending);
    case _ =>
  }

  lemma {:induction false} GrowingKeepsAccounts(ledger: seq<Row>, grown: seq<Row>, profile: Profile)
    requires ledger <= grown && Accounted(ledger, profile)
    ensures Accounted(grown, profile)
  {
    forall p | p in profile ensures Accounts(grown, p, profile[p]) {
      assert Accounts(ledger, p, profile[p]);
      RowsInPrefix(ledger, grown, p, profile[p].lastSeq);
    }
  }

  /** An override changes no account: count, watermark, interval and coverage survive it. */
  lemma {:induction false} OverrideKeepsInv(s: State, a: Action)
    requires Inv(s) && a.Override?
    ensures Inv(Next(s, a)) && SameAccounts(s.store.profile, Next(s, a).store.profile)
  {
    if a.point in s.store.profile {
      var row := Overridden(s.store.profile[a.point], a.enabled, a.mastery, a.difficulty);
      OverrideKeepsAccounts(s.store.ledger, s.store.profile, a.point, row);
      OverriddenState(s, a, s.store.profile[a.point := row]);
    }
  }

  lemma {:induction false} OverriddenState(s: State, a: Action, after: Profile)
    requires Inv(s) && a.Override? && a.point in s.store.profile
    requires after == s.store.profile[a.point := Overridden(s.store.profile[a.point], a.enabled, a.mastery, a.difficulty)]
    requires Accounted(s.store.ledger, after) && SameAccounts(s.store.profile, after)
    requires forall top: nat :: Covered(s.store.ledger, s.store.profile, top) ==> Covered(s.store.ledger, after, top)
    ensures Next(s, a) == s.(store := s.store.(profile := after)) && Inv(Next(s, a))
  {
    if s.phase.HasProfile? {
      assert IsBatch(s.store.(profile := after), s.phase.pending);
      forall p | p in s.phase.read ensures SameAccount(s.phase.read[p], after[p]) {
        assert SameAccount(s.phase.read[p], s.store.profile[p]) && SameAccount(s.store.profile[p], after[p]);
      }
    }
  }

  lemma {:induction false} OverrideKeepsAccounts(ledger: seq<Row>, profile: Profile, point: string, row: ProfileRow)
    requires Accounted(ledger, profile) && point in profile && SameAccount(profile[point], row)
    ensures Accounted(ledger, profile[point := row]) && SameAccounts(profile, profile[point := row])
    ensures forall top: nat :: Covered(ledger, profile, top) ==> Covered(ledger, profile[point := row], top)
  {
    var after := profile[point := row];
    assert after.Keys == profile.Keys;
    forall p | p in after ensures Accounts(ledger, p, after[p]) {
      assert Accounts(ledger, p, profile[p]);
    }
  }

  lemma {:induction false} WriteKeepsInv(s: State)
    requires Inv(s) && s.phase.HasProfile?
    ensures Inv(Next(s, WriteProfile))
    ensures var after := Next(s, WriteProfile).store.profile;
      forall p :: p in s.store.profile ==> p in after && s.store.profile[p].lastSeq <= after[p].lastSeq
  {
    var d, pending := s.store, s.phase.pending;
    var top := d.cursor + |pending|;
    assert pending == d.ledger[d.cursor..top];
    BatchFoldIsExact(d, s.phase.read, top);
    WriteOutcome(s, Folded(d.profile, s.phase.read, pending), top);
  }

  /** A fold writes the whole batch, or a refused change ends it before anything is written. */
  lemma {:induction false} WriteOutcome(s: State, after: Profile, top: nat)
    requires s.phase.HasProfile? && after == Folded(s.store.profile, s.phase.read, s.phase.pending)
    requires MaxSeq(s.phase.pending) == top
    ensures Next(s, WriteProfile) == if AllAccepted(s.phase.read, s.phase.pending)
      then State(s.store.(profile := after), Written(top)) else s.(phase := Idle)
  {
  }

  /** Folding the rows between the cursor and `top` keeps the store valid and covers them. */
  lemma {:induction false} BatchFoldIsExact(d: Durable, read: Profile, top: nat)
    requires Valid(d) && Accounted(d.ledger, read) && SameAccounts(read, d.profile) && d.cursor < top <= |d.ledger|
    ensures var pending := d.ledger[d.cursor..top];
      var after := Folded(d.profile, read, pending);
      && Valid(d.(profile := after)) && Covered(d.ledger, after, top) && MaxSeq(pending) == top
      && (forall p :: p in d.profile ==> p in after && d.profile[p].lastSeq <= after[p].lastSeq)
  {
    MaxSeqOfSlice(d.ledger, d.cursor, top);
    FoldIsExact(d.ledger, d.profile, read, d.cursor, top);
    ShrinkCover(d.ledger, Folded(d.profile, read, d.ledger[d.cursor..top]), d.cursor, top);
  }

  lemma {:induction false} ShrinkCover(ledger: seq<Row>, profile: Profile, low: nat, top: nat)
    requires Covered(ledger, profile, top) && low <= top
    ensures Covered(ledger, profile, low)
  {
  }

  lemma {:induction false} StepKeepsInv(s: State, a: Action)
    requires Inv(s)
    ensures Inv(Next(s, a))
  {
    match a
    case Append(records) => AppendKeepsInv(s, records);
    case WriteProfile =>
      if s.phase.HasProfile? {
        WriteKeepsInv(s);
      }
    case ReadPending(limit) =>
      if s.phase.HasCursor? {
        PendingIsSlice(s.store.ledger, s.phase.mark, limit);
      }
    case Override(_, _, _, _) => OverrideKeepsInv(s, a);
    case _ =>
  }

  lemma {:induction false} RunKeepsInv(actions: seq<Action>)
    ensures Inv(Run(START, actions))
  {
    if actions != [] {
      RunKeepsInv(actions[..|actions| - 1]);
      StepKeepsInv(Run(START, actions[..|actions| - 1]), actions[|actions| - 1]);
    }
  }

  // ----- What holds over every run -----

  /** The ledger rows with a sequence number at most `seqNo`. */
  function UpTo(rows: seq<Row>, seqNo: nat): seq<Row> {
    if rows == [] then []
    else
      var rest := UpTo(rows[..|rows| - 1], seqNo);
      if rows[|rows| - 1].seqNo <= seqNo then rest + [rows[|rows| - 1]] else rest
  }

  lemma {:induction false} UpToIsPrefix(ledger: seq<Row>, n: nat)
    requires Numbered(ledger)
    ensures UpTo(ledger, n) == if n <= |ledger| then ledger[..n] else ledger
  {
    if ledger != [] {
      UpToIsPrefix(ledger[..|ledger| - 1], n);
    }
  }

  /** In every reachable state each point has counted exactly its rows up to its own watermark,
      each once, and every named row at or below the learner cursor has been counted. */
  lemma {:induction false} ExactlyOnce(actions: seq<Action>)
    ensures var d := Run(START, actions).store;
      && (forall p :: p in d.profile ==> d.profile[p].count == |RowsOf(UpTo(d.ledger, d.profile[p].lastSeq), p)|)
      && (forall i :: 0 <= i < |d.ledger| && d.ledger[i].seqNo <= d.cursor && d.ledger[i].point != "" ==>
            d.ledger[i].point in d.profile && d.ledger[i].seqNo <= d.profile[d.ledger[i].point].lastSeq)
  {
    RunKeepsInv(actions);
    var d := Run(START, actions).store;
    forall p | p in d.profile
      ensures d.profile[p].count == |RowsOf(UpTo(d.ledger, d.profile[p].lastSeq), p)|
    {
      assert Accounts(d.ledger, p, d.profile[p]);
      UpToIsPrefix(d.ledger, d.profile[p].lastSeq);
      RowsOfSlice(d.ledger, p, 0, d.profile[p].lastSeq);
    }
  }

  /** Two runs that end with the same ledger, both caught up, hold the same points with the same
      counts and watermarks, however appends, batches, crashes and overrides interleaved. */
  lemma {:induction false} CaughtUpRunsAgree(a: seq<Action>, b: seq<Action>)
    requires var d, e := Run(START, a).store, Run(START, b).store;
      d.ledger == e.ledger && d.cursor == e.cursor == |d.ledger|
    ensures var d, e := Run(START, a).store, Run(START, b).store;
      && d.profile.Keys == e.profile.Keys
      && forall p :: p in d.profile ==> d.profile[p].count == e.profile[p].count && d.profile[p].lastSeq == e.profile[p].lastSeq
  {
    RunKeepsInv(a);
    RunKeepsInv(b);
    var d, e := Run(START, a).store, Run(START, b).store;
    forall p ensures p in d.profile <==> p in e.profile
      ensures p in d.profile ==> d.profile[p].count == e.profile[p].count && d.profile[p].lastSeq == e.profile[p].lastSeq
    {
      if p in d.profile {
        AccountIsDetermined(d.ledger, d.profile, e.profile, p);
      }
      if p in e.profile {
        AccountIsDetermined(d.ledger, e.profile, d.profile, p);
      }
    }
  }

  lemma {:induction false} AccountIsDetermined(ledger: seq<Row>, profile: Profile, other: Profile, p: string)
    requires Accounted(ledger, profile) && Covered(ledger, profile, |ledger|)
    requires Accounted(ledger, other) && Covered(ledger, other, |ledger|)
    requires p in profile
    ensures p in other && profile[p].count == other[p].count && profile[p].lastSeq == other[p].lastSeq
  {
    var n := profile[p].lastSeq;
    assert Accounts(ledger, p, profile[p]) && ledger[n - 1].point == p;
    assert Accounts(ledger, p, other[p]);
    var k := other[p].lastSeq;
    assert ledger[k - 1].point == p;
    assert n == k;
  }

  /** No action ever loses a ledger row, a point, a counted row or cursor progress. */
  lemma {:induction false} StepIsMonotone(s: State, a: Action)
    requires Inv(s)
    ensures var d, e := s.store, Next(s, a).store;
      && d.ledger <= e.ledger && d.cursor <= e.cursor
      && forall p :: p in d.profile ==> p in e.profile && d.profile[p].lastSeq <= e.profile[p].lastSeq
  {
    match a
    case Append(records) => AppendKeepsNumbering(s.store.ledger, records);
    case WriteProfile =>
      if s.phase.HasProfile? {
        WriteKeepsInv(s);
      }
    case _ =>
  }
}
