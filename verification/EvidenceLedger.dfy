/** The append-only evidence ledger of one learner and the fold of one batch of it into the
    per-point learning profile. */
module EvidenceLedger {
  import opened Wrappers
  import opened Rounding
  import Mastery
  import Scheduling

  const DEFAULT_MASTERY := 0.35
  const DEFAULT_DIFFICULTY := 0.5

  /** Only correct, incorrect and no-answer signals carry a grade; its score may be absent. */
  datatype Grade = Ungraded | Graded(score: Option<real>, hintLevel: int)

  /** What an agent hands in; the repository adds the sequence number. */
  datatype Record = Record(id: string, point: string, grade: Grade)

  /** One ledger row. `point` is the stripped knowledge point, empty when there is none. */
  datatype Row = Row(id: string, seqNo: nat, point: string, grade: Grade)

  /** The columns of a profile row that the fold reads back. A frozen row keeps the mastery and
      difficulty that the learner gave it. */
  datatype ProfileRow = ProfileRow(mastery: real, stability: real, difficulty: real, count: nat, lastSeq: nat, frozen: bool)

  type Profile = map<string, ProfileRow>

  // ----- Appending -----

  predicate Recorded(ledger: seq<Row>, id: string) {
    exists i :: 0 <= i < |ledger| && ledger[i].id == id
  }

  function MaxSeq(rows: seq<Row>): nat {
    if rows == [] then 0
    else
      var m := MaxSeq(rows[..|rows| - 1]);
      var last := rows[|rows| - 1].seqNo;
      if last > m then last else m
  }

  /** An id already in the ledger is left alone, any other record becomes the next row. */
  function Appended(ledger: seq<Row>, r: Record): seq<Row> {
    if Recorded(ledger, r.id) then ledger
    else ledger + [Row(r.id, MaxSeq(ledger) + 1, r.point, r.grade)]
  }

  function AppendedAll(ledger: seq<Row>, records: seq<Record>): seq<Row> {
    if records == [] then ledger
    else Appended(AppendedAll(ledger, records[..|records| - 1]), records[|records| - 1])
  }

  ghost predicate Numbered(ledger: seq<Row>) {
    forall i :: 0 <= i < |ledger| ==> ledger[i].seqNo == i + 1
  }

  ghost predicate UniqueIds(ledger: seq<Row>) {
    forall i, j :: 0 <= i < j < |ledger| ==> ledger[i].id != ledger[j].id
  }

  /** Sequence numbers are 1, 2, 3, ... in ledger order and ids are unique. */
  ghost predicate WellNumbered(ledger: seq<Row>) {
    Numbered(ledger) && UniqueIds(ledger)
  }

  lemma {:induction false} MaxSeqIsLength(ledger: seq<Row>)
    requires Numbered(ledger)
    ensures MaxSeq(ledger) == |ledger|
  {
    if ledger != [] {
      MaxSeqIsLength(ledger[..|ledger| - 1]);
    }
  }

  lemma {:induction false} AppendOneKeepsNumbering(ledger: seq<Row>, r: Record)
    requires WellNumbered(ledger)
    ensures WellNumbered(Appended(ledger, r)) && ledger <= Appended(ledger, r)
    ensures forall id :: Recorded(Appended(ledger, r), id) <==> Recorded(ledger, id) || id == r.id
  {
    MaxSeqIsLength(ledger);
    var after := Appended(ledger, r);
    forall id ensures Recorded(after, id) <==> Recorded(ledger, id) || id == r.id {
      if Recorded(ledger, id) {
        var k :| 0 <= k < |ledger| && ledger[k].id == id;
        assert after[k].id == id;
      }
      if id == r.id && !Recorded(ledger, id) {
        assert after[|ledger|].id == id;
      }
    }
  }

  predicate HandedIn(records: seq<Record>, id: string) {
    exists i :: 0 <= i < |records| && records[i].id == id
  }

  /** Appending only extends the ledger, keeps the numbering free of gaps and repeats, and
      afterwards exactly the old ids and the handed-in ids are recorded. */
  lemma {:induction false} AppendKeepsNumbering(ledger: seq<Row>, records: seq<Record>)
    requires WellNumbered(ledger)
    ensures WellNumbered(AppendedAll(ledger, records)) && ledger <= AppendedAll(ledger, records)
    ensures forall id :: Recorded(AppendedAll(ledger, records), id) <==> Recorded(ledger, id) || HandedIn(records, id)
  {
    if records != [] {
      var init, last := records[..|records| - 1], records[|records| - 1];
      AppendKeepsNumbering(ledger, init);
      AppendOneKeepsNumbering(AppendedAll(ledger, init), last);
      HandedInSnoc(records);
    }
  }

  lemma {:induction false} HandedInSnoc(records: seq<Record>)
    requires records != []
    ensures var init, last := records[..|records| - 1], records[|records| - 1];
            forall id :: HandedIn(records, id) <==> HandedIn(init, id) || id == last.id
  {
    var init, last := records[..|records| - 1], records[|records| - 1];
    forall id ensures HandedIn(records, id) <==> HandedIn(init, id) || id == last.id {
      if HandedIn(init, id) {
        var k :| 0 <= k < |init| && init[k].id == id;
        assert records[k].id == id;
      }
    }
  }

  // ----- Querying -----

  function After(rows: seq<Row>, seqNo: nat): seq<Row> {
    if rows == [] then []
    else
      var rest := After(rows[..|rows| - 1], seqNo);
      if rows[|rows| - 1].seqNo > seqNo then rest + [rows[|rows| - 1]] else rest
  }

  /** Rows past a watermark in sequence order, at most `limit` of them. */
  function Pending(ledger: seq<Row>, seqNo: nat, limit: nat): seq<Row> {
    var rows := After(ledger, seqNo);
    if |rows| <= limit then rows else rows[..limit]
  }

  function PendingEnd(ledger: seq<Row>, cursor: nat, limit: nat): (top: nat)
    requires cursor <= |ledger|
    ensures cursor <= top <= |ledger|
  {
    if |ledger| - cursor <= limit then |ledger| else cursor + limit
  }

  lemma {:induction false} AfterIsSuffix(ledger: seq<Row>, cursor: nat)
    requires Numbered(ledger)
    ensures After(ledger, cursor) == if cursor <= |ledger| then ledger[cursor..] else []
  {
    if ledger != [] {
      var init := ledger[..|ledger| - 1];
      AfterIsSuffix(init, cursor);
      if cursor < |ledger| {
        assert ledger[cursor..] == init[cursor..] + [ledger[|ledger| - 1]];
      }
    }
  }

  lemma {:induction false} PendingIsSlice(ledger: seq<Row>, cursor: nat, limit: nat)
    requires Numbered(ledger) && cursor <= |ledger|
    ensures Pending(ledger, cursor, limit) == ledger[cursor..PendingEnd(ledger, cursor, limit)]
  {
    AfterIsSuffix(ledger, cursor);
  }

  // ----- Folding one batch -----

  /** The rows of one point, in order. */
  function RowsOf(rows: seq<Row>, point: string): seq<Row> {
    if rows == [] then []
    else
      var rest := RowsOf(rows[..|rows| - 1], point);
      if rows[|rows| - 1].point == point then rest + [rows[|rows| - 1]] else rest
  }

  /** Graded rows move mastery; the evidence count used for the learning rate starts at the
      prior count and grows with every graded row of the batch, scored or not. */
  function FoldMastery(mastery: real, count: nat, rows: seq<Row>): real
    decreases |rows|
  {
    if rows == [] then mastery
    else match rows[0].grade
      case Ungraded => FoldMastery(mastery, count, rows[1..])
      case Graded(None, _) => FoldMastery(mastery, count + 1, rows[1..])
      case Graded(Some(score), hint) =>
        FoldMastery(Mastery.Moved(mastery, Mastery.Observation(score, hint), count), count + 1, rows[1..])
  }

  /** The scored observations among some rows. */
  function Scored(rows: seq<Row>): seq<Mastery.Observation> {
    if rows == [] then []
    else
      var rest := Scored(rows[..|rows| - 1]);
      match rows[|rows| - 1].grade
      case Graded(Some(score), hint) => rest + [Mastery.Observation(score, hint)]
      case _ => rest
  }

  /** Rows are read rounded; a mastery or difficulty that rounds to zero reads as its default. */
  function MasteryBefore(current: Option<ProfileRow>): real {
    if current.Some? && Round4(current.value.mastery) != 0.0 then Round4(current.value.mastery) else DEFAULT_MASTERY
  }

  function DifficultyOf(current: Option<ProfileRow>): real {
    if current.Some? && Round4(current.value.difficulty) != 0.0 then Round4(current.value.difficulty) else DEFAULT_DIFFICULTY
  }

  function StabilityBefore(current: Option<ProfileRow>): real {
    if current.Some? then Round4(current.value.stability) else 0.0
  }

  function CountBefore(current: Option<ProfileRow>): nat {
    if current.Some? then current.value.count else 0
  }

  function Watermark(current: Option<ProfileRow>): nat {
    if current.Some? then current.value.lastSeq else 0
  }

  /** What a fold wants to write for a point; difficulty is never among it. */
  datatype Delta = Delta(mastery: real, stability: real, count: nat, lastSeq: nat)

  /** The change computed from the row that was read and its unseen ledger rows. */
  function DeltaOf(current: Option<ProfileRow>, unseen: seq<Row>): Delta {
    Delta(FoldMastery(MasteryBefore(current), CountBefore(current), unseen),
          Scheduling.FoldStability(StabilityBefore(current), DifficultyOf(current), Scored(unseen)),
          CountBefore(current) + |unseen|,
          MaxSeq(unseen))
  }

  predicate IsShare(mastery: real) {
    0.0 <= mastery <= 1.0
  }

  /** A change with a mastery outside 0..1 is refused when it is made, for a frozen row, too; the whole
      fold ends with it. */
  predicate Accepted(current: Option<ProfileRow>, unseen: seq<Row>) {
    IsShare(DeltaOf(current, unseen).mastery)
  }

  /** Writing a change to the row that is stored by then: a frozen row keeps its mastery, and a
      watermark never moves back. */
  function Assigned(stored: Option<ProfileRow>, d: Delta): ProfileRow {
    match stored
    case None => ProfileRow(Round4(d.mastery), d.stability, DEFAULT_DIFFICULTY, d.count, d.lastSeq, false)
    case Some(row) =>
      row.(mastery := if row.frozen then row.mastery else Round4(d.mastery), stability := d.stability, count := d.count,
           lastSeq := if d.lastSeq > row.lastSeq then d.lastSeq else row.lastSeq)
  }

  /** The row written when nothing came between reading and writing. */
  function Updated(current: Option<ProfileRow>, unseen: seq<Row>): ProfileRow {
    Assigned(current, DeltaOf(current, unseen))
  }

  function Lookup(profile: Profile, point: string): Option<ProfileRow> {
    if point in profile then Some(profile[point]) else None
  }

  function Unseen(read: Profile, pending: seq<Row>, point: string): seq<Row> {
    After(RowsOf(pending, point), Watermark(Lookup(read, point)))
  }

  function Points(rows: seq<Row>): set<string> {
    set r | r in rows && r.point != "" :: r.point
  }

  /** Every change that a batch calls for can be made. */
  predicate AllAccepted(read: Profile, pending: seq<Row>) {
    forall p :: p in Points(pending) && Unseen(read, pending, p) != [] ==> Accepted(Lookup(read, p), Unseen(read, pending, p))
  }

  /** One batch folded into a profile, with changes computed from an earlier reading of it: a named
      point with unseen rows is written, every other point keeps the row it has. */
  function Folded(profile: Profile, read: Profile, pending: seq<Row>): Profile {
    map p | p in profile.Keys + Points(pending) && (p in profile || Unseen(read, pending, p) != []) ::
      if p in Points(pending) && Unseen(read, pending, p) != [] then
        Assigned(Lookup(profile, p), DeltaOf(Lookup(read, p), Unseen(read, pending, p)))
      else
        profile[p]
  }

  // ----- The fold of a batch and the fold of its observations -----

  /** Every graded row has a score; the constructor of an evidence record refuses others. */
  predicate AllScored(rows: seq<Row>) {
    forall i :: 0 <= i < |rows| ==> rows[i].grade.Graded? ==> rows[i].grade.score.Some?
  }

  lemma {:induction false} ScoredHead(rows: seq<Row>)
    requires rows != []
    ensures Scored(rows) ==
      match rows[0].grade
      case Graded(Some(score), hint) => [Mastery.Observation(score, hint)] + Scored(rows[1..])
      case _ => Scored(rows[1..])
    decreases |rows|
  {
    if |rows| > 1 {
      var init := rows[..|rows| - 1];
      ScoredHead(init);
      assert rows[1..][..|rows| - 2] == init[1..] && rows[1..][|rows| - 2] == rows[|rows| - 1];
    } else {
      assert rows[1..] == [] && rows[..0] == [];
    }
  }

  /** The mastery that a batch of evidence rows folds to is the kernel's fold of its observations. */
  lemma {:induction false} FoldMasteryIsFold(m: real, count: nat, rows: seq<Row>)
    requires AllScored(rows)
    ensures FoldMastery(m, count, rows) == Mastery.Fold(m, count, Scored(rows))
    decreases |rows|
  {
    if rows != [] {
      ScoredHead(rows);
      assert rows[0].grade.Graded? ==> rows[0].grade.score.Some?;
      match rows[0].grade
      case Ungraded => FoldMasteryIsFold(m, count, rows[1..]);
      case Graded(None, _) =>
      case Graded(Some(score), hint) =>
        var o := Mastery.Observation(score, hint);
        FoldMasteryIsFold(Mastery.Moved(m, o, count), count + 1, rows[1..]);
        assert ([o] + Scored(rows[1..]))[1..] == Scored(rows[1..]);
    }
  }

  /** A change is accepted if and only if the mastery that was read is in 0..1 or some unseen row is
      scored: one observation brings any value back. */
  lemma {:induction false} AcceptedIff(current: Option<ProfileRow>, unseen: seq<Row>)
    ensures Accepted(current, unseen) <==> IsShare(MasteryBefore(current)) || Scored(unseen) != []
  {
    FoldIsShareIff(MasteryBefore(current), CountBefore(current), unseen);
  }

  lemma {:induction false} FoldIsShareIff(m: real, count: nat, rows: seq<Row>)
    ensures IsShare(FoldMastery(m, count, rows)) <==> IsShare(m) || Scored(rows) != []
    ensures Scored(rows) == [] ==> FoldMastery(m, count, rows) == m
    decreases |rows|
  {
    if rows != [] {
      ScoredHead(rows);
      match rows[0].grade
      case Ungraded => FoldIsShareIff(m, count, rows[1..]);
      case Graded(None, _) => FoldIsShareIff(m, count + 1, rows[1..]);
      case Graded(Some(score), hint) =>
        var o := Mastery.Observation(score, hint);
        MovedIsShare(m, o, count);
        FoldIsShareIff(Mastery.Moved(m, o, count), count + 1, rows[1..]);
    }
  }

  lemma {:induction false} MovedIsShare(m: real, o: Mastery.Observation, count: nat)
    ensures IsShare(Mastery.Moved(m, o, count))
  {
    var rate := Mastery.LearningRate(count);
    Round4StaysWithin(0.0, 1.0, Clamp(0.0, 1.0, m + rate * (Mastery.Credit(o) - m)));
  }

  /** A written mastery converges to the credit that all observations of the batch earn. */
  lemma {:induction false} UpdatedConverges(current: Option<ProfileRow>, unseen: seq<Row>, credit: real)
    requires AllScored(unseen) && (current.Some? ==> !current.value.frozen)
    requires 0.0 <= MasteryBefore(current) <= 1.0
    requires forall i :: 0 <= i < |Scored(unseen)| ==> Mastery.Credit(Scored(unseen)[i]) == credit
    ensures 0.0 <= Updated(current, unseen).mastery <= 1.0
    ensures Abs(Updated(current, unseen).mastery - credit)
         <= Mastery.GapBound(|Scored(unseen)|, Abs(MasteryBefore(current) - credit))
  {
    var m, rows := MasteryBefore(current), Scored(unseen);
    FoldMasteryIsFold(m, CountBefore(current), unseen);
    Mastery.FoldStaysInUnitInterval(m, CountBefore(current), rows);
    Mastery.RepeatedObservationsConverge(m, CountBefore(current), credit, rows);
    WrittenAsFolded(current, unseen);
  }

  /** Rounding on writing changes nothing: the fold already ends on a four-decimal number. */
  lemma {:induction false} WrittenAsFolded(current: Option<ProfileRow>, unseen: seq<Row>)
    requires current.Some? ==> !current.value.frozen
    ensures Updated(current, unseen).mastery == FoldMastery(MasteryBefore(current), CountBefore(current), unseen)
  {
    var m := MasteryBefore(current);
    if current.Some? {
      Round4Properties(current.value.mastery, 0.0);
    }
    assert OnGrid(m) by {
      assert DEFAULT_MASTERY == Round4(DEFAULT_MASTERY);
      Round4Properties(DEFAULT_MASTERY, 0.0);
    }
    FoldStaysOnGrid(m, CountBefore(current), unseen);
    Round4Properties(FoldMastery(m, CountBefore(current), unseen), 0.0);
  }

  lemma {:induction false} FoldStaysOnGrid(m: real, count: nat, rows: seq<Row>)
    requires OnGrid(m)
    ensures OnGrid(FoldMastery(m, count, rows))
    decreases |rows|
  {
    if rows != [] {
      match rows[0].grade
      case Ungraded => FoldStaysOnGrid(m, count, rows[1..]);
      case Graded(None, _) => FoldStaysOnGrid(m, count + 1, rows[1..]);
      case Graded(Some(score), hint) =>
        var o := Mastery.Observation(score, hint);
        var target, rate := Mastery.Credit(o), Mastery.LearningRate(count);
        Round4Properties(Clamp(0.0, 1.0, m + rate * (target - m)), 0.0);
        FoldStaysOnGrid(Mastery.Moved(m, o, count), count + 1, rows[1..]);
    }
  }

  /** From a row with at least as much mastery and as much evidence, a batch of pointwise at least
      as good observations never writes a lower mastery. */
  lemma {:induction false} UpdatedIsMonotone(current: Option<ProfileRow>, other: Option<ProfileRow>, unseen: seq<Row>, better: seq<Row>)
    requires AllScored(unseen) && AllScored(better)
    requires (current.Some? ==> !current.value.frozen) && (other.Some? ==> !other.value.frozen)
    requires MasteryBefore(current) <= MasteryBefore(other) && CountBefore(current) == CountBefore(other)
    requires |Scored(unseen)| == |Scored(better)|
    requires forall i :: 0 <= i < |Scored(unseen)| ==>
      Scored(unseen)[i].score <= Scored(better)[i].score && Scored(unseen)[i].hintLevel >= Scored(better)[i].hintLevel
    ensures Updated(current, unseen).mastery <= Updated(other, better).mastery
  {
    FoldMasteryIsFold(MasteryBefore(current), CountBefore(current), unseen);
    FoldMasteryIsFold(MasteryBefore(other), CountBefore(other), better);
    Mastery.FoldMonotone(MasteryBefore(current), MasteryBefore(other), CountBefore(current), Scored(unseen), Scored(better));
    WrittenAsFolded(current, unseen);
    WrittenAsFolded(other, better);
  }
}
