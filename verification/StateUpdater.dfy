/** The store behind the projection and the one fold over it, as they update their tables in
    place. Each method is tied to the functions whose runs EvidenceProjection analyses. */
module StateUpdater {
  import opened Wrappers
  import opened Rounding
  import opened EvidenceLedger
  import opened EvidenceProjection
  import Mastery
  import Scheduling

  datatype PointDelta = PointDelta(point: string, delta: Delta)

  function Put(profile: Profile, deltas: seq<PointDelta>): Profile {
    if deltas == [] then profile
    else
      var earlier, d := Put(profile, deltas[..|deltas| - 1]), deltas[|deltas| - 1];
      earlier[d.point := Assigned(Lookup(earlier, d.point), d.delta)]
  }

  /** Each record is answered with the row of its id. */
  ghost predicate Answered(ledger: seq<Row>, records: seq<Record>, rows: seq<Row>) {
    |rows| == |records| && forall i {:trigger rows[i]} :: 0 <= i < |rows| ==> rows[i] in ledger && rows[i].id == records[i].id
  }

  /** What one more record does: `found` is the old row of its id. */
  lemma {:induction false} AppendingOne(start: seq<Row>, records: seq<Record>, r: Record, rows: seq<Row>, found: Option<Row>, last: nat)
    requires var ledger := AppendedAll(start, records);
      && Answered(ledger, records, rows) && last == MaxSeq(ledger)
      && (found.Some? <==> Recorded(ledger, r.id)) && (found.Some? ==> found.value in ledger && found.value.id == r.id)
    ensures var ledger, row := AppendedAll(start, records), Row(r.id, last + 1, r.point, r.grade);
      var after, answer := if found.Some? then ledger else ledger + [row], if found.Some? then found.value else row;
      && AppendedAll(start, records + [r]) == after && Answered(after, records + [r], rows + [answer])
      && MaxSeq(after) == (if found.Some? then last else last + 1)
  {
    var ledger := AppendedAll(start, records);
    var row := Row(r.id, last + 1, r.point, r.grade);
    assert (records + [r])[..|records|] == records;
    MaxSeqSnoc(ledger, row);
    assert (ledger + [row])[|ledger|] == row;
  }

  class RuntimeState {
    var ledger: seq<Row>
    var profile: Profile
    var cursor: nat

    function Store(): Durable
      reads this
    {
      Durable(ledger, profile, cursor)
    }

    constructor ()
      ensures Store() == START.store
    {
      ledger, profile, cursor := [], map[], 0;
    }

    method Find(id: string) returns (found: Option<Row>)
      ensures found.Some? <==> Recorded(ledger, id)
      ensures found.Some? ==> found.value in ledger && found.value.id == id
    {
      for i := 0 to |ledger|
        invariant forall j :: 0 <= j < i ==> ledger[j].id != id
      {
        if ledger[i].id == id {
          return Some(ledger[i]);
        }
      }
      return None;
    }

    /** Append records; a record whose id is already there is answered with the old row. */
    method AppendEvidence(records: seq<Record>) returns (rows: seq<Row>)
      modifies this`ledger
      ensures ledger == AppendedAll(old(ledger), records)
      ensures Answered(ledger, records, rows)
    {
      rows := [];
      var nextSeq := MaxSeq(ledger);
      for n := 0 to |records|
        invariant ledger == AppendedAll(old(ledger), records[..n])
        invariant nextSeq == MaxSeq(ledger)
        invariant Answered(ledger, records[..n], rows)
      {
        var r := records[n];
        assert records[..n + 1] == records[..n] + [r];
        var existing := Find(r.id);
        AppendingOne(old(ledger), records[..n], r, rows, existing, nextSeq);
        if existing.Some? {
          rows := rows + [existing.value];
        } else {
          nextSeq := nextSeq + 1;
          var row := Row(r.id, nextSeq, r.point, r.grade);
          ledger := ledger + [row];
          rows := rows + [row];
        }
      }
      assert records[..|records|] == records;
    }

    method EvidenceAfter(seqNo: nat, limit: nat) returns (rows: seq<Row>)
      ensures rows == Pending(ledger, seqNo, limit)
    {
      rows := After(ledger, seqNo);
      if |rows| > limit {
        rows := rows[..limit];
      }
    }

    method AdvanceProjectionCursor(seqNo: nat)
      modifies this`cursor
      ensures cursor == Advanced(old(cursor), seqNo)
    {
      if cursor < seqNo {
        cursor := seqNo;
      }
    }

    /** Write each change to the row that is stored by then. */
    method ApplyProfileDeltas(deltas: seq<PointDelta>)
      modifies this`profile
      ensures profile == Put(old(profile), deltas)
    {
      for n := 0 to |deltas|
        invariant profile == Put(old(profile), deltas[..n])
      {
        assert deltas[..n + 1][..n] == deltas[..n];
        var d := deltas[n];
        profile := profile[d.point := Assigned(Lookup(profile, d.point), d.delta)];
      }
      assert deltas[..|deltas|] == deltas;
    }

    /** The learner's own correction, at any moment of a fold. */
    method OverrideProfile(point: string, enabled: bool, mastery: Option<real>, difficulty: Option<real>) returns (found: bool)
      modifies this`profile
      ensures forall phase ::
        State(Store(), phase) == Next(State(old(Store()), phase), Override(point, enabled, mastery, difficulty))
      ensures found <==> point in old(profile)
    {
      found := point in profile;
      if found {
        profile := profile[point := Overridden(profile[point], enabled, mastery, difficulty)];
      }
    }
  }

  /** The position of the first row of a point. */
  function First(rows: seq<Row>, p: string): (k: nat)
    requires p in Points(rows)
    ensures k < |rows| && rows[k].point == p && forall i :: 0 <= i < k ==> rows[i].point != p
  {
    if rows[0].point == p then 0 else First(rows[1..], p) + 1
  }

  /** Every named point once, in order of first appearance. */
  ghost predicate ByFirstRow(rows: seq<Row>, order: seq<string>) {
    && (forall p :: p in order <==> p in Points(rows))
    && (forall i, j {:trigger order[i], order[j]} :: 0 <= i < j < |order| ==> First(rows, order[i]) < First(rows, order[j]))
  }

  lemma {:induction false} FirstOfPrefix(rows: seq<Row>, row: Row, p: string)
    requires p in Points(rows)
    ensures p in Points(rows + [row]) && First(rows + [row], p) == First(rows, p)
  {
    var longer, k := rows + [row], First(rows, p);
    assert longer[k].point == p;
    assert longer[k] in longer;
    var k' := First(longer, p);
    assert k' <= k && longer[k'] == rows[k'];
  }

  lemma {:induction false} FirstOfNew(rows: seq<Row>, row: Row)
    requires row.point != "" && row.point !in Points(rows)
    ensures row.point in Points(rows + [row]) && First(rows + [row], row.point) == |rows|
  {
    var longer := rows + [row];
    assert longer[|rows|] in longer;
    assert forall k :: 0 <= k < |rows| ==> longer[k] == rows[k] && rows[k] in rows;
  }

  /** One more row of a known point changes no order, one of a new point puts it last. */
  lemma {:induction false} OrderGrows(rows: seq<Row>, row: Row, order: seq<string>)
    requires ByFirstRow(rows, order)
    ensures var known := row.point == "" || row.point in order;
            ByFirstRow(rows + [row], if known then order else order + [row.point])
  {
    var longer, after := rows + [row], if row.point == "" || row.point in order then order else order + [row.point];
    forall p ensures p in after <==> p in Points(longer) {
      if p in Points(rows) {
        FirstOfPrefix(rows, row, p);
      }
      if p != "" && p == row.point {
        assert longer[|rows|] in longer;
      }
      if p in Points(longer) && p !in Points(rows) {
        var r :| r in longer && r.point == p;
        assert r == row;
      }
    }
    forall i, j | 0 <= i < j < |after| ensures First(longer, after[i]) < First(longer, after[j]) {
      assert after[i] == order[i] && order[i] in Points(rows);
      FirstOfPrefix(rows, row, order[i]);
      if j < |order| {
        assert after[j] == order[j] && order[j] in Points(rows);
        FirstOfPrefix(rows, row, order[j]);
      } else {
        FirstOfNew(rows, row);
      }
    }
  }

  /** The named points as a scan of the rows meets them. */
  function Names(rows: seq<Row>): seq<string> {
    if rows == [] then []
    else
      var earlier, row := Names(rows[..|rows| - 1]), rows[|rows| - 1];
      if row.point == "" || row.point in earlier then earlier else earlier + [row.point]
  }

  predicate Distinct(names: seq<string>) {
    forall i, j :: 0 <= i < j < |names| ==> names[i] != names[j]
  }

  lemma {:induction false} NamesAreByFirstRow(rows: seq<Row>)
    ensures ByFirstRow(rows, Names(rows)) && Distinct(Names(rows))
  {
    if rows != [] {
      var init, row := rows[..|rows| - 1], rows[|rows| - 1];
      assert rows == init + [row];
      NamesAreByFirstRow(init);
      OrderGrows(init, row, Names(init));
    }
    ByFirstRowIsDistinct(rows, Names(rows));
  }

  lemma {:induction false} ByFirstRowIsDistinct(rows: seq<Row>, order: seq<string>)
    requires ByFirstRow(rows, order)
    ensures Distinct(order)
  {
    forall i, j | 0 <= i < j < |order| ensures order[i] != order[j] {
      assert First(rows, order[i]) < First(rows, order[j]);
    }
  }

  /** The rows of every named point. */
  ghost predicate Grouped(groups: map<string, seq<Row>>, rows: seq<Row>) {
    groups.Keys == Points(rows) && forall p :: p in groups ==> groups[p] == RowsOf(rows, p)
  }

  lemma {:induction false} GroupsGrow(groups: map<string, seq<Row>>, rows: seq<Row>, row: Row)
    requires Grouped(groups, rows)
    ensures row.point == "" ==> Grouped(groups, rows + [row])
    ensures row.point != "" ==>
      Grouped(groups[row.point := (if row.point in groups then groups[row.point] else []) + [row]], rows + [row])
  {
    var longer := rows + [row];
    assert longer[..|rows|] == rows;
    PointsGrow(rows, row);
    if row.point != "" && row.point !in groups {
      AbsentPoint(rows, row.point);
    }
  }

  lemma {:induction false} PointsGrow(rows: seq<Row>, row: Row)
    ensures Points(rows + [row]) == Points(rows) + if row.point == "" then {} else {row.point}
  {
    assert (rows + [row])[|rows|] == row;
  }

  lemma {:induction false} KnownNames(rows: seq<Row>, p: string)
    ensures p in Names(rows) <==> p in Points(rows)
  {
    NamesAreByFirstRow(rows);
  }

  /** Collect the rows of every named point, each point once and in order of first appearance. */
  method GroupByPoint(rows: seq<Row>) returns (groups: map<string, seq<Row>>, order: seq<string>)
    ensures Grouped(groups, rows)
    ensures ByFirstRow(rows, order) && Distinct(order)
  {
    groups, order := map[], [];
    for n := 0 to |rows|
      invariant Grouped(groups, rows[..n])
      invariant order == Names(rows[..n])
    {
      var row := rows[n];
      assert rows[..n + 1][..n] == rows[..n];
      assert rows[..n + 1] == rows[..n] + [row];
      GroupsGrow(groups, rows[..n], row);
      KnownNames(rows[..n], row.point);
      if row.point != "" {
        if row.point !in groups {
          groups, order := groups[row.point := []], order + [row.point];
        }
        groups := groups[row.point := groups[row.point] + [row]];
      }
    }
    assert rows[..|rows|] == rows;
    NamesAreByFirstRow(rows);
  }

  lemma {:induction false} AbsentPoint(rows: seq<Row>, p: string)
    requires p != "" && p !in Points(rows)
    ensures RowsOf(rows, p) == []
  {
    if rows != [] {
      AbsentPoint(rows[..|rows| - 1], p);
    }
  }

  /** One point's worth of change, observation by observation; none when it is refused. */
  method DeltaFor(current: Option<ProfileRow>, unseen: seq<Row>) returns (d: Option<Delta>)
    ensures d == if Accepted(current, unseen) then Some(DeltaOf(current, unseen)) else None
    ensures d.Some? <==> IsShare(MasteryBefore(current)) || Scored(unseen) != []
  {
    AcceptedIff(current, unseen);
    var mastery, count := MasteryBefore(current), CountBefore(current);
    var stability, difficulty := StabilityBefore(current), DifficultyOf(current);
    for n := 0 to |unseen|
      invariant FoldMastery(mastery, count, unseen[n..])
             == FoldMastery(MasteryBefore(current), CountBefore(current), unseen)
      invariant Scheduling.FoldStability(stability, difficulty, Scored(unseen[n..]))
             == Scheduling.FoldStability(StabilityBefore(current), difficulty, Scored(unseen))
    {
      ScoredHead(unseen[n..]);
      assert unseen[n..][1..] == unseen[n + 1..];
      match unseen[n].grade
      case Ungraded =>
      case Graded(None, _) => count := count + 1;
      case Graded(Some(score), hint) =>
        var o := Mastery.Observation(score, hint);
        mastery := Mastery.Moved(mastery, o, count);
        count := count + 1;
        stability := Scheduling.NextStability(stability, o, difficulty);
    }
    if mastery < 0.0 || mastery > 1.0 {
      return None;
    }
    d := Some(Delta(mastery, stability, CountBefore(current) + |unseen|, MaxSeq(unseen)));
  }

  // ----- One whole fold -----

  /** The store after a fold that nothing interrupts; a refused change leaves it as it is. */
  function FoldedStore(d: Durable, limit: nat): Durable {
    var pending := Pending(d.ledger, d.cursor, limit);
    if pending == [] || !AllAccepted(d.profile, pending) then d
    else Durable(d.ledger, Folded(d.profile, d.profile, pending), Advanced(d.cursor, MaxSeq(pending)))
  }

  const FOLD_CALLS := (limit: nat) => [ReadCursor, ReadPending(limit), ReadProfile, WriteProfile, AdvanceCursor]

  /** An uninterrupted fold is one run of the step system, so everything proved about runs
      holds of it. */
  lemma {:induction false} FoldIsARun(d: Durable, limit: nat)
    ensures Run(State(d, Idle), FOLD_CALLS(limit)) == State(FoldedStore(d, limit), Idle)
  {
    var calls, s0 := FOLD_CALLS(limit), State(d, Idle);
    assert calls[..5] == calls;
    var s1 := Next(s0, ReadCursor);
    var s2 := Next(s1, ReadPending(limit));
    var s3 := Next(s2, ReadProfile);
    var s4 := Next(s3, WriteProfile);
    assert Run(s0, calls[..0]) == s0;
    assert calls[..1][..0] == calls[..0] && Run(s0, calls[..1]) == s1;
    assert calls[..2][..1] == calls[..1] && Run(s0, calls[..2]) == s2;
    assert calls[..3][..2] == calls[..2] && Run(s0, calls[..3]) == s3;
    assert calls[..4][..3] == calls[..3] && Run(s0, calls[..4]) == s4;
  }

  /** Every point that the next batch writes was read with a mastery in 0..1, or has a scored row. */
  ghost predicate Foldable(d: Durable, limit: nat) {
    var pending := Pending(d.ledger, d.cursor, limit);
    forall p :: p in Points(pending) && Unseen(d.profile, pending, p) != [] ==>
      IsShare(MasteryBefore(Lookup(d.profile, p))) || Scored(Unseen(d.profile, pending, p)) != []
  }

  /** From every valid store a fold gets through its whole slice if and only if that holds; otherwise
      it changes nothing at all. */
  lemma {:induction false} FoldGetsThroughIff(d: Durable, limit: nat)
    requires Valid(d)
    ensures Valid(FoldedStore(d, limit))
    ensures FoldedStore(d, limit).cursor == PendingEnd(d.ledger, d.cursor, limit) <==> Foldable(d, limit)
    ensures !Foldable(d, limit) ==> FoldedStore(d, limit) == d
  {
    PendingIsSlice(d.ledger, d.cursor, limit);
    var top := PendingEnd(d.ledger, d.cursor, limit);
    var pending := d.ledger[d.cursor..top];
    FoldableIff(d, limit);
    if d.cursor < top {
      BatchFoldIsExact(d, d.profile, top);
      if AllAccepted(d.profile, pending) {
        FoldedStoreIs(d, limit, pending, top);
      }
    } else {
      assert Points(pending) == {};
    }
  }

  lemma {:induction false} FoldableIff(d: Durable, limit: nat)
    ensures Foldable(d, limit) <==> AllAccepted(d.profile, Pending(d.ledger, d.cursor, limit))
  {
    var pending := Pending(d.ledger, d.cursor, limit);
    forall p ensures Accepted(Lookup(d.profile, p), Unseen(d.profile, pending, p)) <==>
      IsShare(MasteryBefore(Lookup(d.profile, p))) || Scored(Unseen(d.profile, pending, p)) != []
    {
      AcceptedIff(Lookup(d.profile, p), Unseen(d.profile, pending, p));
    }
  }

  lemma {:induction false} FoldedStoreIs(d: Durable, limit: nat, pending: seq<Row>, top: nat)
    requires pending == Pending(d.ledger, d.cursor, limit) && pending != [] && AllAccepted(d.profile, pending)
    requires MaxSeq(pending) == top > d.cursor
    ensures FoldedStore(d, limit) == Durable(d.ledger, Folded(d.profile, d.profile, pending), top)
  {
  }

  /** The new rows of the named points, for those that have unseen rows. */
  function Deltas(profile: Profile, pending: seq<Row>, names: seq<string>): seq<PointDelta> {
    if names == [] then []
    else
      var earlier, p := Deltas(profile, pending, names[..|names| - 1]), names[|names| - 1];
      var unseen := Unseen(profile, pending, p);
      if unseen == [] then earlier else earlier + [PointDelta(p, DeltaOf(Lookup(profile, p), unseen))]
  }

  predicate AcceptedAt(profile: Profile, pending: seq<Row>, p: string) {
    Unseen(profile, pending, p) != [] ==> Accepted(Lookup(profile, p), Unseen(profile, pending, p))
  }

  predicate AcceptedFor(profile: Profile, pending: seq<Row>, names: seq<string>) {
    forall p :: p in names ==> AcceptedAt(profile, pending, p)
  }

  lemma {:induction false} AcceptedForAll(profile: Profile, pending: seq<Row>, names: seq<string>)
    requires ByFirstRow(pending, names)
    ensures AcceptedFor(profile, pending, names) <==> AllAccepted(profile, pending)
  {
    if AcceptedFor(profile, pending, names) {
      forall p | p in Points(pending) ensures AcceptedAt(profile, pending, p) {
        assert p in names;
      }
    } else {
      var p :| p in names && !AcceptedAt(profile, pending, p);
      assert p in Points(pending);
    }
  }

  /** The change of one more point, when there is one and it is accepted. */
  lemma {:induction false} DeltasSnoc(profile: Profile, pending: seq<Row>, names: seq<string>, p: string)
    ensures var unseen := Unseen(profile, pending, p);
      Deltas(profile, pending, names + [p]) ==
      if unseen == [] then Deltas(profile, pending, names)
      else Deltas(profile, pending, names) + [PointDelta(p, DeltaOf(Lookup(profile, p), unseen))]
    ensures AcceptedFor(profile, pending, names + [p]) <==> AcceptedFor(profile, pending, names) && AcceptedAt(profile, pending, p)
  {
    assert (names + [p])[..|names|] == names;
    if AcceptedFor(profile, pending, names + [p]) {
      assert p in names + [p];
      assert forall q :: q in names ==> q in names + [p];
    }
  }

  lemma {:induction false} RefusedAt(profile: Profile, pending: seq<Row>, names: seq<string>, p: string)
    requires p in names && !AcceptedAt(profile, pending, p)
    ensures !AcceptedFor(profile, pending, names)
  {
  }

  ghost predicate RowsGiven(groups: map<string, seq<Row>>, pending: seq<Row>, names: seq<string>) {
    forall i :: 0 <= i < |names| ==> names[i] in groups && groups[names[i]] == RowsOf(pending, names[i])
  }

  /** The changes of the named points; none when one of them is refused. */
  method DeltasOf(profile: Profile, ghost pending: seq<Row>, groups: map<string, seq<Row>>, names: seq<string>)
    returns (deltas: Option<seq<PointDelta>>)
    requires RowsGiven(groups, pending, names)
    ensures deltas == if AcceptedFor(profile, pending, names) then Some(Deltas(profile, pending, names)) else None
  {
    var made := [];
    for n := 0 to |names|
      invariant made == Deltas(profile, pending, names[..n])
      invariant AcceptedFor(profile, pending, names[..n])
    {
      var p := names[n];
      DeltasSnoc(profile, pending, names[..n], p);
      assert names[..n + 1] == names[..n] + [p];
      var unseen := After(groups[p], Watermark(Lookup(profile, p)));
      assert unseen == Unseen(profile, pending, p);
      if unseen != [] {
        var d := DeltaFor(Lookup(profile, p), unseen);
        if d.None? {
          RefusedAt(profile, pending, names, p);
          return None;
        }
        made := made + [PointDelta(p, d.value)];
      }
    }
    assert names[..|names|] == names;
    deltas := Some(made);
  }

  /** The changes of a batch; none when one of them is refused. */
  method ComputeDeltas(profile: Profile, pending: seq<Row>) returns (deltas: Option<seq<PointDelta>>, names: seq<string>)
    ensures deltas == if AllAccepted(profile, pending) then Some(Deltas(profile, pending, names)) else None
    ensures ByFirstRow(pending, names) && Distinct(names)
  {
    var groups;
    groups, names := GroupByPoint(pending);
    AcceptedForAll(profile, pending, names);
    assert RowsGiven(groups, pending, names) by {
      assert forall i :: 0 <= i < |names| ==> names[i] in names && names[i] in groups;
    }
    deltas := DeltasOf(profile, pending, groups, names);
  }

  /** Writing the computed changes one after the other touches each point once. */
  lemma {:induction false} PuttingDeltas(profile: Profile, pending: seq<Row>, names: seq<string>, p: string)
    requires Distinct(names)
    ensures var after := Put(profile, Deltas(profile, pending, names));
      Lookup(after, p) ==
      if p in names && Unseen(profile, pending, p) != [] then
        Some(Updated(Lookup(profile, p), Unseen(profile, pending, p)))
      else Lookup(profile, p)
  {
    if names != [] {
      var init, last := names[..|names| - 1], names[|names| - 1];
      PuttingDeltas(profile, pending, init, p);
      assert names == init + [last] && last !in init;
      var earlier := Deltas(profile, pending, init);
      if Unseen(profile, pending, last) != [] {
        var d := PointDelta(last, DeltaOf(Lookup(profile, last), Unseen(profile, pending, last)));
        PutSnoc(profile, earlier, d);
      }
    }
  }

  lemma {:induction false} PutSnoc(profile: Profile, deltas: seq<PointDelta>, d: PointDelta)
    ensures Put(profile, deltas + [d])
         == Put(profile, deltas)[d.point := Assigned(Lookup(Put(profile, deltas), d.point), d.delta)]
  {
    assert (deltas + [d])[..|deltas|] == deltas;
  }

  /** That is the fold of the batch. */
  lemma {:induction false} DeltasAreTheFold(profile: Profile, pending: seq<Row>, names: seq<string>)
    requires Distinct(names) && forall p :: p in names <==> p in Points(pending)
    ensures Put(profile, Deltas(profile, pending, names)) == Folded(profile, profile, pending)
  {
    var after := Put(profile, Deltas(profile, pending, names));
    var folded := Folded(profile, profile, pending);
    forall p ensures Lookup(after, p) == Lookup(folded, p) {
      PuttingDeltas(profile, pending, names, p);
    }
    SameLookups(after, folded);
  }

  lemma {:induction false} SameLookups(a: Profile, b: Profile)
    requires forall p :: Lookup(a, p) == Lookup(b, p)
    ensures a == b
  {
    forall p ensures p in a <==> p in b ensures p in a ==> a[p] == b[p] {
      assert Lookup(a, p) == Lookup(b, p);
    }
  }

  /** Fold every row past the cursor, up to the limit, and report the changed points. A refused change
      raises before anything is written. */
  method Apply(state: RuntimeState, limit: nat) returns (deltas: Option<seq<PointDelta>>)
    modifies state
    ensures state.Store() == FoldedStore(old(state.Store()), limit)
    ensures deltas.Some? <==> Foldable(old(state.Store()), limit)
    ensures deltas.Some? ==> state.profile == Put(old(state.profile), deltas.value)
  {
    var pending := state.EvidenceAfter(state.cursor, limit);
    FoldableIff(state.Store(), limit);
    if pending == [] {
      return Some([]);
    }
    var names;
    deltas, names := ComputeDeltas(state.profile, pending);
    if deltas.None? {
      return;
    }
    DeltasAreTheFold(state.profile, pending, names);
    if deltas.value != [] {
      state.ApplyProfileDeltas(deltas.value);
    }
    state.AdvanceProjectionCursor(MaxSeq(pending));
  }
}
