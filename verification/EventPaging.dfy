/** Loading every event of an execution, page by page, from a repository that need not behave. */
module EventPaging {
  import opened Wrappers

  const PAGE_SIZE := 5000

  /** What a repository may put in a page: junk, or a row with or without a readable sequence. */
  datatype Raw = NotARow | Row(sequence: Option<int>, body: string)

  /** The page for one call: the call's number and the cursor. */
  type Repository = (nat, int) -> seq<Raw>

  predicate Numbered(r: Raw) {
    r.Row? && r.sequence.Some?
  }

  function Sequences(rows: seq<Raw>): seq<int> {
    if rows == [] then []
    else
      var init, last := Sequences(rows[..|rows| - 1]), rows[|rows| - 1];
      if Numbered(last) then init + [last.sequence.value] else init
  }

  /** The rows of the first `n` that are new: numbered rows only once and only after the cursor. */
  function Kept(page: seq<Raw>, n: nat, cursor: int, seen: set<int>): seq<Raw>
    requires n <= |page|
  {
    if n == 0 then []
    else
      var rest, raw := Kept(page, n - 1, cursor, seen), page[n - 1];
      if raw.NotARow? then rest
      else if raw.sequence.None? then rest + [raw]
      else if raw.sequence.value <= cursor || raw.sequence.value in seen || raw.sequence.value in Sequences(rest) then rest
      else rest + [raw]
  }

  function MaxOf(xs: seq<int>, default_: int): int {
    if xs == [] then default_ else Later(xs[0], MaxOf(xs[1..], xs[0]))
  }

  function Later(a: int, b: int): int {
    if a < b then b else a
  }

  /** No sequence number occurs twice. */
  ghost predicate Distinct(xs: seq<int>) {
    forall i, j :: 0 <= i < j < |xs| ==> xs[i] != xs[j]
  }

  ghost predicate Bounded(fetch: Repository, bound: int) {
    forall call: nat, cursor, k :: 0 <= k < |fetch(call, cursor)| && Numbered(fetch(call, cursor)[k]) ==>
      fetch(call, cursor)[k].sequence.value <= bound
  }

  // ----- One page -----

  lemma {:induction false} SequencesSnoc(rows: seq<Raw>, last: Raw)
    ensures Sequences(rows + [last]) == if Numbered(last) then Sequences(rows) + [last.sequence.value] else Sequences(rows)
  {
    assert (rows + [last])[..|rows|] == rows;
  }

  lemma {:induction false} SequencesAppend(a: seq<Raw>, b: seq<Raw>)
    ensures Sequences(a + b) == Sequences(a) + Sequences(b)
  {
    if b == [] {
      assert a + b == a;
    } else {
      var init, last := b[..|b| - 1], b[|b| - 1];
      SequencesAppend(a, init);
      assert a + b == (a + init) + [last];
      SequencesSnoc(a + init, last);
    }
  }

  /** The numbers kept are new, distinct and beyond the cursor. */
  lemma {:induction false} KeptAreNew(page: seq<Raw>, n: nat, cursor: int, seen: set<int>)
    requires n <= |page|
    ensures AreNew(Sequences(Kept(page, n, cursor, seen)), cursor, seen)
  {
    if n > 0 {
      KeptAreNew(page, n - 1, cursor, seen);
      var kept, raw := Kept(page, n - 1, cursor, seen), page[n - 1];
      SequencesSnoc(kept, raw);
      if Numbered(raw) {
        OneMoreNew(Sequences(kept), raw.sequence.value, cursor, seen);
      }
    }
  }

  ghost predicate AreNew(xs: seq<int>, cursor: int, seen: set<int>) {
    Distinct(xs) && forall x :: x in xs ==> x > cursor && x !in seen
  }

  lemma {:induction false} OneMoreNew(xs: seq<int>, x: int, cursor: int, seen: set<int>)
    requires AreNew(xs, cursor, seen)
    ensures x > cursor && x !in seen && x !in xs ==> AreNew(xs + [x], cursor, seen)
  {
  }

  lemma {:induction false} KeptAreFetched(page: seq<Raw>, n: nat, cursor: int, seen: set<int>, x: int)
    requires n <= |page| && x in Sequences(Kept(page, n, cursor, seen))
    ensures exists k :: 0 <= k < n && Numbered(page[k]) && page[k].sequence.value == x
  {
    if n > 0 {
      SequencesSnoc(Kept(page, n - 1, cursor, seen), page[n - 1]);
      if x in Sequences(Kept(page, n - 1, cursor, seen)) {
        KeptAreFetched(page, n - 1, cursor, seen, x);
      }
    }
  }

  lemma {:induction false} MaxIsReached(xs: seq<int>, default_: int)
    requires xs != []
    ensures MaxOf(xs, default_) in xs && forall x :: x in xs ==> x <= MaxOf(xs, default_)
  {
    if |xs| > 1 {
      MaxIsReached(xs[1..], xs[0]);
    }
    assert xs == [xs[0]] + xs[1..];
  }

  /** The next cursor either stays or is a fetched number beyond the cursor. */
  lemma {:induction false} NextCursor(fetch: Repository, call: nat, cursor: int, seen: set<int>, bound: int)
    requires Bounded(fetch, bound)
    ensures var page := fetch(call, cursor);
      var next := MaxOf(Sequences(Kept(page, |page|, cursor, seen)), cursor);
      next > cursor ==> next <= bound
  {
    var page := fetch(call, cursor);
    var xs := Sequences(Kept(page, |page|, cursor, seen));
    if xs != [] {
      MaxIsReached(xs, cursor);
      KeptAreFetched(page, |page|, cursor, seen, MaxOf(xs, cursor));
    }
  }

  /** Keep the new rows of a page. */
  method TakePage(page: seq<Raw>, cursor: int, seen: set<int>) returns (rows: seq<Raw>, pageSequences: seq<int>, seenNow: set<int>)
    ensures rows == Kept(page, |page|, cursor, seen) && pageSequences == Sequences(rows)
    ensures seenNow == seen + set x | x in pageSequences
  {
    rows, pageSequences, seenNow := [], [], seen;
    for n := 0 to |page|
      invariant rows == Kept(page, n, cursor, seen) && pageSequences == Sequences(rows)
      invariant seenNow == seen + set x | x in pageSequences
    {
      var raw := page[n];
      if raw.Row? {
        SequencesSnoc(rows, raw);
        if raw.sequence.None? {
          rows := rows + [raw];
        } else if raw.sequence.value > cursor && raw.sequence.value !in seenNow {
          seenNow := seenNow + {raw.sequence.value};
          pageSequences := pageSequences + [raw.sequence.value];
          rows := rows + [raw];
        }
      }
    }
  }

  // ----- A repository that serves a log -----

  /** Numbered rows in strictly ascending order, from 1 on. */
  ghost predicate IsLog(log: seq<Raw>) {
    && (forall i :: 0 <= i < |log| ==> Numbered(log[i]) && log[i].sequence.value > 0)
    && (forall i, j :: 0 <= i < j < |log| ==> log[i].sequence.value < log[j].sequence.value)
  }

  /** How many of the first `n` rows are at or before the cursor. */
  function Passed(log: seq<Raw>, n: nat, cursor: int): (k: nat)
    requires n <= |log|
    ensures k <= n
  {
    if n == 0 then 0
    else Passed(log, n - 1, cursor) + if Numbered(log[n - 1]) && log[n - 1].sequence.value <= cursor then 1 else 0
  }

  function Shorter(a: nat, b: nat): nat {
    if a < b then a else b
  }

  /** The first `PAGE_SIZE` rows after the cursor. */
  function PageAfter(log: seq<Raw>, cursor: int): seq<Raw> {
    var k := Passed(log, |log|, cursor);
    log[k..Shorter(k + PAGE_SIZE, |log|)]
  }

  ghost predicate Serves(fetch: Repository, log: seq<Raw>) {
    IsLog(log) && forall call: nat, cursor :: fetch(call, cursor) == PageAfter(log, cursor)
  }

  /** The cursor after `k` rows. */
  ghost function CursorAt(log: seq<Raw>, k: nat): int
    requires IsLog(log) && k <= |log|
  {
    if k == 0 then 0 else log[k - 1].sequence.value
  }

  lemma {:induction false} CursorsAscend(log: seq<Raw>, i: nat, j: nat)
    requires IsLog(log) && i < j <= |log|
    ensures CursorAt(log, i) < CursorAt(log, j)
  {
  }

  lemma {:induction false} PassedAtCursor(log: seq<Raw>, n: nat, k: nat)
    requires IsLog(log) && n <= |log| && k <= |log|
    ensures Passed(log, n, CursorAt(log, k)) == Shorter(n, k)
  {
    if n > 0 {
      PassedAtCursor(log, n - 1, k);
      assert log[n - 1].sequence.value <= CursorAt(log, k) <==> n <= k;
    }
  }

  ghost predicate AtMost(xs: seq<int>, limit: int) {
    forall i :: 0 <= i < |xs| ==> xs[i] <= limit
  }

  lemma {:induction false} LogSequences(log: seq<Raw>, from: nat, n: nat)
    requires IsLog(log) && from + n <= |log|
    ensures |Sequences(log[from..from + n])| == n && AtMost(Sequences(log[from..from + n]), CursorAt(log, from + n))
    ensures n > 0 ==> Sequences(log[from..from + n])[n - 1] == CursorAt(log, from + n)
  {
    if n > 0 {
      LogSequencesSnoc(log, from, n);
      CursorsAscend(log, from + n - 1, from + n);
      LogSequences(log, from, n - 1);
    }
  }

  lemma {:induction false} LogSequencesSnoc(log: seq<Raw>, from: nat, n: nat)
    requires IsLog(log) && from + n <= |log| && n > 0
    ensures Sequences(log[from..from + n]) == Sequences(log[from..from + n - 1]) + [CursorAt(log, from + n)]
  {
    assert log[from..from + n] == log[from..from + n - 1] + [log[from + n - 1]];
    SequencesSnoc(log[from..from + n - 1], log[from + n - 1]);
  }

  /** A page of a log is new as a whole. */
  lemma {:induction false} LogPageIsKept(log: seq<Raw>, from: nat, to: nat, n: nat, seen: set<int>)
    requires IsLog(log) && from <= to <= |log| && n <= to - from
    requires forall x :: x in seen ==> x <= CursorAt(log, from)
    ensures Kept(log[from..to], n, CursorAt(log, from), seen) == log[from..from + n]
  {
    if n > 0 {
      var raw := log[from + n - 1];
      assert log[from..to][n - 1] == raw && log[from..from + n] == log[from..from + n - 1] + [raw];
      LogPageIsKept(log, from, to, n - 1, seen);
      NextOfLogIsNew(log, from, n, seen);
    }
  }

  lemma {:induction false} NextOfLogIsNew(log: seq<Raw>, from: nat, n: nat, seen: set<int>)
    requires IsLog(log) && 0 < n && from + n <= |log|
    requires forall x :: x in seen ==> x <= CursorAt(log, from)
    ensures var raw := log[from + n - 1];
      && Numbered(raw) && raw.sequence.value > CursorAt(log, from) && raw.sequence.value !in seen
      && raw.sequence.value !in Sequences(log[from..from + n - 1])
  {
    LogSequences(log, from, n - 1);
    CursorsAscend(log, from + n - 1, from + n);
    CursorsAscend(log, from, from + n);
    assert log[from + n - 1].sequence.value == CursorAt(log, from + n);
  }

  /** One page further through a log. */
  lemma {:induction false} LogPage(log: seq<Raw>, k: nat, seen: set<int>) returns (page: seq<Raw>, to: nat)
    requires IsLog(log) && k <= |log| && forall x :: x in seen ==> x <= CursorAt(log, k)
    ensures to == Shorter(k + PAGE_SIZE, |log|) && page == log[k..to] && page == PageAfter(log, CursorAt(log, k))
    ensures Kept(page, |page|, CursorAt(log, k), seen) == page && AtMost(Sequences(page), CursorAt(log, to))
    ensures to > k ==> MaxOf(Sequences(page), CursorAt(log, k)) == CursorAt(log, to) > CursorAt(log, k)
  {
    to := Shorter(k + PAGE_SIZE, |log|);
    page := log[k..to];
    PassedAtCursor(log, |log|, k);
    var n := to - k;
    assert page == log[k..k + n];
    if n > 0 {
      LargestOfLog(log, k, n);
      CursorsAscend(log, k, to);
    }
    LogPageIsKept(log, k, to, n, seen);
  }

  lemma {:induction false} LargestOfLog(log: seq<Raw>, from: nat, n: nat)
    requires IsLog(log) && from + n <= |log| && n > 0
    ensures AtMost(Sequences(log[from..from + n]), CursorAt(log, from + n))
    ensures MaxOf(Sequences(log[from..from + n]), CursorAt(log, from)) == CursorAt(log, from + n)
  {
    LogSequences(log, from, n);
    var xs := Sequences(log[from..from + n]);
    MaxIsReached(xs, CursorAt(log, from));
    assert xs[n - 1] in xs;
  }

  /** How many rows are loaded from a log of `n` rows: loading stops at the first page that
      reaches the expected count, or at the log's end. */
  function Stop(n: nat, expected: Option<nat>): nat {
    if expected.None? || expected.value >= n then n
    else if expected.value == 0 then Shorter(PAGE_SIZE, n)
    else Shorter((expected.value + PAGE_SIZE - 1) / PAGE_SIZE * PAGE_SIZE, n)
  }

  /** The whole log is loaded if and only if no count is known or the pages that reach it hold
      the whole log. */
  lemma {:induction false} WholeLogIff(n: nat, expected: Option<nat>)
    ensures Stop(n, expected) == n <==>
      expected.None? || n <= expected.value || n <= PAGE_SIZE || (n - 1) / PAGE_SIZE == (expected.value - 1) / PAGE_SIZE
  {
  }

  // ----- The loader -----

  /** Where a loader of a log stands after some full pages. */
  ghost predicate OnLog(log: seq<Raw>, expected: Option<nat>, records: seq<Raw>, cursor: int, seen: set<int>)
    requires IsLog(log)
  {
    && |records| <= |log| && records == log[..|records|] && |records| % PAGE_SIZE == 0
    && cursor == CursorAt(log, |records|)
    && (forall x :: x in seen ==> x <= cursor)
    && (expected.Some? ==> |records| == 0 || |records| < expected.value)
  }

  ghost predicate IsSeen(records: seq<Raw>, seen: set<int>) {
    Distinct(Sequences(records)) && forall x :: x in seen <==> x in Sequences(records)
  }

  lemma {:induction false} DistinctAppend(a: seq<int>, b: seq<int>)
    requires Distinct(a) && Distinct(b) && forall x :: x in b ==> x !in a
    ensures Distinct(a + b)
  {
    forall i, j | 0 <= i < j < |a + b| ensures (a + b)[i] != (a + b)[j] {
      if i < |a| <= j {
        assert b[j - |a|] in b;
      }
    }
  }

  lemma {:induction false} PageKeepsSeen(records: seq<Raw>, rows: seq<Raw>, page: seq<Raw>, cursor: int, seen: set<int>)
    requires IsSeen(records, seen) && rows == Kept(page, |page|, cursor, seen)
    ensures IsSeen(records + rows, seen + set x | x in Sequences(rows))
  {
    SequencesAppend(records, rows);
    KeptAreNew(page, |page|, cursor, seen);
    DistinctAppend(Sequences(records), Sequences(rows));
  }

  /** Loading stops where it should. */
  lemma {:induction false} StopHere(n: nat, k: nat, expected: Option<nat>)
    requires k <= n && k % PAGE_SIZE == 0 && (expected.Some? ==> k == 0 || k < expected.value)
    ensures k == n ==> Stop(n, expected) == n
    ensures var to := Shorter(k + PAGE_SIZE, n);
      k < n && ((expected.Some? && to >= expected.value) || to - k < PAGE_SIZE) ==>
        Stop(n, expected) == to && (to - k < PAGE_SIZE ==> to == n)
  {
  }

  /** One round of the loop on a log: the page is kept whole, and then either loading stops or
      the loader stands one page further. */
  lemma {:induction false} LogRound(log: seq<Raw>, expected: Option<nat>, records: seq<Raw>, cursor: int, seen: set<int>)
    requires IsLog(log) && OnLog(log, expected, records, cursor, seen)
    ensures var page, k := PageAfter(log, cursor), |records|;
      var to := Shorter(k + PAGE_SIZE, |log|);
      && |page| == to - k && Kept(page, |page|, cursor, seen) == page && records + page == log[..to]
      && (to > k ==> MaxOf(Sequences(page), cursor) == CursorAt(log, to) > cursor)
      && AtMost(Sequences(page), CursorAt(log, to))
  {
    var k := |records|;
    var to := Shorter(k + PAGE_SIZE, |log|);
    assert log[..k] + log[k..to] == log[..to];
    var page, _ := LogPage(log, k, seen);
  }

  lemma {:induction false} NextRound(log: seq<Raw>, expected: Option<nat>, records: seq<Raw>, cursor: int, seen: set<int>)
    requires IsLog(log) && OnLog(log, expected, records, cursor, seen)
    requires |PageAfter(log, cursor)| == PAGE_SIZE
    requires expected.Some? ==> |records| + PAGE_SIZE < expected.value
    ensures var page := PageAfter(log, cursor);
      OnLog(log, expected, records + page, MaxOf(Sequences(page), cursor), seen + set x | x in Sequences(page))
  {
    LogRound(log, expected, records, cursor, seen);
    var page, next := PageAfter(log, cursor), MaxOf(Sequences(PageAfter(log, cursor)), cursor);
    SeenAtMost(seen, Sequences(page), cursor, next);
  }

  lemma {:induction false} SeenAtMost(seen: set<int>, sequences: seq<int>, cursor: int, next: int)
    requires (forall x :: x in seen ==> x <= cursor) && cursor <= next && AtMost(sequences, next)
    ensures (forall x :: x in seen ==> x <= next) && forall x :: x in sequences ==> x <= next
  {
    forall x | x in sequences ensures x <= next {
      var i :| 0 <= i < |sequences| && sequences[i] == x;
    }
  }

  /** The page is the last one that is asked for. */
  predicate IsLast(page: seq<Raw>, records: seq<Raw>, expected: Option<nat>) {
    |page| < PAGE_SIZE || (expected.Some? && |records| + |page| >= expected.value)
  }

  /** What one round on a log comes to: loading stops where it should, or goes on. */
  lemma {:induction false} LogStep(log: seq<Raw>, expected: Option<nat>, records: seq<Raw>, cursor: int, seen: set<int>)
    requires IsLog(log) && OnLog(log, expected, records, cursor, seen)
    ensures var page := PageAfter(log, cursor);
      && Kept(page, |page|, cursor, seen) == page && |records| + |page| <= |log|
      && (|page| < PAGE_SIZE ==> |records| + |page| == |log|)
      && (IsLast(page, records, expected) ==> records + page == log[..Stop(|log|, expected)])
      && (!IsLast(page, records, expected) ==>
            MaxOf(Sequences(page), cursor) > cursor
            && OnLog(log, expected, records + page, MaxOf(Sequences(page), cursor), seen + set x | x in Sequences(page)))
  {
    LogRound(log, expected, records, cursor, seen);
    StopHere(|log|, |records|, expected);
    var page := PageAfter(log, cursor);
    if !IsLast(page, records, expected) {
      NextRound(log, expected, records, cursor, seen);
    }
  }

  /** Whatever the repository answers, loading ends, no numbered row is loaded twice, and it is
      reported complete exactly when it is not truncated. From a log, it loads the first rows in
      order, up to the page that reaches the expected count. */
  method Load(fetch: Repository, expected: Option<nat>, ghost bound: int, ghost log: Option<seq<Raw>>)
    returns (records: seq<Raw>, truncated: bool, complete: bool)
    requires Bounded(fetch, bound)
    requires log.Some? ==> Serves(fetch, log.value)
    ensures Distinct(Sequences(records))
    ensures complete <==> !truncated
    ensures complete && expected.Some? ==> |records| >= expected.value
    ensures log.Some? ==> records == log.value[..Stop(|log.value|, expected)]
    ensures log.Some? ==> (complete <==> expected.None? || expected.value <= |log.value|)
  {
    var seen: set<int>, cursor, call := {}, 0, 0;
    records, truncated := [], false;
    while true
      invariant IsSeen(records, seen) && !truncated
      invariant log.Some? ==> OnLog(log.value, expected, records, cursor, seen)
      decreases Later(0, bound - cursor)
    {
      var page := fetch(call, cursor);
      if log.Some? {
        LogStep(log.value, expected, records, cursor, seen);
      }
      if page == [] {
        truncated := expected.Some? && |records| < expected.value;
        break;
      }
      var rows, pageSequences, seenNow := TakePage(page, cursor, seen);
      PageKeepsSeen(records, rows, page, cursor, seen);
      NextCursor(fetch, call, cursor, seen, bound);
      if rows == [] {
        truncated := true;
        break;
      }
      records := records + rows;
      var next := MaxOf(pageSequences, cursor);
      if expected.Some? && |records| >= expected.value {
        break;
      }
      if |page| < PAGE_SIZE {
        truncated := expected.Some?;
        break;
      }
      if next <= cursor {
        truncated := true;
        break;
      }
      cursor, seen, call := next, seenNow, call + 1;
    }
    complete := !truncated && (expected.None? || |records| >= expected.value);
    if expected.Some? && |records| < expected.value {
      truncated, complete := true, false;
    }
  }
}
