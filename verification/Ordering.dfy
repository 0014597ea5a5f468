/** Sorting by a descending number and then by names, the one ordering the planning layer uses. */
module Ordering {
  /** Higher ranks come first; equal ranks are ordered by the names. */
  datatype Key = Key(rank: real, names: seq<string>)

  /** Strings compared character by character; a prefix comes first. */
  predicate StringLe(a: string, b: string) {
    a == [] || (b != [] && (a[0] < b[0] || (a[0] == b[0] && StringLe(a[1..], b[1..]))))
  }

  predicate NamesLe(a: seq<string>, b: seq<string>) {
    a == [] || (b != [] && if a[0] == b[0] then NamesLe(a[1..], b[1..]) else StringLe(a[0], b[0]))
  }

  predicate Le(a: Key, b: Key) {
    a.rank > b.rank || (a.rank == b.rank && NamesLe(a.names, b.names))
  }

  // ----- A total order -----

  lemma {:induction false} StringOrder(a: string, b: string, c: string)
    ensures StringLe(a, b) || StringLe(b, a)
    ensures StringLe(a, b) && StringLe(b, a) ==> a == b
    ensures StringLe(a, b) && StringLe(b, c) ==> StringLe(a, c)
  {
    if a != [] && b != [] {
      assert a == [a[0]] + a[1..] && b == [b[0]] + b[1..];
      StringOrder(a[1..], b[1..], if c == [] then [] else c[1..]);
    }
  }

  lemma {:induction false} NamesOrder(a: seq<string>, b: seq<string>, c: seq<string>)
    ensures NamesLe(a, b) || NamesLe(b, a)
    ensures NamesLe(a, b) && NamesLe(b, a) ==> a == b
    ensures NamesLe(a, b) && NamesLe(b, c) ==> NamesLe(a, c)
  {
    if a != [] && b != [] {
      assert a == [a[0]] + a[1..] && b == [b[0]] + b[1..];
      NamesOrder(a[1..], b[1..], if c == [] then [] else c[1..]);
      StringOrder(a[0], b[0], if c == [] then [] else c[0]);
      if c != [] {
        StringOrder(b[0], a[0], c[0]);
        StringOrder(b[0], c[0], a[0]);
      }
    }
  }

  lemma {:induction false} Order(a: Key, b: Key, c: Key)
    ensures Le(a, b) || Le(b, a)
    ensures Le(a, b) && Le(b, a) ==> a == b
    ensures Le(a, b) && Le(b, c) ==> Le(a, c)
  {
    NamesOrder(a.names, b.names, c.names);
  }

  // ----- Sorting -----

  predicate Sorted<T>(s: seq<T>, key: T -> Key) {
    forall i, j :: 0 <= i < j < |s| ==> Le(key(s[i]), key(s[j]))
  }

  function Insert<T>(x: T, s: seq<T>, key: T -> Key): seq<T> {
    if s == [] || Le(key(x), key(s[0])) then [x] + s else [s[0]] + Insert(x, s[1..], key)
  }

  /** A stable sort. */
  function Sort<T>(s: seq<T>, key: T -> Key): seq<T> {
    if s == [] then [] else Insert(s[0], Sort(s[1..], key), key)
  }

  lemma {:induction false} InsertKeepsItems<T>(x: T, s: seq<T>, key: T -> Key)
    ensures multiset(Insert(x, s, key)) == multiset{x} + multiset(s)
  {
    if s != [] && !Le(key(x), key(s[0])) {
      InsertKeepsItems(x, s[1..], key);
      assert s == [s[0]] + s[1..];
    }
  }

  lemma {:induction false} InsertKeepsOrder<T>(x: T, s: seq<T>, key: T -> Key)
    requires Sorted(s, key)
    ensures Sorted(Insert(x, s, key), key)
  {
    if s != [] {
      var rest := s[1..];
      Order(key(x), key(s[0]), key(x));
      if Le(key(x), key(s[0])) {
        forall j | 0 <= j < |s| ensures Le(key(x), key(s[j])) {
          Order(key(x), key(s[0]), key(s[j]));
        }
      } else {
        InsertKeepsOrder(x, rest, key);
        var r := Insert(x, rest, key);
        InsertKeepsItems(x, rest, key);
        forall j | 0 <= j < |r| ensures Le(key(s[0]), key(r[j])) {
          assert r[j] in multiset(r);
          if r[j] != x {
            assert r[j] in rest;
            var i :| 0 <= i < |rest| && rest[i] == r[j];
            assert s[i + 1] == r[j];
          }
        }
      }
    }
  }

  lemma {:induction false} SortSorts<T>(s: seq<T>, key: T -> Key)
    ensures Sorted(Sort(s, key), key) && multiset(Sort(s, key)) == multiset(s)
  {
    if s != [] {
      SortSorts(s[1..], key);
      InsertKeepsOrder(s[0], Sort(s[1..], key), key);
      InsertKeepsItems(s[0], Sort(s[1..], key), key);
      assert s == [s[0]] + s[1..];
    }
  }

  /** Different items have different keys. */
  ghost predicate Told<T(!new)>(s: seq<T>, key: T -> Key) {
    forall x, y :: x in s && y in s && key(x) == key(y) ==> x == y
  }

  lemma {:induction false} SortedIsUnique<T(!new)>(a: seq<T>, b: seq<T>, key: T -> Key)
    requires Sorted(a, key) && Sorted(b, key) && multiset(a) == multiset(b) && Told(a, key)
    ensures a == b
  {
    assert |multiset(a)| == |multiset(b)|;
    if a != [] {
      SameFirst(a, b, key);
      RestOf(a);
      RestOf(b);
      SortedIsUnique(a[1..], b[1..], key);
    }
  }

  lemma {:induction false} RestOf<T>(s: seq<T>)
    requires s != []
    ensures s == [s[0]] + s[1..] && multiset(s[1..]) == multiset(s) - multiset{s[0]}
    ensures forall x :: x in s[1..] ==> x in s
  {
    assert s == [s[0]] + s[1..];
  }

  lemma {:induction false} SameFirst<T(!new)>(a: seq<T>, b: seq<T>, key: T -> Key)
    requires Sorted(a, key) && Sorted(b, key) && multiset(a) == multiset(b) && Told(a, key) && a != [] && b != []
    ensures a[0] == b[0]
  {
    assert a[0] in multiset(b) && b[0] in multiset(a);
    FirstIsLeast(a, b[0], key);
    FirstIsLeast(b, a[0], key);
    Order(key(a[0]), key(b[0]), key(a[0]));
  }

  lemma {:induction false} FirstIsLeast<T>(s: seq<T>, x: T, key: T -> Key)
    requires Sorted(s, key) && x in s
    ensures Le(key(s[0]), key(x))
  {
    Order(key(x), key(x), key(x));
  }

  /** Sorting depends only on what is sorted, not on the order it came in. */
  lemma {:induction false} SortForgetsOrder<T(!new)>(s: seq<T>, t: seq<T>, key: T -> Key)
    requires multiset(s) == multiset(t) && Told(s, key)
    ensures Sort(s, key) == Sort(t, key)
  {
    SortSorts(s, key);
    SortSorts(t, key);
    assert forall x :: x in Sort(s, key) ==> x in multiset(s);
    SortedIsUnique(Sort(s, key), Sort(t, key), key);
  }

  // ----- Ties keep their order -----

  /** The finer key settles every tie of the other one the way the items already lie. */
  ghost predicate Settles<T(!new)>(s: seq<T>, key: T -> Key, fine: T -> Key) {
    && (forall x, y :: x in s && y in s && key(x) != key(y) && Le(key(x), key(y)) ==> Le(fine(x), fine(y)))
    && (forall i, j :: 0 <= i < j < |s| && key(s[i]) == key(s[j]) ==> Le(fine(s[i]), fine(s[j])))
  }

  lemma {:induction false} InsertIsStable<T(!new)>(x: T, s: seq<T>, key: T -> Key, fine: T -> Key)
    requires Sorted(s, key) && Sorted(s, fine)
    requires forall y :: y in s && Le(key(x), key(y)) ==> Le(fine(x), fine(y))
    requires forall y :: y in s && key(x) != key(y) && Le(key(y), key(x)) ==> Le(fine(y), fine(x))
    ensures Sorted(Insert(x, s, key), fine)
  {
    if s != [] {
      var rest := s[1..];
      Order(key(x), key(s[0]), key(x));
      if Le(key(x), key(s[0])) {
        forall j | 0 <= j < |s| ensures Le(fine(x), fine(s[j])) {
          Order(key(x), key(s[0]), key(s[j]));
        }
      } else {
        InsertIsStable(x, rest, key, fine);
        var r := Insert(x, rest, key);
        InsertKeepsItems(x, rest, key);
        forall j | 0 <= j < |r| ensures Le(fine(s[0]), fine(r[j])) {
          assert r[j] in multiset(r);
          if r[j] != x {
            var i :| 0 <= i < |rest| && rest[i] == r[j];
            assert s[i + 1] == r[j];
          }
        }
      }
    }
  }

  /** The sort is stable: it orders by the finer key, too. */
  lemma {:induction false} SortIsStable<T(!new)>(s: seq<T>, key: T -> Key, fine: T -> Key)
    requires Settles(s, key, fine)
    ensures Sorted(Sort(s, key), fine)
  {
    if s != [] {
      var x, rest := s[0], s[1..];
      assert s == [x] + rest;
      forall i, j | 0 <= i < j < |rest| && key(rest[i]) == key(rest[j]) ensures Le(fine(rest[i]), fine(rest[j])) {
        assert s[i + 1] == rest[i] && s[j + 1] == rest[j];
      }
      SortIsStable(rest, key, fine);
      SortSorts(rest, key);
      forall y | y in Sort(rest, key)
        ensures Le(key(x), key(y)) ==> Le(fine(x), fine(y))
        ensures key(x) != key(y) && Le(key(y), key(x)) ==> Le(fine(y), fine(x))
      {
        assert y in multiset(rest);
        var i :| 0 <= i < |rest| && rest[i] == y;
        assert s[i + 1] == y;
      }
      InsertIsStable(x, Sort(rest, key), key, fine);
    }
  }

  lemma {:induction false} NamesSnoc(a: seq<string>, b: seq<string>, x: string, y: string)
    requires |a| == |b| && NamesLe(a, b)
    ensures a != b || StringLe(x, y) ==> NamesLe(a + [x], b + [y])
    decreases |a|
  {
    StringOrder(x, y, x);
    if a != [] {
      assert (a + [x])[1..] == a[1..] + [x] && (b + [y])[1..] == b[1..] + [y];
      assert a == [a[0]] + a[1..] && b == [b[0]] + b[1..];
      if a[0] == b[0] {
        NamesSnoc(a[1..], b[1..], x, y);
      }
    }
  }

  // ----- What a loop collects -----

  function Bag<S, T>(s: seq<S>, f: S -> multiset<T>): multiset<T> {
    if s == [] then multiset{} else Bag(s[..|s| - 1], f) + f(s[|s| - 1])
  }

  lemma {:induction false} SameBags<S, T>(s: seq<S>, f: S -> multiset<T>, g: S -> multiset<T>)
    requires forall x :: x in s ==> f(x) == g(x)
    ensures Bag(s, f) == Bag(s, g)
  {
    if s != [] {
      SameBags(s[..|s| - 1], f, g);
    }
  }

  lemma {:induction false} BagWithout<S, T>(s: seq<S>, k: nat, f: S -> multiset<T>)
    requires k < |s|
    ensures Bag(s, f) == Bag(s[..k] + s[k + 1..], f) + f(s[k])
  {
    var init, rest := s[..|s| - 1], s[..k] + s[k + 1..];
    if k == |s| - 1 {
      assert rest == init;
    } else {
      BagWithout(init, k, f);
      assert rest[..|rest| - 1] == init[..k] + init[k + 1..];
    }
  }

  /** What is collected over some items does not depend on their order. */
  lemma {:induction false} BagForgetsOrder<S, T>(s: seq<S>, t: seq<S>, f: S -> multiset<T>)
    requires multiset(s) == multiset(t)
    ensures Bag(s, f) == Bag(t, f)
  {
    assert |multiset(s)| == |multiset(t)|;
    if s != [] {
      var init, last := s[..|s| - 1], s[|s| - 1];
      assert s == init + [last];
      assert last in multiset(t);
      var k :| 0 <= k < |t| && t[k] == last;
      var rest := t[..k] + t[k + 1..];
      assert t == t[..k] + [last] + t[k + 1..];
      assert multiset(init) == multiset(s) - multiset{last} && multiset(rest) == multiset(t) - multiset{last};
      BagForgetsOrder(init, rest, f);
      BagWithout(t, k, f);
    }
  }

  // ----- Selecting -----

  function Filter<T(!new)>(s: seq<T>, keep: T -> bool): (r: seq<T>)
    ensures forall x :: x in r <==> x in s && keep(x)
  {
    if s == [] then [] else (if keep(s[0]) then [s[0]] else []) + Filter(s[1..], keep)
  }

  lemma {:induction false} FilterCounts<T(!new)>(s: seq<T>, keep: T -> bool, x: T)
    ensures multiset(Filter(s, keep))[x] == if keep(x) then multiset(s)[x] else 0
  {
    if s != [] {
      FilterCounts(s[1..], keep, x);
      assert s == [s[0]] + s[1..];
    }
  }

  /** One list holds exactly the wanted items of another, in any order. */
  ghost predicate Selects<T(!new)>(part: seq<T>, whole: seq<T>, keep: T -> bool) {
    forall x {:trigger multiset(part)[x]} {:trigger multiset(whole)[x]} ::
      multiset(part)[x] == if keep(x) then multiset(whole)[x] else 0
  }

  lemma {:induction false} SelectedAre<T(!new)>(part: seq<T>, whole: seq<T>, keep: T -> bool, x: T)
    requires Selects(part, whole, keep)
    ensures x in part <==> x in whole && keep(x)
  {
    assert x in part <==> multiset(part)[x] > 0;
    assert x in whole <==> multiset(whole)[x] > 0;
  }

  lemma {:induction false} FilterSelects<T(!new)>(s: seq<T>, keep: T -> bool)
    ensures Selects(Filter(s, keep), s, keep)
  {
    forall x ensures multiset(Filter(s, keep))[x] == if keep(x) then multiset(s)[x] else 0 {
      FilterCounts(s, keep, x);
    }
  }

  /** Selecting from a selection. */
  lemma {:induction false} SelectsTwice<T(!new)>(part: seq<T>, middle: seq<T>, whole: seq<T>, inner: T -> bool, outer: T -> bool, both: T -> bool)
    requires Selects(middle, whole, outer) && Selects(part, middle, inner)
    requires forall x :: x in whole ==> both(x) == (outer(x) && inner(x))
    ensures Selects(part, whole, both)
  {
    forall x ensures multiset(part)[x] == if both(x) then multiset(whole)[x] else 0 {
      assert x in whole <==> multiset(whole)[x] > 0;
      assert multiset(middle)[x] == if outer(x) then multiset(whole)[x] else 0;
    }
  }

  lemma {:induction false} FilterLength<T(!new)>(s: seq<T>, keep: T -> bool)
    ensures |Filter(s, keep)| <= |s|
    ensures (exists x :: x in s && !keep(x)) ==> |Filter(s, keep)| < |s|
  {
    if s != [] {
      FilterLength(s[1..], keep);
    }
  }
}
