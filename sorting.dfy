/** The library sorts the program calls: Python's `list.sort` and
    JavaScript's `Array.prototype.sort`, both stable. A sort is given by
    `before(a, b)`, "a may come before b", which must be a total preorder;
    for a descending sort on a key, `before(a, b)` is `key(a) >= key(b)`.
    Python's `reverse=True` keeps elements with equal keys in their original
    order, so it is this same stable sort. */
module Sorting {

  /** `before` is total and transitive. */
  ghost predicate TotalPreorder<T(!new)>(before: (T, T) -> bool) {
    (forall a: T, b: T :: before(a, b) || before(b, a))
    && (forall a: T, b: T, c: T :: before(a, b) && before(b, c) ==> before(a, c))
  }

  /** Every element may come before every later one. */
  ghost predicate Sorted<T>(s: seq<T>, before: (T, T) -> bool) {
    forall i, j :: 0 <= i < j < |s| ==> before(s[i], s[j])
  }

  /** Inserting `x`, which came before every element of `s`, ahead of the
      first element it may come before: behind every element that must come
      before it, ahead of every element tied with it. */
  function Insert<T>(x: T, s: seq<T>, before: (T, T) -> bool): (r: seq<T>)
    ensures |r| == |s| + 1
    decreases |s|
  {
    if s == [] || before(x, s[0]) then [x] + s else [s[0]] + Insert(x, s[1..], before)
  }

  /** The stable sort. */
  function SortBy<T>(s: seq<T>, before: (T, T) -> bool): (r: seq<T>)
    ensures |r| == |s|
    decreases |s|
  {
    if s == [] then [] else Insert(s[0], SortBy(s[1..], before), before)
  }

  /** The elements of `s` tied with `y`, in their order. */
  function Ties<T>(s: seq<T>, y: T, before: (T, T) -> bool): seq<T>
    decreases |s|
  {
    if s == [] then []
    else (if before(s[0], y) && before(y, s[0]) then [s[0]] else []) + Ties(s[1..], y, before)
  }

  lemma {:induction false} InsertPerm<T>(x: T, s: seq<T>, before: (T, T) -> bool)
    ensures multiset(Insert(x, s, before)) == multiset(s) + multiset{x}
    ensures forall e :: e in Insert(x, s, before) <==> e == x || e in s
    decreases |s|
  {
    if s != [] && !before(x, s[0]) {
      InsertPerm(x, s[1..], before);
      assert s == [s[0]] + s[1..];
    }
  }

  lemma {:induction false} InsertSpec<T(!new)>(x: T, s: seq<T>, before: (T, T) -> bool)
    requires TotalPreorder(before) && Sorted(s, before)
    ensures Sorted(Insert(x, s, before), before)
    ensures multiset(Insert(x, s, before)) == multiset(s) + multiset{x}
    decreases |s|
  {
    InsertPerm(x, s, before);
    var r := Insert(x, s, before);
    if s == [] || before(x, s[0]) {
      forall i, j | 0 <= i < j < |r| ensures before(r[i], r[j]) {
        if i > 0 {
          assert r[i] == s[i - 1] && r[j] == s[j - 1];
        } else if j > 1 {
          assert before(s[0], s[j - 1]);
        }
      }
    } else {
      var t := Insert(x, s[1..], before);
      InsertSpec(x, s[1..], before);
      InsertPerm(x, s[1..], before);
      assert r == [s[0]] + t;
      forall j | 1 <= j < |r| ensures before(r[0], r[j]) {
        assert r[j] == t[j - 1];
        assert r[j] in t;
        if r[j] != x {
          var k :| 0 <= k < |s[1..]| && s[1..][k] == r[j];
          assert before(s[0], s[k + 1]);
        }
      }
      forall i, j | 1 <= i < j < |r| ensures before(r[i], r[j]) {
        assert r[i] == t[i - 1] && r[j] == t[j - 1];
      }
    }
  }

  /** The sort orders its input and is a permutation of it. */
  lemma {:induction false} SortBySpec<T(!new)>(s: seq<T>, before: (T, T) -> bool)
    requires TotalPreorder(before)
    ensures Sorted(SortBy(s, before), before)
    ensures multiset(SortBy(s, before)) == multiset(s)
    decreases |s|
  {
    if s != [] {
      SortBySpec(s[1..], before);
      InsertSpec(s[0], SortBy(s[1..], before), before);
      assert s == [s[0]] + s[1..];
    }
  }

  lemma {:induction false} InsertTies<T(!new)>(x: T, s: seq<T>, y: T, before: (T, T) -> bool)
    requires TotalPreorder(before)
    ensures Ties(Insert(x, s, before), y, before)
      == (if before(x, y) && before(y, x) then [x] else []) + Ties(s, y, before)
    decreases |s|
  {
    var r := Insert(x, s, before);
    if s == [] || before(x, s[0]) {
      assert r[1..] == s;
    } else {
      InsertTies(x, s[1..], y, before);
      assert r[1..] == Insert(x, s[1..], before);
      // s[0] must come strictly before x, so x and s[0] are not both tied with y
      assert !(before(x, y) && before(y, x) && before(s[0], y) && before(y, s[0]));
    }
  }

  /** The sort is stable: the elements tied with any `y` keep their order. */
  lemma {:induction false} SortByStable<T(!new)>(s: seq<T>, y: T, before: (T, T) -> bool)
    requires TotalPreorder(before)
    ensures Ties(SortBy(s, before), y, before) == Ties(s, y, before)
    decreases |s|
  {
    if s != [] {
      SortByStable(s[1..], y, before);
      InsertTies(s[0], SortBy(s[1..], before), y, before);
    }
  }

  /** Keeping the first `n` of the sorted list keeps it sorted, takes only
      elements of the input, and passes over none that must come first:
      every element of the input left out may come after every element
      kept. */
  lemma TakeSorted<T(!new)>(s: seq<T>, n: nat, before: (T, T) -> bool)
    requires TotalPreorder(before)
    ensures var r := SortBy(s, before); var k := if n < |r| then n else |r|; var kept := r[..k];
      Sorted(kept, before) && multiset(kept) <= multiset(s)
      && forall x, y :: x in kept && y in multiset(s) - multiset(kept) ==> before(x, y)
  {
    SortBySpec(s, before);
    var r := SortBy(s, before);
    var k := if n < |r| then n else |r|;
    PrefixSorted(r, k, before);
    KeptBeforeDropped(r, k, before);
  }

  lemma PrefixSorted<T>(r: seq<T>, k: nat, before: (T, T) -> bool)
    requires Sorted(r, before) && k <= |r|
    ensures Sorted(r[..k], before)
  {
    forall i, j | 0 <= i < j < k ensures before(r[..k][i], r[..k][j]) {
      assert r[..k][i] == r[i] && r[..k][j] == r[j];
    }
  }

  /** In a sorted list, each of the first `k` may come before each of the
      others; the first `k` and the others make up the list. */
  lemma KeptBeforeDropped<T>(r: seq<T>, k: nat, before: (T, T) -> bool)
    requires Sorted(r, before) && k <= |r|
    ensures multiset(r[..k]) <= multiset(r)
    ensures forall x, y :: x in r[..k] && y in multiset(r) - multiset(r[..k]) ==> before(x, y)
  {
    var kept, dropped := r[..k], r[k..];
    assert r == kept + dropped;
    assert multiset(r) - multiset(kept) == multiset(dropped);
    forall x, y | x in kept && y in multiset(r) - multiset(kept) ensures before(x, y) {
      var i :| 0 <= i < k && kept[i] == x;
      assert y in dropped;
      var j :| 0 <= j < |dropped| && dropped[j] == y;
      assert r[i] == x && r[k + j] == y;
    }
  }
}
