/** Python's stable sort with reverse=True, keyed by a number: the scripts rank
    hotspots, locations, cities and category counts this way. Modelled by an insertion
    sort that puts each element before the first element whose key is not larger, so
    elements with equal keys keep their input order. */
module Sorting {
  import opened Seqs

  predicate SortedDesc<T>(s: seq<T>, key: T -> real) {
    forall i, j :: 0 <= i < j < |s| ==> key(s[i]) >= key(s[j])
  }

  predicate SortedAsc(s: seq<real>) {
    forall i, j :: 0 <= i < j < |s| ==> s[i] <= s[j]
  }

  /** The test "has key v", used to state stability. */
  function KeyIs<T>(key: T -> real, v: real): T -> bool {
    y => key(y) == v
  }

  function Insert<T(==)>(x: T, s: seq<T>, key: T -> real): (r: seq<T>)
    ensures |r| == |s| + 1
    ensures multiset(r) == multiset(s) + multiset{x}
    ensures forall i :: 0 <= i < |r| ==> r[i] == x || r[i] in s
  {
    if s == [] || key(x) >= key(s[0]) then [x] + s
    else
      assert s == [s[0]] + s[1..];
      [s[0]] + Insert(x, s[1..], key)
  }

  lemma {:induction false} InsertSorted<T>(x: T, s: seq<T>, key: T -> real)
    requires SortedDesc(s, key)
    ensures SortedDesc(Insert(x, s, key), key)
    decreases |s|
  {
    if s != [] && key(x) < key(s[0]) {
      var rest := Insert(x, s[1..], key);
      InsertSorted(x, s[1..], key);
      var r := Insert(x, s, key);
      assert r == [s[0]] + rest;
      forall j | 0 < j < |r|
        ensures key(r[0]) >= key(r[j])
      {
        assert r[j] == rest[j - 1];
        if rest[j - 1] != x {
          var k :| 0 <= k < |s[1..]| && s[1..][k] == rest[j - 1];
          assert s[k + 1] == r[j];
        }
      }
    }
  }

  /** sorted(s, key=key, reverse=True). */
  function SortDesc<T(==)>(s: seq<T>, key: T -> real): (r: seq<T>)
    ensures |r| == |s|
    ensures multiset(r) == multiset(s)
    ensures SortedDesc(r, key)
  {
    if s == [] then []
    else
      assert s == [s[0]] + s[1..];
      InsertSorted(s[0], SortDesc(s[1..], key), key);
      Insert(s[0], SortDesc(s[1..], key), key)
  }

  lemma SortDescMembers<T>(s: seq<T>, key: T -> real)
    ensures forall i :: 0 <= i < |s| ==> s[i] in SortDesc(s, key)
    ensures forall i :: 0 <= i < |s| ==> SortDesc(s, key)[i] in s
  {
    var r := SortDesc(s, key);
    assert forall i :: 0 <= i < |s| ==> s[i] in multiset(r);
    assert forall i :: 0 <= i < |s| ==> r[i] in multiset(s);
  }

  /** The part of Filter contributed by one element. */
  function Keep<T>(y: T, p: T -> bool): seq<T> {
    if p(y) then [y] else []
  }

  lemma FilterCons<T>(y: T, s: seq<T>, p: T -> bool)
    ensures Filter([y] + s, p) == Keep(y, p) + Filter(s, p)
  {
    assert ([y] + s)[1..] == s;
  }

  lemma {:induction false} InsertStable<T>(x: T, s: seq<T>, key: T -> real, v: real)
    requires SortedDesc(s, key)
    ensures Filter(Insert(x, s, key), KeyIs(key, v)) == Filter([x] + s, KeyIs(key, v))
    decreases |s|
  {
    var p := KeyIs(key, v);
    if s != [] && key(x) < key(s[0]) {
      SortedDescTail(s, key);
      InsertStable(x, s[1..], key, v);
      InsertedBehind(x, s, key, p);
      FilterOfTwo(x, s, p);
      // key(s[0]) > key(x): at most one of them has key v, so their order in the
      // filtered sequence does not matter.
      KeepSwap(x, s[0], key, v);
      SwapFront(Keep(s[0], p), Keep(x, p), Filter(s[1..], p));
    } else {
      InsertFront(x, s, key);
    }
  }

  lemma SwapFront<T>(a: seq<T>, b: seq<T>, c: seq<T>)
    requires a + b == b + a
    ensures a + (b + c) == b + (a + c)
  {
    assert a + (b + c) == (a + b) + c;
    assert b + (a + c) == (b + a) + c;
  }

  /** An element at least as large as the first goes in front. */
  lemma InsertFront<T>(x: T, s: seq<T>, key: T -> real)
    requires s == [] || key(x) >= key(s[0])
    ensures Insert(x, s, key) == [x] + s
  {
  }

  /** Filtering an element inserted behind the first one. */
  lemma InsertedBehind<T>(x: T, s: seq<T>, key: T -> real, p: T -> bool)
    requires s != [] && key(x) < key(s[0])
    requires Filter(Insert(x, s[1..], key), p) == Filter([x] + s[1..], p)
    ensures Filter(Insert(x, s, key), p) == Keep(s[0], p) + (Keep(x, p) + Filter(s[1..], p))
  {
    InsertCons(x, s, key);
    FilterCons(s[0], Insert(x, s[1..], key), p);
    FilterCons(x, s[1..], p);
  }

  /** Filtering x followed by s. */
  lemma FilterOfTwo<T>(x: T, s: seq<T>, p: T -> bool)
    requires s != []
    ensures Filter([x] + s, p) == Keep(x, p) + (Keep(s[0], p) + Filter(s[1..], p))
  {
    FilterCons(s[0], s[1..], p);
    assert [s[0]] + s[1..] == s;
    FilterCons(x, s, p);
  }

  /** Inserting behind a larger first element keeps that element first. */
  lemma InsertCons<T>(x: T, s: seq<T>, key: T -> real)
    requires s != [] && key(x) < key(s[0])
    ensures Insert(x, s, key) == [s[0]] + Insert(x, s[1..], key)
  {
  }

  lemma SortedDescTail<T>(s: seq<T>, key: T -> real)
    requires s != [] && SortedDesc(s, key)
    ensures SortedDesc(s[1..], key)
  {
    assert forall i :: 0 <= i < |s[1..]| ==> s[1..][i] == s[i + 1];
  }

  /** Two elements with different keys cannot both have key v. */
  lemma KeepSwap<T>(x: T, y: T, key: T -> real, v: real)
    requires key(x) != key(y)
    ensures Keep(y, KeyIs(key, v)) + Keep(x, KeyIs(key, v)) == Keep(x, KeyIs(key, v)) + Keep(y, KeyIs(key, v))
  {
  }

  /** The sort is stable: the elements that share any one key value appear in the
      output in the same order as in the input. */
  lemma {:induction false} SortDescStable<T>(s: seq<T>, key: T -> real, v: real)
    ensures Filter(SortDesc(s, key), KeyIs(key, v)) == Filter(s, KeyIs(key, v))
    decreases |s|
  {
    if s != [] {
      SortDescStable(s[1..], key, v);
      InsertStable(s[0], SortDesc(s[1..], key), key, v);
      assert ([s[0]] + SortDesc(s[1..], key))[1..] == SortDesc(s[1..], key);
    }
  }

  lemma {:induction false} SumIntAppend<T>(a: seq<T>, b: seq<T>, f: T -> int)
    ensures SumInt(a + b, f) == SumInt(a, f) + SumInt(b, f)
    decreases |b|
  {
    if b == [] {
      assert a + b == a;
    } else {
      var n := |b| - 1;
      assert (a + b)[..|a + b| - 1] == a + b[..n];
      SumIntAppend(a, b[..n], f);
    }
  }

  lemma {:induction false} InsertSum<T>(x: T, s: seq<T>, key: T -> real, f: T -> int)
    ensures SumInt(Insert(x, s, key), f) == f(x) + SumInt(s, f)
    decreases |s|
  {
    SumIntAppend([x], s, f);
    assert SumInt([x], f) == f(x) by {
      assert [x][..0] == [];
    }
    if s != [] && key(x) < key(s[0]) {
      InsertSum(x, s[1..], key, f);
      SumIntAppend([s[0]], Insert(x, s[1..], key), f);
      SumIntAppend([s[0]], s[1..], f);
      assert SumInt([s[0]], f) == f(s[0]) by {
        assert [s[0]][..0] == [];
      }
      assert [s[0]] + s[1..] == s;
    }
  }

  /** Sorting keeps every additive total of the elements. */
  lemma {:induction false} SortDescSum<T>(s: seq<T>, key: T -> real, f: T -> int)
    ensures SumInt(SortDesc(s, key), f) == SumInt(s, f)
    decreases |s|
  {
    if s != [] {
      SortDescSum(s[1..], key, f);
      InsertSum(s[0], SortDesc(s[1..], key), key, f);
      SumIntAppend([s[0]], s[1..], f);
      assert SumInt([s[0]], f) == f(s[0]) by {
        assert [s[0]][..0] == [];
      }
      assert [s[0]] + s[1..] == s;
    }
  }

  /** The first k of a sorted list whose entries differ by g: still sorted, still
      distinct, and summing to no more than the whole list. */
  lemma TopSorted<T, K>(s: seq<T>, key: T -> real, g: T -> K, f: T -> int, k: int)
    requires forall i, j :: 0 <= i < j < |s| ==> g(s[i]) != g(s[j])
    requires forall i :: 0 <= i < |s| ==> f(s[i]) >= 0
    ensures var r := PyPrefix(SortDesc(s, key), k);
      && SortedDesc(r, key)
      && (forall i, j :: 0 <= i < j < |r| ==> g(r[i]) != g(r[j]))
      && SumInt(r, f) <= SumInt(s, f)
  {
    var sorted := SortDesc(s, key);
    SortDescDistinct(s, key, g);
    SortDescSum(s, key, f);
    SortDescAll(s, key, y => f(y) >= 0);
    SumIntPrefix(sorted, |PyPrefix(sorted, k)|, f);
  }

  /** What holds of every element holds of every element after sorting. */
  lemma SortDescAll<T>(s: seq<T>, key: T -> real, p: T -> bool)
    requires forall i :: 0 <= i < |s| ==> p(s[i])
    ensures forall i :: 0 <= i < |SortDesc(s, key)| ==> p(SortDesc(s, key)[i])
  {
    var sorted := SortDesc(s, key);
    SortDescMembers(s, key);
    forall i | 0 <= i < |sorted|
      ensures p(sorted[i])
    {
      var j :| 0 <= j < |s| && s[j] == sorted[i];
    }
  }

  /** Distinct by a field before sorting means distinct by it after. */
  lemma {:induction false} SortDescDistinct<T, K>(s: seq<T>, key: T -> real, g: T -> K)
    requires forall i, j :: 0 <= i < j < |s| ==> g(s[i]) != g(s[j])
    ensures forall i, j :: 0 <= i < j < |s| ==> g(SortDesc(s, key)[i]) != g(SortDesc(s, key)[j])
    decreases |s|
  {
    if s != [] {
      var rest := SortDesc(s[1..], key);
      SortDescDistinct(s[1..], key, g);
      SortDescMembers(s[1..], key);
      assert forall i :: 0 <= i < |rest| ==> g(rest[i]) != g(s[0]) by {
        forall i | 0 <= i < |rest|
          ensures g(rest[i]) != g(s[0])
        {
          var y := rest[i];
          assert y in s[1..];
          var k :| 0 <= k < |s[1..]| && s[1..][k] == y;
          assert s[k + 1] == y;
        }
      }
      InsertDistinct(s[0], rest, key, g);
    }
  }

  lemma {:induction false} InsertDistinct<T, K>(x: T, s: seq<T>, key: T -> real, g: T -> K)
    requires forall i, j :: 0 <= i < j < |s| ==> g(s[i]) != g(s[j])
    requires forall i :: 0 <= i < |s| ==> g(s[i]) != g(x)
    ensures forall i, j :: 0 <= i < j < |Insert(x, s, key)| ==> g(Insert(x, s, key)[i]) != g(Insert(x, s, key)[j])
    decreases |s|
  {
    if s != [] && key(x) < key(s[0]) {
      var rest := Insert(x, s[1..], key);
      InsertDistinct(x, s[1..], key, g);
      assert forall i :: 0 <= i < |rest| ==> g(rest[i]) != g(s[0]) by {
        forall i | 0 <= i < |rest|
          ensures g(rest[i]) != g(s[0])
        {
          if rest[i] != x {
            var k :| 0 <= k < |s[1..]| && s[1..][k] == rest[i];
            assert s[k + 1] == rest[i];
          }
        }
      }
      assert Insert(x, s, key) == [s[0]] + rest;
    }
  }

  /** A subsequence of a sorted sequence is sorted. */
  lemma {:induction false} SubsequenceSorted<T>(a: seq<T>, b: seq<T>, key: T -> real)
    requires IsSubsequence(a, b) && SortedDesc(b, key)
    ensures SortedDesc(a, key)
    decreases |b|
  {
    if a != [] {
      if a[0] == b[0] {
        SubsequenceSorted(a[1..], b[1..], key);
        SubsequenceMembers(a[1..], b[1..]);
        forall j | 0 < j < |a|
          ensures key(a[0]) >= key(a[j])
        {
          assert a[j] == a[1..][j - 1];
          var k :| 0 <= k < |b[1..]| && b[1..][k] == a[j];
          assert b[k + 1] == a[j];
        }
      } else {
        SubsequenceSorted(a, b[1..], key);
      }
    }
  }

  function Negate(x: real): real { -x }

  /** sorted(xs): ascending, as the descending sort on the negated values. */
  function SortAsc(xs: seq<real>): (r: seq<real>)
    ensures |r| == |xs|
    ensures multiset(r) == multiset(xs)
    ensures SortedAsc(r)
  {
    var r := SortDesc(xs, Negate);
    assert forall i, j :: 0 <= i < j < |r| ==> Negate(r[i]) >= Negate(r[j]);
    r
  }
}
