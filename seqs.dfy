/** Sequence operations that the scripts express with list comprehensions, slices,
    sum(), min() and max(). */
module Seqs {
  import opened Wrappers

  /** [x for x in s if p(x)]. */
  function Filter<T>(s: seq<T>, p: T -> bool): (r: seq<T>)
    ensures |r| <= |s|
    ensures forall i :: 0 <= i < |r| ==> p(r[i])
  {
    if s == [] then [] else (if p(s[0]) then [s[0]] else []) + Filter(s[1..], p)
  }

  /** Filter keeps exactly the elements that pass the test. */
  lemma {:induction false} FilterMembers<T>(s: seq<T>, p: T -> bool)
    ensures forall i :: 0 <= i < |Filter(s, p)| ==> Filter(s, p)[i] in s
    ensures forall i :: 0 <= i < |s| && p(s[i]) ==> s[i] in Filter(s, p)
    decreases |s|
  {
    if s != [] {
      FilterMembers(s[1..], p);
      var rest := Filter(s[1..], p);
      assert forall i :: 1 <= i < |s| ==> s[i] == s[1..][i - 1];
      assert forall y :: y in rest ==> y in s;
    }
  }

  /** Filtering distributes over concatenation. */
  lemma {:induction false} FilterAppend<T>(a: seq<T>, b: seq<T>, p: T -> bool)
    ensures Filter(a + b, p) == Filter(a, p) + Filter(b, p)
    decreases |a|
  {
    if a != [] {
      assert (a + b)[0] == a[0];
      assert (a + b)[1..] == a[1..] + b;
      FilterAppend(a[1..], b, p);
    } else {
      assert a + b == b;
    }
  }

  /** Two filters in a row keep what passes both tests. */
  lemma {:induction false} FilterBoth<T>(s: seq<T>, p: T -> bool, q: T -> bool, both: T -> bool)
    requires forall x :: both(x) == (p(x) && q(x))
    ensures Filter(Filter(s, p), q) == Filter(s, both)
    decreases |s|
  {
    if s != [] {
      FilterBoth(s[1..], p, q, both);
      var head := if p(s[0]) then [s[0]] else [];
      FilterAppend(head, Filter(s[1..], p), q);
      if p(s[0]) {
        assert head[1..] == [];
      }
    }
  }

  /** Filters with the same test on every element agree. */
  lemma {:induction false} FilterSame<T>(s: seq<T>, p: T -> bool, q: T -> bool)
    requires forall i :: 0 <= i < |s| ==> p(s[i]) == q(s[i])
    ensures Filter(s, p) == Filter(s, q)
    decreases |s|
  {
    if s != [] {
      assert forall i :: 0 <= i < |s[1..]| ==> s[1..][i] == s[i + 1];
      FilterSame(s[1..], p, q);
    }
  }

  /** A filter that every element passes changes nothing. */
  lemma {:induction false} FilterAll<T>(s: seq<T>, p: T -> bool)
    requires forall i :: 0 <= i < |s| ==> p(s[i])
    ensures Filter(s, p) == s
    decreases |s|
  {
    if s != [] {
      assert forall i :: 0 <= i < |s[1..]| ==> s[1..][i] == s[i + 1];
      FilterAll(s[1..], p);
    }
  }

  /** Filtering a sequence extended by one element, as a loop does. */
  lemma FilterSnoc<T>(s: seq<T>, i: nat, p: T -> bool)
    requires i < |s|
    ensures Filter(s[..i + 1], p) == Filter(s[..i], p) + (if p(s[i]) then [s[i]] else [])
  {
    assert s[..i + 1] == s[..i] + [s[i]];
    FilterAppend(s[..i], [s[i]], p);
    assert [s[i]][1..] == [];
  }

  /** The elements of s that pass keep, each built into an output element together
      with its position in the output, counted from start. */
  function MapKept<T, U>(s: seq<T>, start: nat, keep: T -> bool, build: (T, nat) -> U): (r: seq<U>)
    decreases |s|
  {
    if s == [] then []
    else
      var n := |s| - 1;
      var before := MapKept(s[..n], start, keep, build);
      before + (if keep(s[n]) then [build(s[n], start + |before|)] else [])
  }

  /** The loop `for x in s: if keep(x): out.append(build(x, len(out)))` over an
      output list that already holds emitted. */
  method AppendKept<T, U>(emitted: seq<U>, s: seq<T>, keep: T -> bool, build: (T, nat) -> U)
    returns (all: seq<U>)
    ensures all == emitted + MapKept(s, |emitted|, keep, build)
  {
    all := emitted;
    for i := 0 to |s|
      invariant all == emitted + MapKept(s[..i], |emitted|, keep, build)
    {
      MapKeptSnoc(s, i, |emitted|, keep, build);
      if keep(s[i]) {
        all := all + [build(s[i], |all|)];
      }
    }
    assert s[..|s|] == s;
  }

  /** One more element of s adds its output element, numbered after those before. */
  lemma MapKeptSnoc<T, U>(s: seq<T>, i: nat, start: nat, keep: T -> bool, build: (T, nat) -> U)
    requires i < |s|
    ensures MapKept(s[..i + 1], start, keep, build) == MapKept(s[..i], start, keep, build)
      + (if keep(s[i]) then [build(s[i], start + |MapKept(s[..i], start, keep, build)|)] else [])
  {
    assert s[..i + 1][..i] == s[..i];
  }

  /** There is one output element per kept element, and when every element built from
      a kept one at position n satisfies prop(_, n), every output element does. */
  lemma {:induction false} MapKeptAll<T, U>(s: seq<T>, start: nat, keep: T -> bool, build: (T, nat) -> U,
    prop: (U, nat) -> bool)
    requires forall x, n :: keep(x) ==> prop(build(x, n), n)
    ensures |MapKept(s, start, keep, build)| == |Filter(s, keep)|
    ensures forall i :: 0 <= i < |MapKept(s, start, keep, build)| ==>
      prop(MapKept(s, start, keep, build)[i], start + i)
    decreases |s|
  {
    if s != [] {
      var n := |s| - 1;
      MapKeptAll(s[..n], start, keep, build, prop);
      FilterSnoc(s, n, keep);
      assert s[..n + 1] == s;
    }
  }

  /** The i-th output element is built from the i-th kept element: the kept elements
      keep their order. */
  lemma {:induction false} MapKeptAt<T, U>(s: seq<T>, start: nat, keep: T -> bool, build: (T, nat) -> U)
    ensures |MapKept(s, start, keep, build)| == |Filter(s, keep)|
    ensures forall i :: 0 <= i < |Filter(s, keep)| ==>
      MapKept(s, start, keep, build)[i] == build(Filter(s, keep)[i], start + i)
    decreases |s|
  {
    if s != [] {
      var n := |s| - 1;
      MapKeptAt(s[..n], start, keep, build);
      FilterSnoc(s, n, keep);
      assert s[..n + 1] == s;
    }
  }

  /** a is obtained from b by deleting elements (order is kept). */
  predicate IsSubsequence<T(==)>(a: seq<T>, b: seq<T>)
    decreases |b|
  {
    if a == [] then true
    else if b == [] then false
    else if a[0] == b[0] then IsSubsequence(a[1..], b[1..])
    else IsSubsequence(a, b[1..])
  }

  lemma {:induction false} SubsequenceDropHead<T>(a: seq<T>, b: seq<T>)
    requires a != [] && IsSubsequence(a, b)
    ensures IsSubsequence(a[1..], b)
    decreases |b|, 1
  {
    if a[0] != b[0] {
      SubsequenceDropHead(a, b[1..]);
      SubsequenceExtend(a[1..], b);
    } else {
      SubsequenceExtend(a[1..], b);
    }
  }

  lemma {:induction false} SubsequenceExtend<T>(a: seq<T>, b: seq<T>)
    requires b != [] && IsSubsequence(a, b[1..])
    ensures IsSubsequence(a, b)
    decreases |b|, 0
  {
    if a != [] && a[0] == b[0] {
      SubsequenceDropHead(a, b[1..]);
    }
  }

  lemma {:induction false} SubsequenceTransitive<T>(a: seq<T>, b: seq<T>, c: seq<T>)
    requires IsSubsequence(a, b) && IsSubsequence(b, c)
    ensures IsSubsequence(a, c)
    decreases |c|
  {
    if a == [] {
    } else if b[0] == c[0] {
      if a[0] == b[0] {
        SubsequenceTransitive(a[1..], b[1..], c[1..]);
      } else {
        SubsequenceTransitive(a, b[1..], c[1..]);
        SubsequenceExtend(a, c);
      }
    } else {
      SubsequenceTransitive(a, b, c[1..]);
      SubsequenceExtend(a, c);
    }
  }

  lemma {:induction false} SubsequenceMembers<T>(a: seq<T>, b: seq<T>)
    requires IsSubsequence(a, b)
    ensures forall i :: 0 <= i < |a| ==> a[i] in b
    decreases |b|
  {
    if a != [] {
      if a[0] == b[0] {
        SubsequenceMembers(a[1..], b[1..]);
      } else {
        SubsequenceMembers(a, b[1..]);
      }
    }
  }

  lemma {:induction false} FilterIsSubsequence<T>(s: seq<T>, p: T -> bool)
    ensures IsSubsequence(Filter(s, p), s)
    decreases |s|
  {
    if s != [] {
      FilterIsSubsequence(s[1..], p);
      if p(s[0]) {
        assert Filter(s, p) == [s[0]] + Filter(s[1..], p);
        assert Filter(s, p)[1..] == Filter(s[1..], p);
      } else {
        assert Filter(s, p) == Filter(s[1..], p);
        SubsequenceExtend(Filter(s, p), s);
      }
    }
  }

  lemma {:induction false} PrefixIsSubsequence<T>(s: seq<T>, k: nat)
    requires k <= |s|
    ensures IsSubsequence(s[..k], s)
    decreases k
  {
    if k > 0 {
      PrefixIsSubsequence(s[1..], k - 1);
      assert s[..k][1..] == s[1..][..k - 1];
    }
  }

  lemma {:induction false} SubsequenceReflexive<T>(s: seq<T>)
    ensures IsSubsequence(s, s)
    decreases |s|
  {
    if s != [] {
      SubsequenceReflexive(s[1..]);
    }
  }

  /** Where Python's slice s[:k] stops: a negative k counts from the end. */
  function PyStop(k: int, n: nat): (r: nat)
    ensures r <= n
    ensures k >= 0 ==> r == if k < n then k else n
    ensures k < 0 ==> r == if n + k > 0 then n + k else 0
  {
    if k >= 0 then (if k < n then k else n) else (if n + k > 0 then n + k else 0)
  }

  /** s[:k]. */
  function PyPrefix<T>(s: seq<T>, k: int): (r: seq<T>)
    ensures |r| == PyStop(k, |s|) && r == s[..|r|]
  {
    s[..PyStop(k, |s|)]
  }

  /** [f(x) for x in s]. */
  function MapSeq<T, U>(s: seq<T>, f: T -> U): (r: seq<U>)
    ensures |r| == |s|
    ensures forall i :: 0 <= i < |s| ==> r[i] == f(s[i])
    decreases |s|
  {
    if s == [] then [] else MapSeq(s[..|s| - 1], f) + [f(s[|s| - 1])]
  }

  lemma MapSeqSnoc<T, U>(s: seq<T>, i: nat, f: T -> U)
    requires i < |s|
    ensures MapSeq(s[..i + 1], f) == MapSeq(s[..i], f) + [f(s[i])]
  {
    assert s[..i + 1][..i] == s[..i];
  }

  /** sum(f(x) for x in s). */
  function SumBy<T>(s: seq<T>, f: T -> real): real
    decreases |s|
  {
    if s == [] then 0.0 else SumBy(s[..|s| - 1], f) + f(s[|s| - 1])
  }

  /** sum(f(x) for x in s) for an integer f. */
  function SumInt<T>(s: seq<T>, f: T -> int): int
    decreases |s|
  {
    if s == [] then 0 else SumInt(s[..|s| - 1], f) + f(s[|s| - 1])
  }

  /** min(f(x) for x in s). */
  function MinBy<T>(s: seq<T>, f: T -> real): (m: real)
    requires |s| > 0
    ensures forall i :: 0 <= i < |s| ==> m <= f(s[i])
    ensures exists i :: 0 <= i < |s| && m == f(s[i])
    decreases |s|
  {
    if |s| == 1 then f(s[0])
    else
      var rest := MinBy(s[..|s| - 1], f);
      assert forall i :: 0 <= i < |s| - 1 ==> s[..|s| - 1][i] == s[i];
      if f(s[|s| - 1]) < rest then f(s[|s| - 1]) else rest
  }

  /** max(f(x) for x in s). */
  function MaxBy<T>(s: seq<T>, f: T -> real): (m: real)
    requires |s| > 0
    ensures forall i :: 0 <= i < |s| ==> f(s[i]) <= m
    ensures exists i :: 0 <= i < |s| && m == f(s[i])
    decreases |s|
  {
    if |s| == 1 then f(s[0])
    else
      var rest := MaxBy(s[..|s| - 1], f);
      assert forall i :: 0 <= i < |s| - 1 ==> s[..|s| - 1][i] == s[i];
      if f(s[|s| - 1]) > rest then f(s[|s| - 1]) else rest
  }

  lemma {:induction false} SumBounds<T>(s: seq<T>, f: T -> real, lo: real, hi: real)
    requires forall i :: 0 <= i < |s| ==> lo <= f(s[i]) <= hi
    ensures |s| as real * lo <= SumBy(s, f) <= |s| as real * hi
    decreases |s|
  {
    if s != [] {
      var n := |s| - 1;
      assert forall i :: 0 <= i < n ==> s[..n][i] == s[i];
      SumBounds(s[..n], f, lo, hi);
      assert |s| as real * lo == n as real * lo + lo;
      assert |s| as real * hi == n as real * hi + hi;
    }
  }

  lemma MeanBounds(sum: real, n: real, lo: real, hi: real)
    requires n > 0.0 && n * lo <= sum <= n * hi
    ensures lo <= sum / n <= hi
  {
    assert sum / n * n == sum;
  }

  /** The mean of a non-empty sequence lies between its minimum and its maximum. */
  lemma MeanBetweenMinMax<T>(s: seq<T>, f: T -> real)
    requires |s| > 0
    ensures MinBy(s, f) <= SumBy(s, f) / |s| as real <= MaxBy(s, f)
  {
    var lo, hi := MinBy(s, f), MaxBy(s, f);
    assert forall i :: 0 <= i < |s| ==> lo <= f(s[i]) <= hi;
    MeanWithin(s, f, lo, hi);
  }

  /** If every value is in [lo, hi], so is the mean. */
  lemma MeanWithin<T>(s: seq<T>, f: T -> real, lo: real, hi: real)
    requires |s| > 0
    requires forall i :: 0 <= i < |s| ==> lo <= f(s[i]) <= hi
    ensures lo <= SumBy(s, f) / |s| as real <= hi
  {
    SumBounds(s, f, lo, hi);
    MeanBounds(SumBy(s, f), |s| as real, lo, hi);
  }

  /** The values f yields on the elements of s, in order, skipping the elements
      on which it yields nothing: a loop that appends what a conversion returns and
      continues past the elements that raise. */
  function Collect<T, U>(s: seq<T>, f: T -> Option<U>): (r: seq<U>)
    ensures |r| <= |s|
    decreases |s|
  {
    if s == [] then []
    else
      var n := |s| - 1;
      Collect(s[..n], f) + (match f(s[n]) case Some(v) => [v] case None => [])
  }

  lemma CollectSnoc<T, U>(s: seq<T>, i: nat, f: T -> Option<U>)
    requires i < |s|
    ensures Collect(s[..i + 1], f) == Collect(s[..i], f) + (match f(s[i]) case Some(v) => [v] case None => [])
  {
    assert s[..i + 1][..i] == s[..i];
  }

  /** Every collected value is what f yields on some element, and nothing is
      collected exactly when f yields nothing everywhere. */
  lemma {:induction false} CollectMembers<T, U>(s: seq<T>, f: T -> Option<U>)
    ensures forall j :: 0 <= j < |Collect(s, f)| ==> exists i :: 0 <= i < |s| && f(s[i]) == Some(Collect(s, f)[j])
    ensures Collect(s, f) == [] <==> forall i :: 0 <= i < |s| ==> f(s[i]).None?
    decreases |s|
  {
    if s != [] {
      var n := |s| - 1;
      CollectMembers(s[..n], f);
      var before := Collect(s[..n], f);
      assert Collect(s, f) == before + (match f(s[n]) case Some(v) => [v] case None => []);
      forall j | 0 <= j < |Collect(s, f)|
        ensures exists i :: 0 <= i < |s| && f(s[i]) == Some(Collect(s, f)[j])
      {
        if j < |before| {
          var i :| 0 <= i < n && f(s[..n][i]) == Some(before[j]);
          assert s[i] == s[..n][i] && Collect(s, f)[j] == before[j];
        } else {
          assert f(s[n]).Some? && Collect(s, f)[j] == f(s[n]).value;
          assert f(s[n]) == Some(Collect(s, f)[j]);
        }
      }
      if f(s[n]).None? {
        assert forall i :: 0 <= i < n ==> s[i] == s[..n][i];
      }
    } else {
      assert Collect(s, f) == [];
    }
  }

  /** With no negative terms, a prefix sums to at most the whole. */
  lemma {:induction false} SumIntPrefix<T>(s: seq<T>, k: nat, f: T -> int)
    requires k <= |s|
    requires forall i :: 0 <= i < |s| ==> f(s[i]) >= 0
    ensures SumInt(s[..k], f) <= SumInt(s, f)
    decreases |s|
  {
    if k < |s| {
      var n := |s| - 1;
      assert s[..n][..k] == s[..k];
      SumIntPrefix(s[..n], k, f);
    } else {
      assert s[..k] == s;
    }
  }
}
