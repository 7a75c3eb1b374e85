/** Grouping by a string key, as the scripts do with defaultdict and dict counters:
    a dict's keys iterate in order of first insertion, and each key's list holds its
    elements in input order. */
module Grouping {
  import opened Wrappers
  import opened Seqs
  import opened Sorting

  /** The keys of s in order of first appearance. */
  function Keys<T>(s: seq<T>, key: T -> string): (ks: seq<string>)
    ensures forall i, j :: 0 <= i < j < |ks| ==> ks[i] != ks[j]
    ensures forall i :: 0 <= i < |s| ==> key(s[i]) in ks
    ensures forall k :: k in ks ==> exists i :: 0 <= i < |s| && key(s[i]) == k
    ensures |ks| <= |s|
    decreases |s|
  {
    if s == [] then []
    else
      var n := |s| - 1;
      var ks := Keys(s[..n], key);
      assert forall i :: 0 <= i < n ==> s[..n][i] == s[i];
      if key(s[n]) in ks then ks else ks + [key(s[n])]
  }

  /** The elements of s whose key is k, in input order. */
  function Members<T>(s: seq<T>, key: T -> string, k: string): (ms: seq<T>)
    ensures |ms| <= |s|
    ensures forall i :: 0 <= i < |ms| ==> key(ms[i]) == k && ms[i] in s
    decreases |s|
  {
    if s == [] then []
    else
      var n := |s| - 1;
      var ms := Members(s[..n], key, k);
      assert forall i :: 0 <= i < |ms| ==> ms[i] in s[..n] ==> ms[i] in s;
      ms + (if key(s[n]) == k then [s[n]] else [])
  }

  /** One more element adds its key at the end when the key is new, as inserting
      into a dict does. */
  lemma KeysSnoc<T>(s: seq<T>, i: nat, key: T -> string)
    requires i < |s|
    ensures Keys(s[..i + 1], key) == Keys(s[..i], key)
      + (if key(s[i]) in Keys(s[..i], key) then [] else [key(s[i])])
  {
    assert s[..i + 1][..i] == s[..i];
  }

  /** One more element joins the end of its own key's list and no other. */
  lemma MembersSnoc<T>(s: seq<T>, i: nat, key: T -> string, k: string)
    requires i < |s|
    ensures Members(s[..i + 1], key, k) == Members(s[..i], key, k) + (if key(s[i]) == k then [s[i]] else [])
  {
    assert s[..i + 1][..i] == s[..i];
  }

  /** The grouping loop over a defaultdict: for each element, the entry of its key
      (f of no elements when the key is new) is updated by add. When add extends f
      by one element, every key ends up holding f of its members, and the dict's keys
      are in order of first appearance. */
  method GroupFold<T, A>(s: seq<T>, key: T -> string, f: seq<T> -> A, add: (A, T) -> A)
    returns (m: map<string, A>, keys: seq<string>)
    requires forall ms: seq<T>, x: T :: f(ms + [x]) == add(f(ms), x)
    ensures keys == Keys(s, key)
    ensures forall k :: k in m <==> k in keys
    ensures forall k :: k in m ==> m[k] == f(Members(s, key, k))
  {
    m, keys := map[], [];
    for i := 0 to |s|
      invariant keys == Keys(s[..i], key)
      invariant forall k :: k in m <==> k in keys
      invariant forall k :: k in m ==> m[k] == f(Members(s[..i], key, k))
    {
      var k := key(s[i]);
      var info := if k in m then m[k] else f([]);
      KeysSnoc(s, i, key);
      MembersNonEmpty(s[..i], key, k);
      MembersSnoc(s, i, key, k);
      assert info == f(Members(s[..i], key, k));
      info := add(info, s[i]);
      if k !in m {
        keys := keys + [k];
      }
      GroupsSnoc(s, i, key, m, m[k := info], f);
      m := m[k := info];
    }
    assert s[..|s|] == s;
  }

  /** Setting the entry of one more element's key keeps every other entry right:
      the other keys' members do not change. */
  lemma GroupsSnoc<T, A>(s: seq<T>, i: nat, key: T -> string, m: map<string, A>, m': map<string, A>,
    f: seq<T> -> A)
    requires i < |s|
    requires forall k :: k in m ==> m[k] == f(Members(s[..i], key, k))
    requires key(s[i]) in m' && m'[key(s[i])] == f(Members(s[..i + 1], key, key(s[i])))
    requires forall k :: k in m' && k != key(s[i]) ==> k in m && m'[k] == m[k]
    ensures forall k :: k in m' ==> m'[k] == f(Members(s[..i + 1], key, k))
  {
    forall k | k in m' && k != key(s[i])
      ensures m'[k] == f(Members(s[..i + 1], key, k))
    {
      MembersSnoc(s, i, key, k);
      assert Members(s[..i + 1], key, k) == Members(s[..i], key, k);
    }
  }

  /** For each key of ks in order, build(k, the members of k) when k has at least two
      members: the `if count >= 2` pass the scripts make over their groups. */
  function BigGroups<T(!new), R>(ks: seq<string>, s: seq<T>, key: T -> string, build: (string, seq<T>) --> R): seq<R>
    requires forall k, ms :: |ms| >= 2 ==> build.requires(k, ms)
    decreases |ks|
  {
    if ks == [] then []
    else
      var n := |ks| - 1;
      var ms := Members(s, key, ks[n]);
      BigGroups(ks[..n], s, key, build) + (if |ms| >= 2 then [build(ks[n], ms)] else [])
  }

  /** One more key adds its group's result when the group has at least two members. */
  lemma BigGroupsSnoc<T(!new), R>(ks: seq<string>, j: nat, s: seq<T>, key: T -> string, build: (string, seq<T>) --> R)
    requires forall k, ms :: |ms| >= 2 ==> build.requires(k, ms)
    requires j < |ks|
    ensures BigGroups(ks[..j + 1], s, key, build) == BigGroups(ks[..j], s, key, build)
      + (if |Members(s, key, ks[j])| >= 2 then [build(ks[j], Members(s, key, ks[j]))] else [])
  {
    assert ks[..j + 1][..j] == ks[..j];
  }

  /** Every result is built from one of the keys and all its members, of which there
      are at least two. */
  lemma {:induction false} BigGroupsSound<T(!new), R>(ks: seq<string>, s: seq<T>, key: T -> string,
    build: (string, seq<T>) --> R, i: nat)
    requires forall k, ms :: |ms| >= 2 ==> build.requires(k, ms)
    requires i < |BigGroups(ks, s, key, build)|
    ensures exists t :: (0 <= t < |ks| && |Members(s, key, ks[t])| >= 2
      && BigGroups(ks, s, key, build)[i] == build(ks[t], Members(s, key, ks[t])))
    decreases |ks|
  {
    var n := |ks| - 1;
    var rest := BigGroups(ks[..n], s, key, build);
    if i < |rest| {
      BigGroupsSound(ks[..n], s, key, build, i);
      var t :| 0 <= t < n && |Members(s, key, ks[..n][t])| >= 2
        && rest[i] == build(ks[..n][t], Members(s, key, ks[..n][t]));
      assert ks[..n][t] == ks[t];
    } else {
      assert BigGroups(ks, s, key, build)[i] == build(ks[n], Members(s, key, ks[n]));
    }
  }

  /** Every key with at least two members has its result among them. */
  lemma {:induction false} BigGroupsComplete<T(!new), R>(ks: seq<string>, s: seq<T>, key: T -> string,
    build: (string, seq<T>) --> R, t: nat)
    requires forall k, ms :: |ms| >= 2 ==> build.requires(k, ms)
    requires t < |ks| && |Members(s, key, ks[t])| >= 2
    ensures exists i :: (0 <= i < |BigGroups(ks, s, key, build)|
      && BigGroups(ks, s, key, build)[i] == build(ks[t], Members(s, key, ks[t])))
    decreases |ks|
  {
    var n := |ks| - 1;
    var rest := BigGroups(ks[..n], s, key, build);
    var last := Members(s, key, ks[n]);
    var r := BigGroups(ks, s, key, build);
    var h := build(ks[t], Members(s, key, ks[t]));
    assert r == rest + (if |last| >= 2 then [build(ks[n], last)] else []);
    if t < n {
      assert ks[..n][t] == ks[t];
      BigGroupsComplete(ks[..n], s, key, build, t);
      var i :| 0 <= i < |rest| && rest[i] == h;
      assert r[i] == h;
    } else {
      assert r[|rest|] == h;
    }
  }

  /** When every result names the key it was built for, distinct keys give results
      with distinct names. */
  lemma {:induction false} BigGroupsDistinct<T(!new), R>(ks: seq<string>, s: seq<T>, key: T -> string,
    build: (string, seq<T>) --> R, name: R -> string)
    requires forall k, ms :: |ms| >= 2 ==> build.requires(k, ms)
    requires forall k, ms :: |ms| >= 2 ==> name(build(k, ms)) == k
    requires forall i, j :: 0 <= i < j < |ks| ==> ks[i] != ks[j]
    ensures forall i, j :: 0 <= i < j < |BigGroups(ks, s, key, build)| ==>
      name(BigGroups(ks, s, key, build)[i]) != name(BigGroups(ks, s, key, build)[j])
    decreases |ks|
  {
    if ks != [] {
      var n := |ks| - 1;
      var pre := ks[..n];
      assert forall i, j :: 0 <= i < j < |pre| ==> pre[i] != pre[j];
      BigGroupsDistinct(pre, s, key, build, name);
      var rest := BigGroups(pre, s, key, build);
      var last := Members(s, key, ks[n]);
      var r := BigGroups(ks, s, key, build);
      assert r == rest + (if |last| >= 2 then [build(ks[n], last)] else []);
      forall i | 0 <= i < |rest|
        ensures name(rest[i]) != ks[n]
      {
        BigGroupsSound(pre, s, key, build, i);
        var t :| 0 <= t < n && |Members(s, key, pre[t])| >= 2 && rest[i] == build(pre[t], Members(s, key, pre[t]));
        assert pre[t] == ks[t];
      }
      if |last| >= 2 {
        assert name(r[|rest|]) == ks[n];
        assert forall i :: 0 <= i < |rest| ==> r[i] == rest[i];
      }
    }
  }

  /** For each key of ks in order that has members, build(k, the members of k): a
      pass over every group of a dict built from s. */
  function AllGroups<T(!new), R>(ks: seq<string>, s: seq<T>, key: T -> string, build: (string, seq<T>) --> R): (r: seq<R>)
    requires forall k, ms :: |ms| >= 1 ==> build.requires(k, ms)
    ensures |r| <= |ks|
    decreases |ks|
  {
    if ks == [] then []
    else
      var n := |ks| - 1;
      var ms := Members(s, key, ks[n]);
      AllGroups(ks[..n], s, key, build) + (if |ms| >= 1 then [build(ks[n], ms)] else [])
  }

  /** Over keys that all have members, there is one result per key, the i-th built
      from the i-th key and all its members. */
  lemma {:induction false} AllGroupsAt<T(!new), R>(ks: seq<string>, s: seq<T>, key: T -> string,
    build: (string, seq<T>) --> R)
    requires forall k, ms :: |ms| >= 1 ==> build.requires(k, ms)
    requires forall i :: 0 <= i < |ks| ==> |Members(s, key, ks[i])| >= 1
    ensures |AllGroups(ks, s, key, build)| == |ks|
    ensures forall i :: 0 <= i < |ks| ==> AllGroups(ks, s, key, build)[i] == build(ks[i], Members(s, key, ks[i]))
    decreases |ks|
  {
    if ks != [] {
      var n := |ks| - 1;
      var pre := ks[..n];
      assert forall i :: 0 <= i < |pre| ==> pre[i] == ks[i];
      AllGroupsAt(pre, s, key, build);
      var rest := AllGroups(pre, s, key, build);
      var ms := Members(s, key, ks[n]);
      assert |ms| >= 1;
      var r := AllGroups(ks, s, key, build);
      assert r == rest + [build(ks[n], ms)];
      forall i | 0 <= i < |ks|
        ensures r[i] == build(ks[i], Members(s, key, ks[i]))
      {
        if i < n {
          assert r[i] == rest[i];
        }
      }
    }
  }

  /** One more key adds its group's result when the group has members. */
  lemma AllGroupsSnoc<T(!new), R>(ks: seq<string>, j: nat, s: seq<T>, key: T -> string, build: (string, seq<T>) --> R)
    requires forall k, ms :: |ms| >= 1 ==> build.requires(k, ms)
    requires j < |ks|
    ensures AllGroups(ks[..j + 1], s, key, build) == AllGroups(ks[..j], s, key, build)
      + (if |Members(s, key, ks[j])| >= 1 then [build(ks[j], Members(s, key, ks[j]))] else [])
  {
    assert ks[..j + 1][..j] == ks[..j];
  }

  /** A pass over every group of a dict that GroupFold built: the result of each key
      is computed from its folded value by fromAcc, which agrees with build. */
  method AllGroupsFromFold<T(!new), A, R>(m: map<string, A>, keys: seq<string>, ghost s: seq<T>, ghost key: T -> string,
    ghost f: seq<T> -> A, fromAcc: (string, A) --> R, ghost build: (string, seq<T>) --> R)
    returns (out: seq<R>)
    requires forall k, ms :: |ms| >= 1 ==> build.requires(k, ms)
    requires forall k, ms :: |ms| >= 1 ==> fromAcc.requires(k, f(ms)) && fromAcc(k, f(ms)) == build(k, ms)
    requires keys == Keys(s, key)
    requires forall k :: k in m <==> k in keys
    requires forall k :: k in m ==> m[k] == f(Members(s, key, k))
    ensures out == AllGroups(keys, s, key, build)
  {
    KeysHaveMembers(s, key);
    out := [];
    for j := 0 to |keys|
      invariant out == AllGroups(keys[..j], s, key, build)
    {
      AllGroupsSnoc(keys, j, s, key, build);
      ghost var ms := Members(s, key, keys[j]);
      assert keys[j] in keys && |ms| >= 1;
      assert fromAcc(keys[j], m[keys[j]]) == build(keys[j], ms);
      out := out + [fromAcc(keys[j], m[keys[j]])];
    }
    assert keys[..|keys|] == keys;
  }

  /** When each result counts its group, the counts add up to the groups' sizes. */
  lemma {:induction false} AllGroupsCount<T(!new), R>(ks: seq<string>, s: seq<T>, key: T -> string,
    build: (string, seq<T>) --> R, count: R -> int)
    requires forall k, ms :: |ms| >= 1 ==> build.requires(k, ms)
    requires forall k, ms :: |ms| >= 1 ==> count(build(k, ms)) == |ms|
    ensures SumInt(AllGroups(ks, s, key, build), count) == GroupSizes(ks, s, key)
    decreases |ks|
  {
    if ks != [] {
      var n := |ks| - 1;
      AllGroupsCount(ks[..n], s, key, build, count);
      var rest := AllGroups(ks[..n], s, key, build);
      var ms := Members(s, key, ks[n]);
      var r := AllGroups(ks, s, key, build);
      if |ms| >= 1 {
        assert r == rest + [build(ks[n], ms)];
        assert r[..|r| - 1] == rest;
        assert count(r[|r| - 1]) == |ms|;
      } else {
        assert r == rest;
      }
    }
  }

  /** Every key of s has members. */
  lemma KeysHaveMembers<T>(s: seq<T>, key: T -> string)
    ensures forall i :: 0 <= i < |Keys(s, key)| ==> |Members(s, key, Keys(s, key)[i])| >= 1
  {
    forall i | 0 <= i < |Keys(s, key)|
      ensures |Members(s, key, Keys(s, key)[i])| >= 1
    {
      MembersNonEmpty(s, key, Keys(s, key)[i]);
    }
  }

  /** A key with at least two members has its result among those of all keys. */
  lemma BigGroupsOfKeys<T(!new), R>(s: seq<T>, key: T -> string, build: (string, seq<T>) --> R, k: string)
    requires forall k, ms :: |ms| >= 2 ==> build.requires(k, ms)
    requires |Members(s, key, k)| >= 2
    ensures exists i :: (0 <= i < |BigGroups(Keys(s, key), s, key, build)|
      && BigGroups(Keys(s, key), s, key, build)[i] == build(k, Members(s, key, k)))
  {
    var ks := Keys(s, key);
    MembersNonEmpty(s, key, k);
    var t :| 0 <= t < |ks| && ks[t] == k;
    BigGroupsComplete(ks, s, key, build, t);
  }

  /** After sorting, a key with at least two members still has its result. */
  lemma SortedBigGroupsComplete<T(!new), R>(s: seq<T>, key: T -> string, build: (string, seq<T>) --> R,
    f: R -> real, k: string)
    requires forall k, ms :: |ms| >= 2 ==> build.requires(k, ms)
    requires |Members(s, key, k)| >= 2
    ensures exists i :: (0 <= i < |SortDesc(BigGroups(Keys(s, key), s, key, build), f)|
      && SortDesc(BigGroups(Keys(s, key), s, key, build), f)[i] == build(k, Members(s, key, k)))
  {
    var u := BigGroups(Keys(s, key), s, key, build);
    BigGroupsOfKeys(s, key, build, k);
    var i :| 0 <= i < |u| && u[i] == build(k, Members(s, key, k));
    SortDescMembers(u, f);
    var r := SortDesc(u, f);
    assert u[i] in r;
    var j :| 0 <= j < |r| && r[j] == u[i];
  }

  /** What holds of every element holds of every member of a group. */
  lemma MembersSatisfy<T>(s: seq<T>, key: T -> string, k: string, p: T -> bool)
    requires forall i :: 0 <= i < |s| ==> p(s[i])
    ensures forall j :: 0 <= j < |Members(s, key, k)| ==> p(Members(s, key, k)[j])
  {
    var ms := Members(s, key, k);
    forall j | 0 <= j < |ms|
      ensures p(ms[j])
    {
      var i :| 0 <= i < |s| && s[i] == ms[j];
    }
  }

  /** A key has members exactly when it is one of the keys. */
  lemma {:induction false} MembersNonEmpty<T>(s: seq<T>, key: T -> string, k: string)
    ensures |Members(s, key, k)| > 0 <==> k in Keys(s, key)
    decreases |s|
  {
    if s != [] {
      MembersNonEmpty(s[..|s| - 1], key, k);
    }
  }

  /** Every element of s with key k is one of k's members. */
  lemma {:induction false} MembersComplete<T>(s: seq<T>, key: T -> string, i: nat)
    requires i < |s|
    ensures s[i] in Members(s, key, key(s[i]))
    decreases |s|
  {
    var n := |s| - 1;
    if i < n {
      MembersComplete(s[..n], key, i);
      assert s[..n][i] == s[i];
    }
  }

  /** The total size of the groups of the keys ks. */
  function GroupSizes<T>(ks: seq<string>, s: seq<T>, key: T -> string): nat
    decreases |ks|
  {
    if ks == [] then 0
    else GroupSizes(ks[..|ks| - 1], s, key) + |Members(s, key, ks[|ks| - 1])|
  }

  lemma {:induction false} GroupSizesStep<T>(ks: seq<string>, s: seq<T>, x: T, key: T -> string)
    requires forall i, j :: 0 <= i < j < |ks| ==> ks[i] != ks[j]
    ensures GroupSizes(ks, s + [x], key) == GroupSizes(ks, s, key) + (if key(x) in ks then 1 else 0)
    decreases |ks|
  {
    if ks != [] {
      var n := |ks| - 1;
      GroupSizesStep(ks[..n], s, x, key);
      assert (s + [x])[..|s|] == s;
      assert ks == ks[..n] + [ks[n]];
      assert key(x) in ks <==> key(x) in ks[..n] || key(x) == ks[n];
      assert !(key(x) in ks[..n] && key(x) == ks[n]);
    }
  }

  /** The groups partition s: their sizes add up to |s|. */
  lemma {:induction false} GroupSizesTotal<T>(s: seq<T>, key: T -> string)
    ensures GroupSizes(Keys(s, key), s, key) == |s|
    decreases |s|
  {
    if s != [] {
      var n := |s| - 1;
      var t, x := s[..n], s[n];
      assert s == t + [x];
      GroupSizesTotal(t, key);
      var kt := Keys(t, key);
      GroupSizesStep(kt, t, x, key);
      if key(x) !in kt {
        MembersNonEmpty(t, key, key(x));
        assert (kt + [key(x)])[..|kt|] == kt;
      }
    }
  }

  /** The elements of s whose key is not yet in seen and has not occurred before
      them: what a loop lets through that skips an element when its key is in a
      `seen` set and otherwise adds the key. */
  function FirstPerKey<T>(s: seq<T>, key: T -> string, seen: set<string>): (r: seq<T>)
    ensures |r| <= |s|
    ensures forall i :: 0 <= i < |r| ==> key(r[i]) !in seen
    ensures forall i, j :: 0 <= i < j < |r| ==> key(r[i]) != key(r[j])
    decreases |s|
  {
    if s == [] then []
    else if key(s[0]) in seen then FirstPerKey(s[1..], key, seen)
    else [s[0]] + FirstPerKey(s[1..], key, seen + {key(s[0])})
  }

  /** The elements let through keep their relative order. */
  lemma {:induction false} FirstPerKeySubsequence<T>(s: seq<T>, key: T -> string, seen: set<string>)
    ensures IsSubsequence(FirstPerKey(s, key, seen), s)
    decreases |s|
  {
    if s != [] {
      var r := FirstPerKey(s, key, seen);
      if key(s[0]) in seen {
        FirstPerKeySubsequence(s[1..], key, seen);
        SubsequenceExtend(r, s);
      } else {
        FirstPerKeySubsequence(s[1..], key, seen + {key(s[0])});
        assert r[0] == s[0] && r[1..] == FirstPerKey(s[1..], key, seen + {key(s[0])});
      }
    }
  }

  /** Every element is let through at its first occurrence: the element of s kept
      for a key comes before any other element with that key. */
  lemma {:induction false} FirstPerKeyIsFirst<T>(s: seq<T>, key: T -> string, seen: set<string>, i: nat)
    requires i < |FirstPerKey(s, key, seen)|
    ensures exists j :: (0 <= j < |s| && s[j] == FirstPerKey(s, key, seen)[i]
      && forall j' :: 0 <= j' < j ==> key(s[j']) != key(s[j]))
    decreases |s|
  {
    var r := FirstPerKey(s, key, seen);
    var x := r[i];
    if key(s[0]) in seen {
      FirstPerKeyIsFirst(s[1..], key, seen, i);
      var j :| 0 <= j < |s[1..]| && s[1..][j] == x && forall j' :: 0 <= j' < j ==> key(s[1..][j']) != key(s[1..][j]);
      assert key(x) !in seen;
      assert s[j + 1] == x;
      assert forall j' :: 0 < j' < j + 1 ==> key(s[j']) == key(s[1..][j' - 1]);
    } else if i == 0 {
      assert s[0] == x;
    } else {
      var seen' := seen + {key(s[0])};
      FirstPerKeyIsFirst(s[1..], key, seen', i - 1);
      assert r[i] == FirstPerKey(s[1..], key, seen')[i - 1];
      var j :| 0 <= j < |s[1..]| && s[1..][j] == x && forall j' :: 0 <= j' < j ==> key(s[1..][j']) != key(s[1..][j]);
      assert key(x) !in seen';
      assert s[j + 1] == x;
      assert forall j' :: 0 < j' < j + 1 ==> key(s[j']) == key(s[1..][j' - 1]);
    }
  }

  /** Over a list sorted by f, highest first, the element let through for a key
      has the largest f of all the elements with that key. */
  lemma FirstPerKeyBest<T>(s: seq<T>, key: T -> string, f: T -> real, i: nat, b: nat)
    requires SortedDesc(s, f)
    requires i < |FirstPerKey(s, key, {})| && b < |s|
    requires key(s[b]) == key(FirstPerKey(s, key, {})[i])
    ensures f(s[b]) <= f(FirstPerKey(s, key, {})[i])
  {
    FirstPerKeyIsFirst(s, key, {}, i);
    var a :| 0 <= a < |s| && s[a] == FirstPerKey(s, key, {})[i] && forall a' :: 0 <= a' < a ==> key(s[a']) != key(s[a]);
    assert a <= b;
  }

  /** No key is lost: every element whose key was not already seen has its key
      among the elements let through. */
  lemma {:induction false} FirstPerKeyComplete<T>(s: seq<T>, key: T -> string, seen: set<string>, j: nat)
    requires j < |s| && key(s[j]) !in seen
    ensures exists i :: 0 <= i < |FirstPerKey(s, key, seen)| && key(FirstPerKey(s, key, seen)[i]) == key(s[j])
    decreases |s|
  {
    var r := FirstPerKey(s, key, seen);
    if key(s[0]) in seen {
      assert j > 0 && s[1..][j - 1] == s[j];
      FirstPerKeyComplete(s[1..], key, seen, j - 1);
    } else if key(s[j]) == key(s[0]) {
      assert key(r[0]) == key(s[j]);
    } else {
      var seen' := seen + {key(s[0])};
      assert j > 0 && s[1..][j - 1] == s[j];
      FirstPerKeyComplete(s[1..], key, seen', j - 1);
      var i :| 0 <= i < |FirstPerKey(s[1..], key, seen')| && key(FirstPerKey(s[1..], key, seen')[i]) == key(s[j]);
      assert r[i + 1] == FirstPerKey(s[1..], key, seen')[i];
    }
  }

  /** How many elements a loop keeps that tests `len(kept) >= limit` only after
      appending: at least one. */
  function KeepLimit(limit: int): (c: nat)
    ensures c >= 1 && (limit >= 1 ==> c == limit)
  {
    if limit >= 1 then limit else 1
  }

  /** The first element per key, in order, up to the limit. */
  function FirstPerKeyUpTo<T>(s: seq<T>, key: T -> string, limit: int): (r: seq<T>)
    ensures |r| <= KeepLimit(limit)
    ensures |r| <= |FirstPerKey(s, key, {})| && r == FirstPerKey(s, key, {})[..|r|]
  {
    var u := FirstPerKey(s, key, {});
    u[..if |u| < KeepLimit(limit) then |u| else KeepLimit(limit)]
  }

  /** One step of the deduplicating loop at position i. */
  lemma FirstPerKeyStep<T>(s: seq<T>, i: nat, key: T -> string, seen: set<string>)
    requires i < |s|
    ensures FirstPerKey(s[i..], key, seen) == if key(s[i]) in seen then FirstPerKey(s[i + 1..], key, seen)
      else [s[i]] + FirstPerKey(s[i + 1..], key, seen + {key(s[i])})
  {
    assert s[i..][1..] == s[i + 1..];
  }

  /** One step of the deduplicating loop keeps the kept elements followed by the
      rest of the walk equal to the whole result. */
  lemma FirstPerKeyAdvance<T>(s: seq<T>, i: nat, key: T -> string, seen: set<string>, kept: seq<T>, u: seq<T>)
    requires i < |s| && kept + FirstPerKey(s[i..], key, seen) == u
    ensures key(s[i]) in seen ==> kept + FirstPerKey(s[i + 1..], key, seen) == u
    ensures key(s[i]) !in seen ==> (kept + [s[i]]) + FirstPerKey(s[i + 1..], key, seen + {key(s[i])}) == u
  {
    FirstPerKeyStep(s, i, key, seen);
    if key(s[i]) !in seen {
      var rest := FirstPerKey(s[i + 1..], key, seen + {key(s[i])});
      assert (kept + [s[i]]) + rest == kept + ([s[i]] + rest);
    }
  }

  /** A start of the result as long as the limit is what FirstPerKeyUpTo keeps. */
  lemma FirstPerKeyStop<T>(s: seq<T>, key: T -> string, limit: int, kept: seq<T>, rest: seq<T>)
    requires kept + rest == FirstPerKey(s, key, {}) && |kept| == KeepLimit(limit)
    ensures kept == FirstPerKeyUpTo(s, key, limit)
  {
    assert (kept + rest)[..|kept|] == kept;
  }

  /** A result shorter than the limit is kept whole. */
  lemma FirstPerKeyWhole<T>(s: seq<T>, key: T -> string, limit: int, kept: seq<T>)
    requires kept == FirstPerKey(s, key, {}) && |kept| < KeepLimit(limit)
    ensures kept == FirstPerKeyUpTo(s, key, limit)
  {
    assert kept[..|kept|] == kept;
  }

  /** The deduplicating loop: walk s keeping a set of the keys seen, append each
      element whose key is new, and stop once limit elements are kept. */
  method TakeFirstPerKey<T>(s: seq<T>, key: T -> string, limit: int) returns (kept: seq<T>)
    ensures kept == FirstPerKeyUpTo(s, key, limit)
  {
    ghost var u := FirstPerKey(s, key, {});
    var seen: set<string> := {};
    kept := [];
    var i := 0;
    assert s[0..] == s;
    while i < |s|
      invariant 0 <= i <= |s|
      invariant kept + FirstPerKey(s[i..], key, seen) == u
      invariant |kept| < KeepLimit(limit)
    {
      var x := s[i];
      FirstPerKeyAdvance(s, i, key, seen, kept, u);
      if key(x) !in seen {
        seen := seen + {key(x)};
        kept := kept + [x];
        if |kept| >= limit {
          FirstPerKeyStop(s, key, limit, kept, FirstPerKey(s[i + 1..], key, seen));
          return;
        }
      }
      i := i + 1;
    }
    assert s[i..] == [];
    assert kept + [] == kept;
    FirstPerKeyWhole(s, key, limit, kept);
  }

  /** The identity key: grouping strings by themselves. */
  function Itself(x: string): string { x }

  /** Appending one value v adds it to the keys when it is new, and to its own
      members only. */
  lemma ValuesSnoc(vs: seq<string>, v: string)
    ensures Keys(vs + [v], Itself) == Keys(vs, Itself) + (if v in Keys(vs, Itself) then [] else [v])
    ensures forall k :: Members(vs + [v], Itself, k) == Members(vs, Itself, k) + (if k == v then [v] else [])
  {
    var vs' := vs + [v];
    assert vs'[..|vs|] == vs && vs'[..|vs| + 1] == vs';
    KeysSnoc(vs', |vs|, Itself);
    forall k
      ensures Members(vs', Itself, k) == Members(vs, Itself, k) + (if k == v then [v] else [])
    {
      MembersSnoc(vs', |vs|, Itself, k);
    }
  }

  /** Counting one more occurrence of a value already counted keeps every count
      right. */
  lemma CountsSnocSeen(vs: seq<string>, v: string, counts: map<string, nat>, keys: seq<string>)
    requires keys == Keys(vs, Itself)
    requires forall k :: k in counts <==> k in keys
    requires forall k :: k in counts ==> counts[k] == |Members(vs, Itself, k)|
    requires v in counts
    ensures keys == Keys(vs + [v], Itself)
    ensures forall k :: k in counts[v := counts[v] + 1] <==> k in keys
    ensures forall k :: k in counts[v := counts[v] + 1] ==> counts[v := counts[v] + 1][k] == |Members(vs + [v], Itself, k)|
  {
    ValuesSnoc(vs, v);
  }

  /** Counting a new value once keeps every count right and appends the value to
      the keys. */
  lemma CountsSnocNew(vs: seq<string>, v: string, counts: map<string, nat>, keys: seq<string>)
    requires keys == Keys(vs, Itself)
    requires forall k :: k in counts <==> k in keys
    requires forall k :: k in counts ==> counts[k] == |Members(vs, Itself, k)|
    requires v !in counts
    ensures keys + [v] == Keys(vs + [v], Itself)
    ensures forall k :: k in counts[v := 1] <==> k in keys + [v]
    ensures forall k :: k in counts[v := 1] ==> counts[v := 1][k] == |Members(vs + [v], Itself, k)|
  {
    ValuesSnoc(vs, v);
    MembersNonEmpty(vs, Itself, v);
    var c := counts[v := 1];
    forall k | k in c
      ensures c[k] == |Members(vs + [v], Itself, k)|
    {
      if k == v {
        assert Members(vs + [v], Itself, v) == Members(vs, Itself, v) + [v];
      } else {
        assert Members(vs + [v], Itself, k) == Members(vs, Itself, k);
      }
    }
  }

  /** The counting loop `for x in s: if f(x) gives v: counts[v] = counts.get(v, 0) + 1`:
      each value's count is the number of times f gives it, and the dict's keys are
      the values in order of first appearance. */
  method CountValues<T>(s: seq<T>, f: T -> Option<string>) returns (counts: map<string, nat>, keys: seq<string>)
    ensures keys == Keys(Collect(s, f), Itself)
    ensures forall k :: k in counts <==> k in keys
    ensures forall k :: k in counts ==> counts[k] == |Members(Collect(s, f), Itself, k)|
  {
    counts, keys := map[], [];
    ghost var vs: seq<string> := [];
    for i := 0 to |s|
      invariant vs == Collect(s[..i], f)
      invariant keys == Keys(vs, Itself)
      invariant forall k :: k in counts <==> k in keys
      invariant forall k :: k in counts ==> counts[k] == |Members(vs, Itself, k)|
    {
      CollectSnoc(s, i, f);
      var r := f(s[i]);
      if r.Some? {
        var v := r.value;
        if v !in counts {
          CountsSnocNew(vs, v, counts, keys);
          keys := keys + [v];
          counts := counts[v := 1];
        } else {
          CountsSnocSeen(vs, v, counts, keys);
          counts := counts[v := counts[v] + 1];
        }
        vs := vs + [v];
      }
    }
    assert s[..|s|] == s;
  }
}
