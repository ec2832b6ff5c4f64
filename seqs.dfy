/** The array methods the storefront relies on (`filter`, `find`, and `filter` by position). */
module Seqs {
  import opened Wrappers

  /** `a` is an order-preserving subsequence of `b`. */
  ghost predicate IsSubsequence<T>(a: seq<T>, b: seq<T>)
    decreases |b|
  {
    if a == [] then true
    else if b == [] then false
    else (a[0] == b[0] && IsSubsequence(a[1..], b[1..])) || IsSubsequence(a, b[1..])
  }

  /** `s.filter(p)`: the elements of `s` that satisfy `p`, in their original order. */
  function Filter<T(!new)>(s: seq<T>, p: T -> bool): (r: seq<T>)
    ensures |r| <= |s|
    ensures forall i :: 0 <= i < |r| ==> r[i] in s && p(r[i])
    ensures forall i :: 0 <= i < |s| && p(s[i]) ==> s[i] in r
    ensures forall x :: multiset(r)[x] == if p(x) then multiset(s)[x] else 0
  {
    if s == [] then []
    else
      var rest := Filter(s[1..], p);
      assert s == [s[0]] + s[1..];
      if p(s[0]) then [s[0]] + rest else rest
  }

  lemma {:induction false} FilterIsSubsequence<T(!new)>(s: seq<T>, p: T -> bool)
    ensures IsSubsequence(Filter(s, p), s)
  {
    if s != [] {
      FilterIsSubsequence(s[1..], p);
      var rest := Filter(s[1..], p);
      if p(s[0]) {
        assert Filter(s, p) == [s[0]] + rest;
        assert ([s[0]] + rest)[1..] == rest;
      } else {
        assert Filter(s, p) == rest;
        SubsequenceOfTail(rest, s);
      }
    }
  }

  /** Elements whose keys are pairwise distinct still have pairwise distinct keys after a filter. */
  lemma {:induction false} FilterKeepsDistinctKeys<T(!new), K>(s: seq<T>, p: T -> bool, key: T -> K)
    requires forall i, j :: 0 <= i < j < |s| ==> key(s[i]) != key(s[j])
    ensures var r := Filter(s, p);
      forall i, j :: 0 <= i < j < |r| ==> key(r[i]) != key(r[j])
  {
    if s != [] {
      var tail := s[1..];
      assert forall i, j :: 0 <= i < j < |tail| ==> key(tail[i]) != key(tail[j]) by {
        forall i, j | 0 <= i < j < |tail| ensures key(tail[i]) != key(tail[j]) {
          assert tail[i] == s[i + 1] && tail[j] == s[j + 1];
        }
      }
      assert forall m :: 0 <= m < |tail| ==> key(s[0]) != key(tail[m]) by {
        forall m | 0 <= m < |tail| ensures key(s[0]) != key(tail[m]) {
          assert tail[m] == s[m + 1];
        }
      }
      FilterKeepsDistinctKeys(tail, p, key);
      var rest := Filter(tail, p);
      FilterUnfold(s, p);
      if p(s[0]) {
        ConsDistinctKeys(s[0], tail, rest, key);
      }
    }
  }

  /** One step of the filter: the head is kept exactly when it satisfies `p`. */
  lemma FilterUnfold<T(!new)>(s: seq<T>, p: T -> bool)
    requires s != []
    ensures Filter(s, p) == if p(s[0]) then [s[0]] + Filter(s[1..], p) else Filter(s[1..], p)
  {
  }

  /** Putting in front an element whose key no element of `tail` has keeps the keys of a part of `tail` distinct. */
  lemma ConsDistinctKeys<T, K>(x: T, tail: seq<T>, rest: seq<T>, key: T -> K)
    requires forall i, j :: 0 <= i < j < |rest| ==> key(rest[i]) != key(rest[j])
    requires forall i :: 0 <= i < |rest| ==> rest[i] in tail
    requires forall m :: 0 <= m < |tail| ==> key(x) != key(tail[m])
    ensures var r := [x] + rest;
      forall i, j :: 0 <= i < j < |r| ==> key(r[i]) != key(r[j])
  {
    var r := [x] + rest;
    forall i, j | 0 <= i < j < |r| ensures key(r[i]) != key(r[j]) {
      assert r[j] == rest[j - 1];
      if i == 0 {
        var m :| 0 <= m < |tail| && tail[m] == rest[j - 1];
      } else {
        assert r[i] == rest[i - 1];
      }
    }
  }

  lemma SubsequenceOfTail<T>(a: seq<T>, s: seq<T>)
    requires s != [] && IsSubsequence(a, s[1..])
    ensures IsSubsequence(a, s)
  {
  }

  /** Every sequence is a subsequence of itself. */
  lemma {:induction false} SubsequenceReflexive<T>(s: seq<T>)
    ensures IsSubsequence(s, s)
  {
    if s != [] {
      SubsequenceReflexive(s[1..]);
    }
  }

  /** Filtering with a predicate every element satisfies changes nothing. */
  lemma {:induction false} FilterKeepsAll<T(!new)>(s: seq<T>, p: T -> bool)
    requires forall i :: 0 <= i < |s| ==> p(s[i])
    ensures Filter(s, p) == s
  {
    if s != [] {
      FilterKeepsAll(s[1..], p);
      assert [s[0]] + s[1..] == s;
    }
  }

  /** Filtering depends only on the predicate's values on the elements. */
  lemma {:induction false} FilterCongruent<T(!new)>(s: seq<T>, p: T -> bool, q: T -> bool)
    requires forall i :: 0 <= i < |s| ==> p(s[i]) == q(s[i])
    ensures Filter(s, p) == Filter(s, q)
  {
    if s != [] {
      FilterCongruent(s[1..], p, q);
    }
  }

  /** `s.find(p)`: the first element that satisfies `p`, or nothing. */
  function FindFirst<T(==)>(s: seq<T>, p: T -> bool): (r: Option<T>)
    ensures r.None? <==> forall i :: 0 <= i < |s| ==> !p(s[i])
    ensures r.Some? ==> exists k :: 0 <= k < |s| && IsFirst(s, p, k) && s[k] == r.value
  {
    if s == [] then None
    else if p(s[0]) then
      assert IsFirst(s, p, 0);
      Some(s[0])
    else
      var r := FindFirst(s[1..], p);
      if r.Some? then
        var k :| 0 <= k < |s| - 1 && IsFirst(s[1..], p, k) && s[1..][k] == r.value;
        assert IsFirst(s, p, k + 1);
        r
      else
        r
  }

  /** Index `k` holds the first element of `s` that satisfies `p`. */
  predicate IsFirst<T>(s: seq<T>, p: T -> bool, k: int)
  {
    0 <= k < |s| && p(s[k]) && forall j :: 0 <= j < k ==> !p(s[j])
  }

  /** The first match is unique, so `FindFirst` returns the element at any first-match index. */
  lemma FindFirstAt<T>(s: seq<T>, p: T -> bool, k: int)
    requires IsFirst(s, p, k)
    ensures FindFirst(s, p) == Some(s[k])
  {
    var r := FindFirst(s, p);
    var k' :| 0 <= k' < |s| && IsFirst(s, p, k') && s[k'] == r.value;
    assert k' == k;
  }

  /** `s.filter((_, i) => i !== index)` for the suffix of the array that starts at position `from`. */
  function FilterOutIndexFrom<T>(s: seq<T>, index: int, from: int): seq<T>
    decreases |s|
  {
    if s == [] then []
    else (if from != index then [s[0]] else []) + FilterOutIndexFrom(s[1..], index, from + 1)
  }

  /** `s.filter((_, i) => i !== index)`. */
  function FilterOutIndex<T>(s: seq<T>, index: int): seq<T>
  {
    FilterOutIndexFrom(s, index, 0)
  }

  lemma {:induction false} FilterOutIndexFromSlices<T>(s: seq<T>, index: int, from: int)
    ensures from <= index < from + |s| ==>
      FilterOutIndexFrom(s, index, from) == s[..index - from] + s[index - from + 1..]
    ensures !(from <= index < from + |s|) ==> FilterOutIndexFrom(s, index, from) == s
  {
    if s != [] {
      FilterOutIndexFromSlices(s[1..], index, from + 1);
      if from == index {
        assert s[..0] + s[1..] == s[1..];
      } else if from < index < from + |s| {
        ConsSlices(s, index - from);
      } else {
        assert [s[0]] + s[1..] == s;
      }
    }
  }

  /** Putting the head back in front of the tail with element `k - 1` removed removes element `k`. */
  lemma ConsSlices<T>(s: seq<T>, k: int)
    requires 1 <= k < |s|
    ensures [s[0]] + (s[1..][..k - 1] + s[1..][k..]) == s[..k] + s[k + 1..]
  {
    assert s[1..][..k - 1] == s[1..k];
    assert s[1..][k..] == s[k + 1..];
    assert [s[0]] + s[1..k] == s[..k];
  }

  /** Removing by position drops exactly element `index` when it exists, and nothing otherwise. */
  lemma FilterOutIndexSlices<T>(s: seq<T>, index: int)
    ensures 0 <= index < |s| ==> FilterOutIndex(s, index) == s[..index] + s[index + 1..]
    ensures !(0 <= index < |s|) ==> FilterOutIndex(s, index) == s
  {
    FilterOutIndexFromSlices(s, index, 0);
  }
}
