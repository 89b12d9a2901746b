/** Generic operations on sequences that the report's data-frame steps are built from:
    an element-wise map (a column computed with `apply`), a boolean-mask filter, and a
    sort by a numeric key in descending order. */
module Sequences {

  /** Applies `f` to every element, keeping positions. */
  function Map<T, U>(f: T -> U, s: seq<T>): (r: seq<U>)
    ensures |r| == |s|
    ensures forall i :: 0 <= i < |s| ==> r[i] == f(s[i])
  {
    seq(|s|, i requires 0 <= i < |s| => f(s[i]))
  }

  /** `a` can be obtained from `b` by deleting elements: its elements occur in `b` in the same order. */
  predicate IsSubsequence<T(==)>(a: seq<T>, b: seq<T>)
    decreases |b|
  {
    if a == [] then true
    else if b == [] then false
    else (a[0] == b[0] && IsSubsequence(a[1..], b[1..])) || IsSubsequence(a, b[1..])
  }

  /** Keeps the elements that satisfy `p`, in their original order (a boolean mask `df[mask]`). */
  function Filter<T(==)>(p: T -> bool, s: seq<T>): (r: seq<T>)
    ensures forall x :: x in r ==> x in s && p(x)
    ensures forall x | x in s :: multiset(r)[x] == if p(x) then multiset(s)[x] else 0
    ensures IsSubsequence(r, s)
  {
    if s == [] then []
    else
      var rest := Filter(p, s[1..]);
      assert s == [s[0]] + s[1..];
      if p(s[0]) then
        assert ([s[0]] + rest)[1..] == rest;
        [s[0]] + rest
      else
        assert rest != [] ==> IsSubsequence(rest, s[1..]);
        rest
  }

  /** The keys of `s` never increase from left to right. */
  predicate NonIncreasing<T>(s: seq<T>, key: T -> nat) {
    forall i, j :: 0 <= i < j < |s| ==> key(s[i]) >= key(s[j])
  }

  /** Putting an element with a key at least every other key in front keeps the order. */
  lemma NonIncreasingCons<T>(x: T, s: seq<T>, key: T -> nat)
    requires NonIncreasing(s, key)
    requires forall k :: 0 <= k < |s| ==> key(x) >= key(s[k])
    ensures NonIncreasing([x] + s, key)
  {
    var r := [x] + s;
    forall i, j | 0 <= i < j < |r| ensures key(r[i]) >= key(r[j]) {
      assert r[j] == s[j - 1];
      if i > 0 {
        assert r[i] == s[i - 1];
      }
    }
  }

  /** Inserts `x` into a sequence already ordered by descending key. */
  function InsertDesc<T(==)>(x: T, s: seq<T>, key: T -> nat): (r: seq<T>)
    requires NonIncreasing(s, key)
    ensures NonIncreasing(r, key)
    ensures multiset(r) == multiset(s) + multiset{x}
    ensures forall y :: y in r ==> y in s || y == x
  {
    if s == [] || key(s[0]) <= key(x) then
      NonIncreasingCons(x, s, key);
      [x] + s
    else
      var rest := InsertDesc(x, s[1..], key);
      assert s == [s[0]] + s[1..];
      assert forall k | 0 <= k < |rest| :: key(s[0]) >= key(rest[k]) by {
        forall k | 0 <= k < |rest| ensures key(s[0]) >= key(rest[k]) {
          assert rest[k] in rest;
        }
      }
      NonIncreasingCons(s[0], rest, key);
      [s[0]] + rest
  }

  /** A reordering of `s` by descending key. Which of several elements with equal keys comes
      first is a choice of this particular sort and is not part of its contract. */
  function SortDesc<T(==)>(s: seq<T>, key: T -> nat): (r: seq<T>)
    ensures multiset(r) == multiset(s)
    ensures NonIncreasing(r, key)
  {
    if s == [] then []
    else
      assert s == [s[0]] + s[1..];
      InsertDesc(s[0], SortDesc(s[1..], key), key)
  }

  /** Mapping a filtered sequence and filtering the images is one filter followed by the map. */
  lemma {:induction false} FilterOfMapOfFilter<T, U>(
    q: U -> bool, f: T -> U, p: T -> bool, pq: T -> bool, s: seq<T>)
    requires forall x :: pq(x) == (p(x) && q(f(x)))
    ensures Filter(q, Map(f, Filter(p, s))) == Map(f, Filter(pq, s))
  {
    if s != [] {
      FilterOfMapOfFilter(q, f, p, pq, s[1..]);
      var inner := Filter(p, s[1..]);
      if p(s[0]) {
        assert Map(f, [s[0]] + inner) == [f(s[0])] + Map(f, inner);
        assert Map(f, [s[0]] + inner)[1..] == Map(f, inner);
      }
      if pq(s[0]) {
        var tail := Filter(pq, s[1..]);
        assert Map(f, [s[0]] + tail) == [f(s[0])] + Map(f, tail);
      }
    }
  }

  /** Deleting the element at position `j` removes one copy of it from the multiset. */
  lemma DeleteAt<T>(b: seq<T>, j: nat)
    requires j < |b|
    ensures multiset(b[..j] + b[j + 1..]) == multiset(b) - multiset{b[j]}
  {
    assert b == b[..j] + [b[j]] + b[j + 1..];
  }

  /** In a permutation `b` of a non-empty `a`, some `b[j]` is `a[0]`, and the rests are
      permutations of each other. */
  lemma MatchHead<T>(a: seq<T>, b: seq<T>) returns (j: nat)
    requires multiset(a) == multiset(b) && a != []
    ensures j < |b| && b[j] == a[0]
    ensures multiset(a[1..]) == multiset(b[..j] + b[j + 1..])
  {
    assert a[0] in multiset(b);
    j :| 0 <= j < |b| && b[j] == a[0];
    DeleteAt(b, j);
    DeleteAt(a, 0);
    assert a[..0] + a[1..] == a[1..];
  }

  /** Mapping a non-empty sequence maps its head and then its tail. */
  lemma MapCons<T, U>(f: T -> U, a: seq<T>)
    requires a != []
    ensures Map(f, a) == [f(a[0])] + Map(f, a[1..])
  {
  }

  /** The image of a member is a member of the image. */
  lemma MapMember<T, U>(f: T -> U, s: seq<T>, x: T)
    requires x in s
    ensures f(x) in Map(f, s)
  {
    var k :| 0 <= k < |s| && s[k] == x;
    assert Map(f, s)[k] == f(x);
  }

  /** An element of the image of a filter is the image of a kept element. */
  lemma MapFilterMember<T, U>(f: T -> U, p: T -> bool, s: seq<T>, y: U) returns (x: T)
    requires y in Map(f, Filter(p, s))
    ensures x in s && p(x) && y == f(x)
  {
    var kept := Filter(p, s);
    var k :| 0 <= k < |kept| && Map(f, kept)[k] == y;
    assert kept[k] in kept;
    x := kept[k];
  }

  /** Every element of a permutation of `b` is an element of `b`. */
  lemma PermutationMembers<T>(a: seq<T>, b: seq<T>)
    requires multiset(a) == multiset(b)
    ensures forall k :: 0 <= k < |a| ==> a[k] in b
  {
    forall k | 0 <= k < |a| ensures a[k] in b {
      assert a[k] in multiset(a);
    }
  }

  /** Mapping commutes with deleting the element at position `j`. */
  lemma MapDeleteAt<T, U>(f: T -> U, b: seq<T>, j: nat)
    requires j < |b|
    ensures Map(f, b[..j] + b[j + 1..]) == Map(f, b)[..j] + Map(f, b)[j + 1..]
  {
  }

  /** One step of MapPreservesMultiset: the images agree once they agree without `a[0]` and `b[j]`. */
  lemma MapMultisetStep<T, U>(f: T -> U, a: seq<T>, b: seq<T>, j: nat)
    requires a != [] && j < |b| && b[j] == a[0]
    requires multiset(Map(f, a[1..])) == multiset(Map(f, b[..j] + b[j + 1..]))
    ensures multiset(Map(f, a)) == multiset(Map(f, b))
  {
    var mb := Map(f, b);
    MapCons(f, a);
    MapDeleteAt(f, b, j);
    DeleteAt(mb, j);
    calc {
      multiset(Map(f, a));
      multiset{f(a[0])} + multiset(Map(f, a[1..]));
      multiset{mb[j]} + (multiset(mb) - multiset{mb[j]});
      multiset(mb);
    }
  }

  /** Mapping two sequences with the same elements gives sequences with the same elements. */
  lemma {:induction false} MapPreservesMultiset<T, U>(f: T -> U, a: seq<T>, b: seq<T>)
    requires multiset(a) == multiset(b)
    ensures multiset(Map(f, a)) == multiset(Map(f, b))
    decreases |a|
  {
    if a == [] {
      assert |multiset(b)| == 0;
    } else {
      var j := MatchHead(a, b);
      MapPreservesMultiset(f, a[1..], b[..j] + b[j + 1..]);
      MapMultisetStep(f, a, b, j);
    }
  }

  /** Mapping preserves the subsequence relation. */
  lemma {:induction false} MapPreservesSubsequence<T, U>(f: T -> U, a: seq<T>, b: seq<T>)
    requires IsSubsequence(a, b)
    ensures IsSubsequence(Map(f, a), Map(f, b))
    decreases |b|
  {
    if a != [] {
      assert Map(f, b)[1..] == Map(f, b[1..]);
      if a[0] == b[0] && IsSubsequence(a[1..], b[1..]) {
        MapPreservesSubsequence(f, a[1..], b[1..]);
        assert Map(f, a)[1..] == Map(f, a[1..]);
      } else {
        MapPreservesSubsequence(f, a, b[1..]);
      }
    }
  }

  /** The sum of the keys of all elements. */
  function SumOf<T>(s: seq<T>, key: T -> nat): nat {
    if s == [] then 0 else key(s[0]) + SumOf(s[1..], key)
  }

  lemma {:induction false} SumOfConcat<T>(a: seq<T>, b: seq<T>, key: T -> nat)
    ensures SumOf(a + b, key) == SumOf(a, key) + SumOf(b, key)
    decreases |a|
  {
    if a == [] {
      assert a + b == b;
    } else {
      assert (a + b)[1..] == a[1..] + b;
      SumOfConcat(a[1..], b, key);
    }
  }

  /** Reordering does not change the sum. */
  lemma {:induction false} SumOfPermutation<T>(a: seq<T>, b: seq<T>, key: T -> nat)
    requires multiset(a) == multiset(b)
    ensures SumOf(a, key) == SumOf(b, key)
    decreases |a|
  {
    if a == [] {
      assert |multiset(b)| == 0;
    } else {
      var j := MatchHead(a, b);
      SumOfPermutation(a[1..], b[..j] + b[j + 1..], key);
      SumOfDeleteAt(b, j, key);
    }
  }

  lemma SumOfDeleteAt<T>(b: seq<T>, j: nat, key: T -> nat)
    requires j < |b|
    ensures SumOf(b, key) == key(b[j]) + SumOf(b[..j] + b[j + 1..], key)
  {
    assert b == b[..j] + ([b[j]] + b[j + 1..]);
    SumOfConcat(b[..j], [b[j]] + b[j + 1..], key);
    SumOfConcat(b[..j], b[j + 1..], key);
  }

  /** Dropping the elements whose key is zero does not change the sum. */
  lemma {:induction false} SumOfDropZeros<T>(p: T -> bool, s: seq<T>, key: T -> nat)
    requires forall x :: p(x) == (key(x) > 0)
    ensures SumOf(Filter(p, s), key) == SumOf(s, key)
  {
    if s != [] {
      SumOfDropZeros(p, s[1..], key);
    }
  }

  /** Summing mapped elements sums a key of the originals. */
  lemma {:induction false} SumOfMap<T, U>(f: T -> U, s: seq<T>, key: U -> nat, key': T -> nat)
    requires forall x :: key(f(x)) == key'(x)
    ensures SumOf(Map(f, s), key) == SumOf(s, key')
  {
    if s != [] {
      MapCons(f, s);
      SumOfMap(f, s[1..], key, key');
    }
  }
}
