/**
 * Stable sorting into non-increasing key order: what `xs.sort((a, b) => key(b) - key(a))`
 * does in JavaScript (whose `sort` is stable). `SortDesc` is the reference definition;
 * `SortInPlace` is the in-place array algorithm, proved to compute it.
 */
module Sorting {
  import Seqs

  /** Keys never increase from left to right. */
  ghost predicate SortedDesc<T>(s: seq<T>, key: T -> int) {
    forall i, j :: 0 <= i < j < |s| ==> key(s[i]) >= key(s[j])
  }

  /** Filtering a sorted sequence keeps it sorted. */
  lemma {:induction false} FilterSortedDesc<T>(s: seq<T>, p: T -> bool, key: T -> int)
    requires SortedDesc(s, key)
    ensures SortedDesc(Seqs.Filter(s, p), key)
  {
    if s != [] {
      var t := s[1..];
      FilterSortedDesc(t, p, key);
      if p(s[0]) {
        assert Seqs.Filter(s, p) == [s[0]] + Seqs.Filter(t, p);
        HeadDominates(s, key);
        ConsSorted(s[0], Seqs.Filter(t, p), key);
      } else {
        assert Seqs.Filter(s, p) == Seqs.Filter(t, p);
      }
    }
  }

  /** The first element of a sorted sequence has the largest key. */
  lemma HeadDominates<T>(s: seq<T>, key: T -> int)
    requires s != [] && SortedDesc(s, key)
    ensures forall x :: x in s[1..] ==> key(s[0]) >= key(x)
  {
    forall x | x in s[1..] ensures key(s[0]) >= key(x) {
      var j :| 0 <= j < |s[1..]| && s[1..][j] == x;
      assert s[j + 1] == x;
    }
  }

  /** A head whose key bounds every later key extends a sorted sequence. */
  lemma ConsSorted<T>(h: T, rest: seq<T>, key: T -> int)
    requires SortedDesc(rest, key) && forall x :: x in rest ==> key(h) >= key(x)
    ensures SortedDesc([h] + rest, key)
  {
    var s := [h] + rest;
    forall i, j | 0 <= i < j < |s| ensures key(s[i]) >= key(s[j]) {
      assert s[j] == rest[j - 1];
      if i > 0 {
        assert s[i] == rest[i - 1];
      } else {
        assert rest[j - 1] in rest;
      }
    }
  }

  /** Insert `x` after every trailing element whose key is below it; equal keys keep `x` last. */
  function Insert<T>(t: seq<T>, x: T, key: T -> int): (r: seq<T>)
    ensures |r| == |t| + 1
  {
    if t == [] || key(t[|t| - 1]) >= key(x) then t + [x]
    else Insert(t[..|t| - 1], x, key) + [t[|t| - 1]]
  }

  /** Insertion adds exactly the one element. */
  lemma {:induction false} InsertPermutation<T>(t: seq<T>, x: T, key: T -> int)
    ensures multiset(Insert(t, x, key)) == multiset(t) + multiset{x}
  {
    if !(t == [] || key(t[|t| - 1]) >= key(x)) {
      InsertPermutation(t[..|t| - 1], x, key);
      assert t == t[..|t| - 1] + [t[|t| - 1]];
    }
  }

  /** Insertion sort, taking the elements from left to right. */
  function SortDesc<T>(s: seq<T>, key: T -> int): (r: seq<T>)
    ensures |r| == |s|
  {
    if s == [] then [] else Insert(SortDesc(s[..|s| - 1], key), s[|s| - 1], key)
  }

  /** Inserting into a sorted sequence keeps it sorted. */
  lemma {:induction false} InsertSorted<T>(t: seq<T>, x: T, key: T -> int)
    requires SortedDesc(t, key)
    ensures SortedDesc(Insert(t, x, key), key)
  {
    if t == [] || key(t[|t| - 1]) >= key(x) {
    } else {
      var u := t[..|t| - 1];
      assert SortedDesc(u, key);
      InsertSorted(u, x, key);
      var w := Insert(u, x, key);
      // every element of w is either x or an element of u, all of whose keys are >= key(last of t)
      assert forall k :: 0 <= k < |w| ==> key(w[k]) >= key(t[|t| - 1]) by {
        forall k | 0 <= k < |w| ensures key(w[k]) >= key(t[|t| - 1]) {
          InsertPermutation(u, x, key);
          assert w[k] in multiset(w);
          assert w[k] in multiset(u) || w[k] == x;
          if w[k] != x {
            var m :| 0 <= m < |u| && u[m] == w[k];
            assert u[m] == t[m];
          }
        }
      }
    }
  }

  /** The reference sort yields a non-increasing sequence. */
  lemma {:induction false} SortDescSorted<T>(s: seq<T>, key: T -> int)
    ensures SortedDesc(SortDesc(s, key), key)
  {
    if s != [] {
      SortDescSorted(s[..|s| - 1], key);
      InsertSorted(SortDesc(s[..|s| - 1], key), s[|s| - 1], key);
    }
  }

  /** The reference sort is a permutation of its input. */
  lemma {:induction false} SortDescPermutation<T>(s: seq<T>, key: T -> int)
    ensures multiset(SortDesc(s, key)) == multiset(s)
  {
    if s != [] {
      SortDescPermutation(s[..|s| - 1], key);
      InsertPermutation(SortDesc(s[..|s| - 1], key), s[|s| - 1], key);
      assert s == s[..|s| - 1] + [s[|s| - 1]];
    }
  }

  /** Sorting a sequence already in order changes nothing, so sorting twice is sorting once. */
  lemma {:induction false} SortDescOfSorted<T>(s: seq<T>, key: T -> int)
    requires SortedDesc(s, key)
    ensures SortDesc(s, key) == s
  {
    if s != [] {
      var u := s[..|s| - 1];
      assert SortedDesc(u, key);
      SortDescOfSorted(u, key);
      assert u == [] || key(u[|u| - 1]) >= key(s[|s| - 1]);
      assert u + [s[|s| - 1]] == s;
    }
  }

  /** In-place insertion sort of an array into non-increasing key order. */
  method SortInPlace<T>(a: array<T>, key: T -> int)
    modifies a
    ensures a[..] == SortDesc(old(a[..]), key)
  {
    ghost var s := a[..];
    var i := 0;
    while i < a.Length
      invariant 0 <= i <= a.Length
      invariant a[..i] == SortDesc(s[..i], key)
      invariant a[i..] == s[i..]
    {
      ghost var rest := a[i..];
      assert a[i] == rest[0] && rest[1..] == s[i + 1..];
      InsertAt(a, i, key);
      SortStep(s, i, key);
      i := i + 1;
    }
    assert a[..] == a[..a.Length];
    assert s == s[..a.Length];
  }

  /** Sorting one more element is inserting it into the sorted prefix. */
  lemma SortStep<T>(s: seq<T>, i: nat, key: T -> int)
    requires i < |s|
    ensures SortDesc(s[..i + 1], key) == Insert(SortDesc(s[..i], key), s[i], key)
  {
    assert s[..i + 1][..i] == s[..i];
  }

  /** One insertion step: `a[i]` moves into the sorted prefix `a[..i]`; the rest stays put. */
  method InsertAt<T>(a: array<T>, i: nat, key: T -> int)
    requires i < a.Length
    modifies a
    ensures a[..i + 1] == Insert(old(a[..i]), old(a[i]), key)
    ensures a[i + 1..] == old(a[i + 1..])
  {
    var x := a[i];
    ghost var prefix, tail := a[..i], a[i + 1..];
    assert prefix[..i] == prefix && prefix[i..] == [];
    assert a[..] == prefix[..i] + [a[i]] + prefix[i..] + tail;
    var j := OpenGap(a, i, x, key, prefix, tail);
    if j > 0 {
      ShiftLeft(a[..], prefix, tail, j);
    }
    InsertStops(prefix, x, key, j);
    Settle(a[..], prefix, tail, j, x);
    a[j] := x;
  }

  /**
   * The shifting loop of one insertion step: elements of the sorted prefix with a key below
   * that of `x` move one place right, opening a gap at `j` where `x` belongs.
   */
  method OpenGap<T>(a: array<T>, i: nat, x: T, key: T -> int, ghost prefix: seq<T>, ghost tail: seq<T>)
    returns (j: nat)
    requires i < a.Length && |prefix| == i
    requires a[..] == prefix[..i] + [a[i]] + prefix[i..] + tail
    modifies a
    ensures j <= i && a[..] == prefix[..j] + [a[j]] + prefix[j..] + tail
    ensures Insert(prefix, x, key) == Insert(prefix[..j], x, key) + prefix[j..]
    ensures j == 0 || key(prefix[j - 1]) >= key(x)
  {
    j := i;
    assert prefix[..i] == prefix && prefix[i..] == [];
    while j > 0 && key(a[j - 1]) < key(x)
      invariant 0 <= j <= i
      invariant a[..] == prefix[..j] + [a[j]] + prefix[j..] + tail
      invariant Insert(prefix, x, key) == Insert(prefix[..j], x, key) + prefix[j..]
    {
      ShiftLeft(a[..], prefix, tail, j);
      InsertStep(prefix, x, key, j);
      a[j] := a[j - 1];
      j := j - 1;
    }
    if j > 0 {
      ShiftLeft(a[..], prefix, tail, j);
    }
  }

  /** Insertion stops at the gap once the element left of it has a key at least that of `x`. */
  lemma InsertStops<T>(prefix: seq<T>, x: T, key: T -> int, j: nat)
    requires j <= |prefix| && (j == 0 || key(prefix[j - 1]) >= key(x))
    ensures Insert(prefix[..j], x, key) == prefix[..j] + [x]
  {
  }

  /** Copying the element left of the gap into it moves the gap one place left. */
  lemma ShiftLeft<T>(cur: seq<T>, prefix: seq<T>, tail: seq<T>, j: nat)
    requires 0 < j <= |prefix| && |cur| == |prefix| + 1 + |tail|
    requires cur == prefix[..j] + [cur[j]] + prefix[j..] + tail
    ensures cur[j - 1] == prefix[j - 1]
    ensures cur[j := cur[j - 1]] == prefix[..j - 1] + [prefix[j - 1]] + prefix[j - 1..] + tail
  {
    assert cur[j - 1] == (prefix[..j])[j - 1];
  }

  /** Filling the gap with `x` puts `x` between the two halves of the prefix, before the untouched tail. */
  lemma Settle<T>(cur: seq<T>, prefix: seq<T>, tail: seq<T>, j: nat, x: T)
    requires j <= |prefix| && |cur| == |prefix| + 1 + |tail|
    requires cur == prefix[..j] + [cur[j]] + prefix[j..] + tail
    ensures cur[j := x][..|prefix| + 1] == prefix[..j] + [x] + prefix[j..]
    ensures cur[j := x][|prefix| + 1..] == tail
  {
    var r := cur[j := x];
    assert r == prefix[..j] + [x] + prefix[j..] + tail;
  }

  /** Moving the insertion point one place left, past an element with a smaller key. */
  lemma InsertStep<T>(prefix: seq<T>, x: T, key: T -> int, j: nat)
    requires 0 < j <= |prefix| && key(prefix[j - 1]) < key(x)
    ensures Insert(prefix[..j], x, key) + prefix[j..] == Insert(prefix[..j - 1], x, key) + prefix[j - 1..]
  {
    assert prefix[..j][..j - 1] == prefix[..j - 1];
    assert prefix[j - 1..] == [prefix[j - 1]] + prefix[j..];
  }
}
