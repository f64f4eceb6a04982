/** Sequence operations the services use through JavaScript built-ins:
    slicing, de-duplication through a `Set`, and the stable array sort. */
module Seqs {

  /** `xs.slice(0, n)`: at most the first `n` elements. */
  function Take<T>(xs: seq<T>, n: nat): (r: seq<T>)
    ensures |r| <= n && |r| <= |xs|
    ensures |r| == n || |r| == |xs|
    ensures r == xs[..|r|]
  {
    if n < |xs| then xs[..n] else xs
  }

  /** `xs.slice(n)`: everything after the first `n` elements. */
  function Drop<T>(xs: seq<T>, n: nat): (r: seq<T>)
    ensures Take(xs, n) + r == xs
  {
    if n < |xs| then xs[n..] else []
  }

  /** No element occurs twice. */
  ghost predicate Distinct<T>(xs: seq<T>) {
    forall i, j | 0 <= i < j < |xs| :: xs[i] != xs[j]
  }

  /** Position of the first occurrence of `x`. */
  function FirstIndex<T(==)>(xs: seq<T>, x: T): (i: nat)
    requires x in xs
    ensures i < |xs| && xs[i] == x
    ensures x !in xs[..i]
  {
    if xs[0] == x then 0
    else
      var i := FirstIndex(xs[1..], x);
      assert xs[..i + 1] == [xs[0]] + xs[1..][..i];
      i + 1
  }

  lemma {:induction false} FirstIndexOfExtension<T>(p: seq<T>, y: T, x: T)
    requires x in p
    ensures FirstIndex(p + [y], x) == FirstIndex(p, x)
    decreases |p|
  {
    if p[0] != x {
      assert (p + [y])[1..] == p[1..] + [y];
      FirstIndexOfExtension(p[1..], y, x);
    }
  }

  /** De-duplication through a JavaScript `Set`, which remembers insertion
      order, so the result keeps each element at its first occurrence. */
  function Dedup<T(==)>(xs: seq<T>): (r: seq<T>)
    decreases |xs|
  {
    if |xs| == 0 then []
    else
      var front := Dedup(xs[..|xs| - 1]);
      if xs[|xs| - 1] in xs[..|xs| - 1] then front else front + [xs[|xs| - 1]]
  }

  /** The de-duplicated sequence holds exactly the elements of `xs`, each once,
      ordered by where each first occurs in `xs`. */
  lemma {:induction false} DedupIsFirstOccurrences<T>(xs: seq<T>)
    ensures Distinct(Dedup(xs))
    ensures forall x :: x in Dedup(xs) <==> x in xs
    ensures forall i, j | 0 <= i < j < |Dedup(xs)| ::
      FirstIndex(xs, Dedup(xs)[i]) < FirstIndex(xs, Dedup(xs)[j])
    ensures |Dedup(xs)| <= |xs|
    decreases |xs|
  {
    if |xs| > 0 {
      var n := |xs|;
      var p, last := xs[..n - 1], xs[n - 1];
      assert xs == p + [last];
      DedupIsFirstOccurrences(p);
      var front := Dedup(p);
      forall y | y in p
        ensures FirstIndex(xs, y) == FirstIndex(p, y)
      {
        FirstIndexOfExtension(p, last, y);
      }
      if last !in p {
        assert FirstIndex(xs, last) == n - 1;
        var r := Dedup(xs);
        assert r == front + [last];
        forall i, j | 0 <= i < j < |r|
          ensures FirstIndex(xs, r[i]) < FirstIndex(xs, r[j])
        {
          assert r[i] in front;
          if j == |r| - 1 {
            assert FirstIndex(xs, r[i]) == FirstIndex(p, r[i]) < |p|;
          } else {
            assert r[j] in front;
          }
        }
      }
    }
  }

  /** The number of distinct elements of a duplicate-free sequence is its length. */
  lemma {:induction false} DistinctCardinality<T>(xs: seq<T>)
    requires Distinct(xs)
    ensures |set x | x in xs| == |xs|
    decreases |xs|
  {
    if |xs| > 0 {
      var tail := xs[1..];
      assert Distinct(tail) by {
        forall i, j | 0 <= i < j < |tail| ensures tail[i] != tail[j] {
          assert tail[i] == xs[i + 1] && tail[j] == xs[j + 1];
        }
      }
      DistinctCardinality(tail);
      assert xs[0] !in tail by {
        forall i | 0 <= i < |tail| ensures tail[i] != xs[0] {
          assert tail[i] == xs[i + 1];
        }
      }
      assert (set x | x in xs) == {xs[0]} + (set x | x in tail);
    }
  }

  /** Non-increasing under `key`. */
  ghost predicate SortedDesc<T>(s: seq<T>, key: T -> real) {
    forall i, j | 0 <= i < j < |s| :: key(s[i]) >= key(s[j])
  }

  /** The elements whose key is exactly `v`, in their order in `s`. A sort is
      stable exactly when it leaves every such sub-sequence unchanged. */
  function KeyFilter<T>(s: seq<T>, key: T -> real, v: real): seq<T>
    decreases |s|
  {
    if |s| == 0 then []
    else (if key(s[0]) == v then [s[0]] else []) + KeyFilter(s[1..], key, v)
  }

  /** Inserts `x` before the first element whose key is not larger than its own. */
  function InsertDesc<T>(x: T, s: seq<T>, key: T -> real): (r: seq<T>)
    ensures |r| == |s| + 1
    ensures forall y | y in r :: y == x || y in s
    decreases |s|
  {
    if |s| == 0 || key(x) >= key(s[0]) then [x] + s
    else [s[0]] + InsertDesc(x, s[1..], key)
  }

  /** Stable sort by descending key, what the built-in sort computes with a
      comparator subtracting the first key from the second (it is stable). */
  function SortDesc<T>(s: seq<T>, key: T -> real): (r: seq<T>)
    ensures |r| == |s|
    decreases |s|
  {
    if |s| == 0 then [] else InsertDesc(s[0], SortDesc(s[1..], key), key)
  }

  lemma {:induction false} SortedDescTail<T>(s: seq<T>, key: T -> real)
    requires |s| > 0 && SortedDesc(s, key)
    ensures SortedDesc(s[1..], key)
  {
    var tail := s[1..];
    forall i, j | 0 <= i < j < |tail| ensures key(tail[i]) >= key(tail[j]) {
      assert tail[i] == s[i + 1] && tail[j] == s[j + 1];
    }
  }

  lemma {:induction false} InsertDescPermutes<T>(x: T, s: seq<T>, key: T -> real)
    ensures multiset(InsertDesc(x, s, key)) == multiset(s) + multiset{x}
    decreases |s|
  {
    if |s| > 0 && key(x) < key(s[0]) {
      InsertDescPermutes(x, s[1..], key);
      assert s == [s[0]] + s[1..];
    }
  }

  lemma {:induction false} InsertDescSorted<T>(x: T, s: seq<T>, key: T -> real)
    requires SortedDesc(s, key)
    ensures SortedDesc(InsertDesc(x, s, key), key)
    decreases |s|
  {
    if |s| > 0 && key(x) < key(s[0]) {
      var tail := s[1..];
      SortedDescTail(s, key);
      InsertDescSorted(x, tail, key);
      var rest := InsertDesc(x, tail, key);
      HeadDominates(x, s, key);
      var r := InsertDesc(x, s, key);
      assert r == [s[0]] + rest;
      forall i, j | 0 <= i < j < |r| ensures key(r[i]) >= key(r[j]) {
        assert r[j] == rest[j - 1];
        if i > 0 {
          assert r[i] == rest[i - 1];
        }
      }
    }
  }

  /** When `x` goes after the head, the head outranks everything after it. */
  lemma HeadDominates<T>(x: T, s: seq<T>, key: T -> real)
    requires |s| > 0 && SortedDesc(s, key) && key(x) < key(s[0])
    ensures forall y | y in InsertDesc(x, s[1..], key) :: key(s[0]) >= key(y)
  {
    forall y | y in InsertDesc(x, s[1..], key) ensures key(s[0]) >= key(y) {
      if y != x {
        var m :| 0 <= m < |s[1..]| && s[1..][m] == y;
        assert s[m + 1] == y;
      }
    }
  }

  lemma {:induction false} InsertDescKeyFilter<T>(x: T, s: seq<T>, key: T -> real, v: real)
    ensures KeyFilter(InsertDesc(x, s, key), key, v)
         == (if key(x) == v then [x] else []) + KeyFilter(s, key, v)
    decreases |s|
  {
    var r := InsertDesc(x, s, key);
    if |s| == 0 || key(x) >= key(s[0]) {
      assert r[1..] == s;
    } else {
      InsertDescKeyFilter(x, s[1..], key, v);
      assert r[1..] == InsertDesc(x, s[1..], key);
      assert key(s[0]) != v || key(x) != v;
    }
  }

  /** `SortDesc` is a stable sort: the result is non-increasing, a permutation of
      the input, and equal-key elements keep their relative order. */
  lemma {:induction false} SortDescIsStableSort<T>(s: seq<T>, key: T -> real)
    ensures SortedDesc(SortDesc(s, key), key)
    ensures multiset(SortDesc(s, key)) == multiset(s)
    ensures forall v :: KeyFilter(SortDesc(s, key), key, v) == KeyFilter(s, key, v)
    decreases |s|
  {
    if |s| > 0 {
      SortDescIsStableSort(s[1..], key);
      var t := SortDesc(s[1..], key);
      assert s == [s[0]] + s[1..];
      forall v ensures KeyFilter(SortDesc(s, key), key, v) == KeyFilter(s, key, v) {
        InsertDescKeyFilter(s[0], t, key, v);
      }
      InsertDescSorted(s[0], t, key);
      InsertDescPermutes(s[0], t, key);
    }
  }

  /** Sorting an already non-increasing sequence changes nothing. */
  lemma {:induction false} SortDescOfSorted<T>(s: seq<T>, key: T -> real)
    requires SortedDesc(s, key)
    ensures SortDesc(s, key) == s
    decreases |s|
  {
    if |s| > 0 {
      var tail := s[1..];
      SortedDescTail(s, key);
      SortDescOfSorted(tail, key);
      assert s == [s[0]] + tail;
    }
  }

  /** The first `n` elements of a descending sort are drawn from the input and
      dominate every input element left out of them. */
  lemma {:induction false} TopOfSortDesc<T>(s: seq<T>, key: T -> real, n: nat)
    ensures SortedDesc(Take(SortDesc(s, key), n), key)
    ensures forall t | t in Take(SortDesc(s, key), n) :: t in s
    ensures multiset(Take(SortDesc(s, key), n)) <= multiset(s)
    ensures forall x, t | x in s && t in Take(SortDesc(s, key), n) ::
      x in Take(SortDesc(s, key), n) || key(x) <= key(t)
  {
    var sorted := SortDesc(s, key);
    var top := Take(sorted, n);
    SortDescIsStableSort(s, key);
    assert sorted == top + sorted[|top|..];
    forall t | t in top ensures t in s {
      assert t in multiset(sorted);
    }
    forall x, t | x in s && t in top ensures x in top || key(x) <= key(t) {
      assert x in multiset(sorted);
      var j :| 0 <= j < |sorted| && sorted[j] == x;
      var i :| 0 <= i < |top| && top[i] == t;
      if j >= |top| {
        assert sorted[i] == t;
      } else {
        assert top[j] == x;
      }
    }
  }
}
