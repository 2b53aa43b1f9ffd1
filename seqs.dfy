/** Sequence helpers used by the in-memory tables and by the rule matcher:
    `filter` / `find` / `ORDER BY ... DESC` / `LIMIT`. */
module Seqs {
  import opened Wrappers

  /** The elements of `s` satisfying `p`, in their original order. */
  function Filter<T(!new)>(s: seq<T>, p: T -> bool): (r: seq<T>)
    ensures |r| <= |s|
    ensures forall x :: x in r <==> x in s && p(x)
    ensures multiset(r) <= multiset(s)
  {
    if s == [] then []
    else
      assert s == [s[0]] + s[1..];
      (if p(s[0]) then [s[0]] else []) + Filter(s[1..], p)
  }

  /** Filtering keeps the relative order: an element-wise property of `s` holds of the result. */
  lemma {:induction false} FilterKeeps<T(!new)>(s: seq<T>, p: T -> bool, q: T -> bool)
    requires forall i :: 0 <= i < |s| ==> q(s[i])
    ensures forall i :: 0 <= i < |Filter(s, p)| ==> q(Filter(s, p)[i])
  {
    if s != [] {
      FilterKeeps(s[1..], p, q);
    }
  }

  /** `R` holds of every ordered pair of positions (distinct ids, distinct keys). */
  ghost predicate Pairwise<T>(s: seq<T>, R: (T, T) -> bool) {
    forall i, j :: 0 <= i < j < |s| ==> R(s[i], s[j])
  }

  /** Filtering keeps a pairwise property: the result is a subsequence. */
  lemma {:induction false} FilterPairwise<T(!new)>(s: seq<T>, p: T -> bool, R: (T, T) -> bool)
    requires Pairwise(s, R)
    ensures Pairwise(Filter(s, p), R)
  {
    if s != [] {
      var rest := Filter(s[1..], p);
      FilterPairwise(s[1..], p, R);
      if p(s[0]) {
        var r := [s[0]] + rest;
        assert Filter(s, p) == r;
        forall i, j | 0 <= i < j < |r|
          ensures R(r[i], r[j])
        {
          assert r[j] == rest[j - 1];
          if i == 0 {
            assert rest[j - 1] in s[1..];
            var k :| 0 <= k < |s[1..]| && s[1..][k] == rest[j - 1];
            assert s[k + 1] == rest[j - 1];
          } else {
            assert r[i] == rest[i - 1];
          }
        }
      }
    }
  }

  /** No value occurs twice in `s`. */
  ghost predicate Distinct<T>(s: seq<T>) {
    forall i, j :: 0 <= i < j < |s| ==> s[i] != s[j]
  }

  /** A sequence without repeated values holds each value at most once. */
  lemma {:induction false} DistinctOnce<T>(s: seq<T>, x: T)
    requires Distinct(s)
    ensures multiset(s)[x] <= 1
  {
    if s != [] {
      assert s == [s[0]] + s[1..];
      assert Distinct(s[1..]) by {
        forall i, j | 0 <= i < j < |s[1..]|
          ensures s[1..][i] != s[1..][j]
        {
          assert s[1..][i] == s[i + 1] && s[1..][j] == s[j + 1];
        }
      }
      DistinctOnce(s[1..], x);
      if s[0] == x {
        assert x !in s[1..] by {
          forall i | 0 <= i < |s[1..]|
            ensures s[1..][i] != x
          {
            assert s[1..][i] == s[i + 1];
          }
        }
      }
    }
  }

  /** A value at two positions occurs at least twice. */
  lemma RepeatedTwice<T>(s: seq<T>, i: nat, j: nat)
    requires i < j < |s| && s[i] == s[j]
    ensures multiset(s)[s[i]] >= 2
  {
    assert s == s[..j] + s[j..];
    assert s[i] in s[..j];
    assert s[j] in s[j..];
  }

  /** What is made of the values of a repetition-free sequence, no more often, repeats nothing. */
  lemma SubMultisetDistinct<T>(s: seq<T>, r: seq<T>)
    requires Distinct(s) && multiset(r) <= multiset(s)
    ensures Distinct(r)
  {
    forall i, j | 0 <= i < j < |r|
      ensures r[i] != r[j]
    {
      if r[i] == r[j] {
        RepeatedTwice(r, i, j);
        DistinctOnce(s, r[i]);
        assert false;
      }
    }
  }

  /** The first element of `s` satisfying `p` (`Array.prototype.find`). */
  function Find<T(!new)>(s: seq<T>, p: T -> bool): (r: Option<T>)
    ensures r.None? <==> forall x :: x in s ==> !p(x)
    ensures r.Some? ==> r.value in s && p(r.value)
  {
    if s == [] then None
    else if p(s[0]) then Some(s[0])
    else Find(s[1..], p)
  }

  /** `Find` returns the element at the first index where `p` holds, and only that one. */
  lemma {:induction false} FindFirst<T(!new)>(s: seq<T>, p: T -> bool, i: nat)
    requires i < |s| && p(s[i])
    requires forall j :: 0 <= j < i ==> !p(s[j])
    ensures Find(s, p) == Some(s[i])
  {
    if i > 0 {
      FindFirst(s[1..], p, i - 1);
    }
  }

  /** Whatever `Find` returns sits at an index before which nothing satisfies `p`. */
  lemma {:induction false} FindSome<T(!new)>(s: seq<T>, p: T -> bool) returns (i: nat)
    requires Find(s, p).Some?
    ensures i < |s| && s[i] == Find(s, p).value && p(s[i])
    ensures forall j :: 0 <= j < i ==> !p(s[j])
  {
    if p(s[0]) {
      i := 0;
    } else {
      var k := FindSome(s[1..], p);
      i := k + 1;
    }
  }

  /** Keys never increase from left to right (`ORDER BY key DESC`). */
  ghost predicate SortedDesc<T>(s: seq<T>, key: T -> int) {
    forall i, j :: 0 <= i < j < |s| ==> key(s[i]) >= key(s[j])
  }

  /** `s` with `x` inserted before the first element whose key does not exceed `key(x)`. */
  function InsertDesc<T>(s: seq<T>, x: T, key: T -> int): (r: seq<T>)
    ensures |r| == |s| + 1
  {
    if s == [] || key(s[0]) <= key(x) then [x] + s
    else [s[0]] + InsertDesc(s[1..], x, key)
  }

  /** Inserting adds exactly one occurrence of `x` and loses nothing. */
  lemma {:induction false} InsertDescPermutes<T>(s: seq<T>, x: T, key: T -> int)
    ensures multiset(InsertDesc(s, x, key)) == multiset(s) + multiset{x}
  {
    if s != [] && key(s[0]) > key(x) {
      InsertDescPermutes(s[1..], x, key);
      assert s == [s[0]] + s[1..];
    }
  }

  /** Every key in `s` is at most `b`. */
  ghost predicate KeysAtMost<T>(s: seq<T>, key: T -> int, b: int) {
    forall i :: 0 <= i < |s| ==> key(s[i]) <= b
  }

  /** Prepending an element whose key bounds the rest keeps a sequence descending. */
  lemma ConsSorted<T>(h: T, s: seq<T>, key: T -> int)
    requires SortedDesc(s, key) && KeysAtMost(s, key, key(h))
    ensures SortedDesc([h] + s, key)
  {
    var r := [h] + s;
    forall i, j | 0 <= i < j < |r|
      ensures key(r[i]) >= key(r[j])
    {
      assert r[j] == s[j - 1];
      if i > 0 {
        assert r[i] == s[i - 1];
      }
    }
  }

  /** Inserting an element under a bound keeps every key under it. */
  lemma {:induction false} InsertDescBounded<T>(s: seq<T>, x: T, key: T -> int, b: int)
    requires KeysAtMost(s, key, b) && key(x) <= b
    ensures KeysAtMost(InsertDesc(s, x, key), key, b)
  {
    if s != [] && key(s[0]) > key(x) {
      InsertDescBounded(s[1..], x, key, b);
      var r := InsertDesc(s, x, key);
      forall i | 0 <= i < |r|
        ensures key(r[i]) <= b
      {
        if i > 0 {
          assert r[i] == InsertDesc(s[1..], x, key)[i - 1];
        }
      }
    } else if s != [] {
      var r := [x] + s;
      forall i | 0 <= i < |r|
        ensures key(r[i]) <= b
      {
        if i > 0 {
          assert r[i] == s[i - 1];
        }
      }
    }
  }

  /** Inserting into a descending sequence keeps it descending. */
  lemma {:induction false} InsertDescSorted<T>(s: seq<T>, x: T, key: T -> int)
    requires SortedDesc(s, key)
    ensures SortedDesc(InsertDesc(s, x, key), key)
  {
    if s == [] || key(s[0]) <= key(x) {
      forall i | 0 <= i < |s|
        ensures key(s[i]) <= key(x)
      {
        if i > 0 {
          assert key(s[0]) >= key(s[i]);
        }
      }
      ConsSorted(x, s, key);
    } else {
      InsertDescSorted(s[1..], x, key);
      forall i | 0 <= i < |s[1..]|
        ensures key(s[1..][i]) <= key(s[0])
      {
        assert s[1..][i] == s[i + 1];
      }
      InsertDescBounded(s[1..], x, key, key(s[0]));
      ConsSorted(s[0], InsertDesc(s[1..], x, key), key);
    }
  }

  /** A descending sort by `key` (the order among equal keys is not specified by the source). */
  function SortDesc<T>(s: seq<T>, key: T -> int): (r: seq<T>)
    ensures |r| == |s|
  {
    if s == [] then []
    else InsertDesc(SortDesc(s[1..], key), s[0], key)
  }

  /** `SortDesc` is a permutation of its input whose keys never increase. */
  lemma {:induction false} SortDescCorrect<T>(s: seq<T>, key: T -> int)
    ensures multiset(SortDesc(s, key)) == multiset(s)
    ensures forall x :: x in SortDesc(s, key) <==> x in s
    ensures SortedDesc(SortDesc(s, key), key)
  {
    SortDescSorted(s, key);
    SortDescPermutes(s, key);
    forall x
      ensures x in SortDesc(s, key) <==> x in s
    {
      assert x in SortDesc(s, key) <==> x in multiset(SortDesc(s, key));
      assert x in s <==> x in multiset(s);
    }
  }

  lemma {:induction false} SortDescPermutes<T>(s: seq<T>, key: T -> int)
    ensures multiset(SortDesc(s, key)) == multiset(s)
  {
    if s != [] {
      SortDescPermutes(s[1..], key);
      InsertDescPermutes(SortDesc(s[1..], key), s[0], key);
      assert s == [s[0]] + s[1..];
    }
  }

  lemma {:induction false} SortDescSorted<T>(s: seq<T>, key: T -> int)
    ensures SortedDesc(SortDesc(s, key), key)
  {
    if s != [] {
      SortDescSorted(s[1..], key);
      InsertDescSorted(SortDesc(s[1..], key), s[0], key);
    }
  }

  /** At most the first `n` elements (`LIMIT n`). */
  function Take<T>(s: seq<T>, n: nat): (r: seq<T>)
    ensures |r| <= n && |r| <= |s|
    ensures r == s[..|r|]
    ensures |s| <= n ==> r == s
    ensures multiset(r) <= multiset(s)
  {
    if |s| <= n then s
    else
      assert s == s[..n] + s[n..];
      s[..n]
  }

  /** `f` applied to every element (an in-place `UPDATE ... SET` over every row). */
  function Map<T, U>(s: seq<T>, f: T -> U): (r: seq<U>)
    ensures |r| == |s|
    ensures forall i :: 0 <= i < |s| ==> r[i] == f(s[i])
  {
    seq(|s|, i requires 0 <= i < |s| => f(s[i]))
  }
}
