/** Small facts about sequences shared by the rest of the model. */
module Seqs {

  datatype Option<T> = None | Some(value: T)

  function Min(a: int, b: int): (m: int)
    ensures m <= a && m <= b && (m == a || m == b)
  {
    if a <= b then a else b
  }

  /** Python's slice `s[i:j]` for 0 <= i: the end is clamped to the length. */
  function Slice<T>(s: seq<T>, i: nat, j: nat): (r: seq<T>)
    requires i <= |s|
    ensures |r| == if j <= i then 0 else Min(j, |s|) - i
    ensures forall k :: 0 <= k < |r| ==> r[k] == s[i + k]
  {
    if j <= i then [] else s[i..Min(j, |s|)]
  }

  /** The first `n` elements, or all of them when there are fewer (pandas `head(n)`). */
  function Take<T>(s: seq<T>, n: nat): (r: seq<T>)
    ensures |r| == Min(n, |s|)
    ensures r == s[..|r|]
  {
    if n <= |s| then s[..n] else s
  }

  /** Flattens a sequence of sequences, keeping the order. */
  function Concat<T>(ss: seq<seq<T>>): seq<T>
  {
    if ss == [] then [] else Concat(ss[..|ss| - 1]) + ss[|ss| - 1]
  }

  lemma {:induction false} ConcatAppend<T>(a: seq<seq<T>>, b: seq<seq<T>>)
    ensures Concat(a + b) == Concat(a) + Concat(b)
  {
    if b == [] {
      assert a + b == a;
    } else {
      calc {
        Concat(a + b);
        { assert (a + b)[..|a + b| - 1] == a + b[..|b| - 1]; }
        Concat(a + b[..|b| - 1]) + b[|b| - 1];
        { ConcatAppend(a, b[..|b| - 1]); }
        Concat(a) + Concat(b[..|b| - 1]) + b[|b| - 1];
      }
    }
  }

  lemma ConcatCons<T>(x: seq<T>, rest: seq<seq<T>>)
    ensures Concat([x] + rest) == x + Concat(rest)
  {
    ConcatAppend([x], rest);
    assert [x][..0] == [];
  }

  predicate Distinct<T(==)>(s: seq<T>)
  {
    forall i, j :: 0 <= i < j < |s| ==> s[i] != s[j]
  }

  lemma {:induction false} DistinctAtMostOnce<T>(s: seq<T>, x: T)
    requires Distinct(s)
    ensures multiset(s)[x] <= 1
  {
    if s != [] {
      var t := s[..|s| - 1];
      assert s == t + [s[|s| - 1]];
      assert Distinct(t);
      DistinctAtMostOnce(t, x);
      if x == s[|s| - 1] {
        assert x !in t;
      }
    }
  }

  lemma TwiceMeansAtLeastTwo<T>(s: seq<T>, i: nat, j: nat)
    requires i < j < |s| && s[i] == s[j]
    ensures multiset(s)[s[i]] >= 2
  {
    assert s == s[..j] + s[j..];
    assert s[i] in s[..j];
    assert s[j] == s[j..][0];
  }

  /** A permutation of a sequence without repetitions has no repetitions either. */
  lemma DistinctPermutation<T>(s: seq<T>, r: seq<T>)
    requires multiset(s) == multiset(r)
    requires Distinct(s)
    ensures Distinct(r)
  {
    forall i, j | 0 <= i < j < |r|
      ensures r[i] != r[j]
    {
      if r[i] == r[j] {
        TwiceMeansAtLeastTwo(r, i, j);
        DistinctAtMostOnce(s, r[i]);
        assert false;
      }
    }
  }

  lemma SplitAt<T>(s: seq<T>, k: nat)
    requires k < |s|
    ensures s == s[..k] + [s[k]] + s[k + 1..]
  {
  }
}
