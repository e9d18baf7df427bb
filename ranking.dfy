/** Brand scores, the descending sort and the "top k" selection used by
    both rankings (pandas `sort_values(ascending=False).head(k)`). */
module Ranking {
  import opened Seqs

  /** A brand and the number it is ranked by (a mean ratio or a growth percent). */
  datatype Score = Score(brand: string, value: real)

  /** Sorted by value, largest first; the order among equal values is left open. */
  predicate NonIncreasing(s: seq<Score>)
  {
    forall i, j :: 0 <= i < j < |s| ==> s[i].value >= s[j].value
  }

  /** No brand occurs twice. */
  predicate UniqueBrands(s: seq<Score>)
  {
    forall i, j :: 0 <= i < j < |s| ==> s[i].brand != s[j].brand
  }

  function Insert(x: Score, s: seq<Score>): (r: seq<Score>)
    requires NonIncreasing(s)
    ensures NonIncreasing(r)
    ensures multiset(r) == multiset(s) + multiset{x}
  {
    if s == [] || x.value >= s[0].value then
      ConsNonIncreasing(x, s);
      [x] + s
    else
      var rest := Insert(x, s[1..]);
      HeadBound(s[0], x, s[1..], rest);
      ConsNonIncreasing(s[0], rest);
      assert s == [s[0]] + s[1..];
      [s[0]] + rest
  }

  /** A score no smaller than the first of a sorted list can go in front. */
  lemma ConsNonIncreasing(h: Score, s: seq<Score>)
    requires NonIncreasing(s)
    requires s != [] ==> h.value >= s[0].value
    ensures NonIncreasing([h] + s)
  {
  }

  lemma HeadBound(h: Score, x: Score, tail: seq<Score>, rest: seq<Score>)
    requires x.value < h.value
    requires forall j :: 0 <= j < |tail| ==> h.value >= tail[j].value
    requires multiset(rest) == multiset(tail) + multiset{x}
    ensures forall i :: 0 <= i < |rest| ==> h.value >= rest[i].value
  {
    forall i | 0 <= i < |rest|
      ensures h.value >= rest[i].value
    {
      assert rest[i] in multiset(rest);
      if rest[i] != x {
        assert rest[i] in multiset(tail);
        assert rest[i] in tail;
      }
    }
  }

  /** A descending sort: the result is a permutation of the input in non-increasing order. */
  function SortDesc(s: seq<Score>): (r: seq<Score>)
    ensures NonIncreasing(r)
    ensures multiset(r) == multiset(s)
  {
    if s == [] then []
    else
      assert s == [s[0]] + s[1..];
      Insert(s[0], SortDesc(s[1..]))
  }

  /** The `k` best-scoring entries: sorted, at most `k` of them (all when there
      are fewer), taken from the input, and none of the entries left out scores
      higher than any entry kept. */
  function TopK(s: seq<Score>, k: nat): (r: seq<Score>)
    ensures |r| == Min(k, |s|)
    ensures NonIncreasing(r)
    ensures multiset(r) <= multiset(s)
    ensures forall x :: x in multiset(s) - multiset(r) ==>
              forall i :: 0 <= i < |r| ==> r[i].value >= x.value
  {
    var t := SortDesc(s);
    var r := Take(t, k);
    TopKBound(t, |r|);
    r
  }

  /** In a sorted list, everything after position `n` scores at most what comes before it. */
  lemma TopKBound(t: seq<Score>, n: nat)
    requires NonIncreasing(t) && n <= |t|
    ensures multiset(t[..n]) <= multiset(t)
    ensures forall x :: x in multiset(t) - multiset(t[..n]) ==>
              forall i :: 0 <= i < n ==> t[i].value >= x.value
  {
    var r, rest := t[..n], t[n..];
    assert t == r + rest;
    assert multiset(t) == multiset(r) + multiset(rest);
    forall x | x in multiset(t) - multiset(r)
      ensures forall i :: 0 <= i < n ==> t[i].value >= x.value
    {
      assert x in multiset(rest);
      assert x in rest;
      var j :| 0 <= j < |rest| && rest[j] == x;
      assert t[n + j] == x;
    }
  }

  /** Fewer than `k` entries are kept only when the whole input is kept. */
  lemma TopKShort(s: seq<Score>, k: nat)
    ensures |TopK(s, k)| < k ==> multiset(TopK(s, k)) == multiset(s)
  {
    var t := SortDesc(s);
    var r := TopK(s, k);
    if |r| < k {
      assert |t| == |multiset(t)| == |multiset(s)| == |s|;
      assert r == t[..|r|];
      assert r == t;
    }
  }

  /** An entry left out of the top `k` means that all `k` places are taken,
      each by an entry scoring at least as much. */
  lemma TopKOmitted(s: seq<Score>, k: nat, x: Score)
    requires x in s && x !in TopK(s, k)
    ensures |TopK(s, k)| == k
    ensures forall i :: 0 <= i < k ==> TopK(s, k)[i].value >= x.value
  {
    var r := TopK(s, k);
    TopKShort(s, k);
    assert x in multiset(s);
    assert x in multiset(s) - multiset(r);
  }

  /** Some entry is about the brand. */
  predicate HasBrand(s: seq<Score>, b: string)
  {
    exists i :: 0 <= i < |s| && s[i].brand == b
  }

  /** A reordering has the same length, the same entries and the same brands. */
  lemma PermutationSameEntries(s: seq<Score>, r: seq<Score>)
    requires multiset(s) == multiset(r)
    ensures |r| == |s|
    ensures forall x :: x in r <==> x in s
    ensures forall b :: HasBrand(s, b) <==> HasBrand(r, b)
  {
    assert |r| == |multiset(r)| == |multiset(s)| == |s|;
    assert forall x :: x in r <==> x in multiset(r);
    assert forall x :: x in s <==> x in multiset(s);
    forall b | HasBrand(s, b) ensures HasBrand(r, b) {
      var i :| 0 <= i < |s| && s[i].brand == b;
      assert s[i] in r;
      var j :| 0 <= j < |r| && r[j] == s[i];
    }
    forall b | HasBrand(r, b) ensures HasBrand(s, b) {
      var i :| 0 <= i < |r| && r[i].brand == b;
      assert r[i] in s;
      var j :| 0 <= j < |s| && s[j] == r[i];
    }
  }

  /** On a list in which no brand occurs twice, the top `k` keep that property,
      are entries of the list, and beat every entry whose brand they leave out. */
  lemma TopKEntries(s: seq<Score>, k: nat)
    requires UniqueBrands(s)
    ensures var t := TopK(s, k);
      && UniqueBrands(t)
      && (forall x :: x in t ==> x in s)
      && (forall x :: x in s && !HasBrand(t, x.brand) ==>
            forall i :: 0 <= i < |t| ==> t[i].value >= x.value)
  {
    var r := SortDesc(s);
    var t := TopK(s, k);
    UniqueBrandsPermutation(s, r);
    assert t == r[..|t|];
    UniqueBrandsPrefix(r, |t|);
    forall x | x in t
      ensures x in s
    {
      assert x in multiset(t);
      assert x in multiset(s);
    }
    forall x | x in s && !HasBrand(t, x.brand)
      ensures forall i :: 0 <= i < |t| ==> t[i].value >= x.value
    {
      assert x !in t;
      assert x in multiset(s);
      assert x in multiset(s) - multiset(t);
    }
  }

  /** Reordering a list in which every brand occurs once keeps every brand once. */
  lemma UniqueBrandsPermutation(s: seq<Score>, r: seq<Score>)
    requires multiset(s) == multiset(r)
    requires UniqueBrands(s)
    ensures UniqueBrands(r)
  {
    assert Distinct(s);
    DistinctPermutation(s, r);
    forall i, j | 0 <= i < j < |r|
      ensures r[i].brand != r[j].brand
    {
      assert r[i] in multiset(s) && r[j] in multiset(s);
      var a :| 0 <= a < |s| && s[a] == r[i];
      var b :| 0 <= b < |s| && s[b] == r[j];
      assert a != b;
    }
  }

  lemma UniqueBrandsPrefix(s: seq<Score>, n: nat)
    requires UniqueBrands(s) && n <= |s|
    ensures UniqueBrands(s[..n])
  {
  }
}
