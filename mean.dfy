/** Grouping the merged table by brand and the mean-ratio ranking
    (the "TOP 10" table and the per-brand means of the pie chart). */
module Averages {
  import opened Seqs
  import opened SeriesFetcher
  import opened Ranking

  /** Number of rows of the mean-ranking table that are displayed. */
  const ShownMeans: nat := 10

  /** The brand has at least one row in the table. */
  predicate Present(rows: seq<Row>, b: string)
  {
    exists i :: 0 <= i < |rows| && rows[i].keyword == b
  }

  /** The brands of the table, each once, in order of first appearance
      (`df["keyword"].unique()`). */
  function Brands(rows: seq<Row>): (bs: seq<string>)
    ensures Distinct(bs)
    ensures forall b :: b in bs <==> Present(rows, b)
  {
    if rows == [] then []
    else
      var init := Brands(rows[..|rows| - 1]);
      var b := rows[|rows| - 1].keyword;
      assert forall c :: Present(rows, c) <==> Present(rows[..|rows| - 1], c) || c == b by {
        forall c | Present(rows[..|rows| - 1], c) ensures Present(rows, c) {
          var i :| 0 <= i < |rows| - 1 && rows[..|rows| - 1][i].keyword == c;
          assert rows[i].keyword == c;
        }
      }
      if b in init then init else init + [b]
  }

  /** The (period, ratio) points of one brand, in table order (`df[df["keyword"] == b]`). */
  function PointsOf(rows: seq<Row>, b: string): (ps: seq<Point>)
    ensures |ps| <= |rows|
    ensures |ps| > 0 <==> Present(rows, b)
  {
    if rows == [] then []
    else
      var init := PointsOf(rows[..|rows| - 1], b);
      var last := rows[|rows| - 1];
      assert Present(rows, b) <==> Present(rows[..|rows| - 1], b) || last.keyword == b by {
        if Present(rows[..|rows| - 1], b) {
          var i :| 0 <= i < |rows| - 1 && rows[..|rows| - 1][i].keyword == b;
          assert rows[i].keyword == b;
        }
        if Present(rows, b) && last.keyword != b {
          var i :| 0 <= i < |rows| && rows[i].keyword == b;
          assert rows[..|rows| - 1][i].keyword == b;
        }
      }
      if last.keyword == b then init + [Point(last.period, last.ratio)] else init
  }

  /** A point belongs to the brand's series exactly when the table has a row of that brand with it. */
  lemma {:induction false} PointsOfMember(rows: seq<Row>, b: string, p: Point)
    ensures p in PointsOf(rows, b) <==> Row(p.period, p.ratio, b) in rows
  {
    if rows != [] {
      var init := rows[..|rows| - 1];
      PointsOfMember(init, b, p);
      assert rows == init + [rows[|rows| - 1]];
    }
  }

  /** Every row of the brand is kept, duplicates included: a point occurs in the
      brand's series as often as the table holds that row for the brand. */
  lemma {:induction false} PointsOfMultiplicity(rows: seq<Row>, b: string, p: Point)
    ensures multiset(PointsOf(rows, b))[p] == multiset(rows)[Row(p.period, p.ratio, b)]
  {
    if rows != [] {
      var init := rows[..|rows| - 1];
      var last := rows[|rows| - 1];
      PointsOfMultiplicity(init, b, p);
      assert rows == init + [last];
      assert multiset(rows) == multiset(init) + multiset{last};
    }
  }

  function Ratios(ps: seq<Point>): (xs: seq<real>)
    ensures |xs| == |ps|
    ensures forall i :: 0 <= i < |ps| ==> xs[i] == ps[i].ratio
  {
    if ps == [] then [] else Ratios(ps[..|ps| - 1]) + [ps[|ps| - 1].ratio]
  }

  function Sum(xs: seq<real>): real
  {
    if xs == [] then 0.0 else Sum(xs[..|xs| - 1]) + xs[|xs| - 1]
  }

  /** The arithmetic mean, as pandas `mean()` computes it. */
  function Mean(xs: seq<real>): real
    requires |xs| > 0
  {
    Sum(xs) / (|xs| as real)
  }

  lemma {:induction false} SumBounds(xs: seq<real>, lo: real, hi: real)
    requires forall i :: 0 <= i < |xs| ==> lo <= xs[i] <= hi
    ensures (|xs| as real) * lo <= Sum(xs) <= (|xs| as real) * hi
  {
    if xs != [] {
      SumBounds(xs[..|xs| - 1], lo, hi);
    }
  }

  /** A mean lies between the smallest and the largest value. */
  lemma MeanBounds(xs: seq<real>, lo: real, hi: real)
    requires |xs| > 0
    requires forall i :: 0 <= i < |xs| ==> lo <= xs[i] <= hi
    ensures lo <= Mean(xs) <= hi
  {
    SumBounds(xs, lo, hi);
    var n := |xs| as real;
    assert Sum(xs) / n >= lo by { assert Sum(xs) >= n * lo; }
    assert Sum(xs) / n <= hi by { assert Sum(xs) <= n * hi; }
  }

  /** The mean ratio of a brand that has rows. */
  function BrandMean(rows: seq<Row>, b: string): real
    requires Present(rows, b)
  {
    Mean(Ratios(PointsOf(rows, b)))
  }

  /** One score per brand of the table (`df.groupby("keyword")["검색비율"].mean()`). */
  function BrandMeans(rows: seq<Row>): seq<Score>
  {
    var bs := Brands(rows);
    seq(|bs|, i requires 0 <= i < |bs| => Score(bs[i], BrandMean(rows, bs[i])))
  }

  /** The per-brand means, largest first: the full ranking, which the pie chart uses. */
  function MeanRanking(rows: seq<Row>): seq<Score>
  {
    SortDesc(BrandMeans(rows))
  }

  /** The displayed TOP 10 table. */
  function MeanTop10(rows: seq<Row>): seq<Score>
  {
    TopK(BrandMeans(rows), ShownMeans)
  }

  lemma BrandMeansSpec(rows: seq<Row>)
    ensures var m := BrandMeans(rows);
      && |m| == |Brands(rows)|
      && UniqueBrands(m)
      && (forall b :: Present(rows, b) <==> HasBrand(m, b))
      && (forall x :: x in m ==> Present(rows, x.brand) && x.value == BrandMean(rows, x.brand))
  {
    var bs := Brands(rows);
    var m := BrandMeans(rows);
    forall b | Present(rows, b) ensures HasBrand(m, b) {
      var i :| 0 <= i < |bs| && bs[i] == b;
      assert m[i].brand == b;
    }
  }

  /** Every brand of the table appears once in the ranking, with its mean ratio;
      no other brand appears; and the ranking is in non-increasing order of mean. */
  lemma MeanRankingSpec(rows: seq<Row>)
    ensures var r := MeanRanking(rows);
      && |r| == |Brands(rows)|
      && NonIncreasing(r)
      && UniqueBrands(r)
      && (forall b :: Present(rows, b) <==> HasBrand(r, b))
      && (forall x :: x in r ==> Present(rows, x.brand) && x.value == BrandMean(rows, x.brand))
  {
    var m := BrandMeans(rows);
    var r := MeanRanking(rows);
    BrandMeansSpec(rows);
    UniqueBrandsPermutation(m, r);
    PermutationSameEntries(m, r);
  }

  /** The TOP 10 table: at most ten brands of the table, each once and with its
      mean, in non-increasing order, and no brand left out has a larger mean
      than a brand shown. */
  lemma MeanTop10Spec(rows: seq<Row>)
    ensures var t := MeanTop10(rows);
      && |t| == Min(ShownMeans, |Brands(rows)|)
      && NonIncreasing(t)
      && UniqueBrands(t)
      && (forall x :: x in t ==> Present(rows, x.brand) && x.value == BrandMean(rows, x.brand))
      && (forall b :: Present(rows, b) && !HasBrand(t, b) ==>
            forall i :: 0 <= i < |t| ==> t[i].value >= BrandMean(rows, b))
  {
    var m := BrandMeans(rows);
    var t := MeanTop10(rows);
    BrandMeansSpec(rows);
    TopKEntries(m, ShownMeans);
    forall b | Present(rows, b) && !HasBrand(t, b)
      ensures forall i :: 0 <= i < |t| ==> t[i].value >= BrandMean(rows, b)
    {
      var j :| 0 <= j < |m| && m[j].brand == b;
      assert m[j] in m;
    }
  }

  /** A table with at least one row ranks at least one brand. */
  lemma NonEmptyTableRanksSomething(rows: seq<Row>)
    requires rows != []
    ensures |MeanTop10(rows)| >= 1
  {
    assert Present(rows, rows[0].keyword);
    assert rows[0].keyword in Brands(rows);
  }

  /** A table of two brands, A with ratios [10, 20] and B with [5, 5]. */
  const TwoBrandTable: seq<Row> := [Row(1, 10.0, "A"), Row(2, 20.0, "A"), Row(1, 5.0, "B"), Row(2, 5.0, "B")]

  lemma TwoBrandBrands()
    ensures Brands(TwoBrandTable) == ["A", "B"]
  {
    var rows := TwoBrandTable;
    var r1, r2, r3 := rows[..1], rows[..2], rows[..3];
    assert r3[..2] == r2 && r2[..1] == r1 && r1[..0] == [];
    assert Brands(r1) == ["A"];
    assert Brands(r2) == ["A"];
    assert Brands(r3) == ["A", "B"];
  }

  lemma TwoBrandGrouping()
    ensures Brands(TwoBrandTable) == ["A", "B"]
    ensures PointsOf(TwoBrandTable, "A") == [Point(1, 10.0), Point(2, 20.0)]
    ensures PointsOf(TwoBrandTable, "B") == [Point(1, 5.0), Point(2, 5.0)]
  {
    TwoBrandBrands();
    var rows := TwoBrandTable;
    var r1, r2, r3 := rows[..1], rows[..2], rows[..3];
    assert r3[..2] == r2 && r2[..1] == r1 && r1[..0] == [];
    assert PointsOf(r1, "A") == [Point(1, 10.0)];
    assert PointsOf(r2, "A") == [Point(1, 10.0), Point(2, 20.0)];
    assert PointsOf(r3, "A") == [Point(1, 10.0), Point(2, 20.0)];
    assert PointsOf(r2, "B") == [];
    assert PointsOf(r3, "B") == [Point(1, 5.0)];
  }

  /** The mean of two ratios is their midpoint. */
  lemma MeanOfTwo(ps: seq<Point>, x: real, y: real)
    requires |ps| == 2 && ps[0].ratio == x && ps[1].ratio == y
    ensures Mean(Ratios(ps)) == (x + y) / 2.0
  {
    var xs := Ratios(ps);
    assert xs == [x, y];
    assert xs[..1] == [x] && [x][..0] == [];
    assert Sum(xs) == Sum([x]) + y;
    assert Sum([x]) == x;
  }

  lemma TwoBrandMeans()
    ensures Present(TwoBrandTable, "A") && BrandMean(TwoBrandTable, "A") == 15.0
    ensures Present(TwoBrandTable, "B") && BrandMean(TwoBrandTable, "B") == 5.0
  {
    TwoBrandGrouping();
    assert TwoBrandTable[0].keyword == "A" && TwoBrandTable[2].keyword == "B";
    MeanOfTwo([Point(1, 10.0), Point(2, 20.0)], 10.0, 20.0);
    MeanOfTwo([Point(1, 5.0), Point(2, 5.0)], 5.0, 5.0);
  }

  lemma TwoBrandScores()
    ensures BrandMeans(TwoBrandTable) == [Score("A", 15.0), Score("B", 5.0)]
  {
    TwoBrandGrouping();
    TwoBrandMeans();
    var m := BrandMeans(TwoBrandTable);
    assert |m| == 2 && m[0] == Score("A", 15.0) && m[1] == Score("B", 5.0);
  }

  /** Two scores already in order are left as they are. */
  lemma SortTwo(x: Score, y: Score)
    requires x.value >= y.value
    ensures SortDesc([x, y]) == [x, y]
  {
    assert [x, y][1..] == [y];
    assert [y][1..] == [];
  }

  /** A (mean 15) ranks above B (mean 5). */
  lemma TwoBrandExample()
    ensures MeanRanking(TwoBrandTable) == [Score("A", 15.0), Score("B", 5.0)]
  {
    TwoBrandScores();
    SortTwo(Score("A", 15.0), Score("B", 5.0));
  }
}
