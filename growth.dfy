/** The trailing four-period growth rate per brand and the "TOP 5" growth ranking. */
module GrowthRanking {
  import opened Seqs
  import opened SeriesFetcher
  import opened Ranking
  import opened Averages

  /** The growth window: the last four points of a brand's series. */
  const Window: nat := 4
  /** Growth percents at or below this are treated as noise. */
  const GrowthThreshold: real := 0.05
  /** Number of growth entries displayed. */
  const ShownGrowth: nat := 5
  /** The column of the growth table that the filter selects. */
  const GrowthColumn: string := "상승률(%)"

  predicate Chronological(ps: seq<Point>)
  {
    forall i, j :: 0 <= i < j < |ps| ==> ps[i].period <= ps[j].period
  }

  /** No two points share a period (the table's invariant within one brand). */
  predicate DistinctPeriods(ps: seq<Point>)
  {
    forall i, j :: 0 <= i < j < |ps| ==> ps[i].period != ps[j].period
  }

  function InsertByPeriod(p: Point, ps: seq<Point>): (r: seq<Point>)
    requires Chronological(ps)
    ensures |r| == |ps| + 1
    ensures Chronological(r)
    ensures multiset(r) == multiset(ps) + multiset{p}
  {
    if ps == [] || p.period <= ps[0].period then
      ConsChronological(p, ps);
      [p] + ps
    else
      var rest := InsertByPeriod(p, ps[1..]);
      EarliestFirst(ps[0], p, ps[1..], rest);
      ConsChronological(ps[0], rest);
      assert ps == [ps[0]] + ps[1..];
      [ps[0]] + rest
  }

  /** A point no later than the first of a chronological list can go in front. */
  lemma ConsChronological(h: Point, s: seq<Point>)
    requires Chronological(s)
    requires s != [] ==> h.period <= s[0].period
    ensures Chronological([h] + s)
  {
  }

  lemma EarliestFirst(h: Point, p: Point, tail: seq<Point>, rest: seq<Point>)
    requires h.period < p.period
    requires forall j :: 0 <= j < |tail| ==> h.period <= tail[j].period
    requires multiset(rest) == multiset(tail) + multiset{p}
    ensures forall i :: 0 <= i < |rest| ==> h.period <= rest[i].period
  {
    forall i | 0 <= i < |rest|
      ensures h.period <= rest[i].period
    {
      assert rest[i] in multiset(rest);
      if rest[i] != p {
        assert rest[i] in multiset(tail);
        assert rest[i] in tail;
      }
    }
  }

  /** Sorting a brand's points by period (`sort_values("기간")`): a chronological permutation. */
  function SortByPeriod(ps: seq<Point>): (r: seq<Point>)
    ensures |r| == |ps|
    ensures Chronological(r)
    ensures multiset(r) == multiset(ps)
  {
    if ps == [] then []
    else
      assert ps == [ps[0]] + ps[1..];
      InsertByPeriod(ps[0], SortByPeriod(ps[1..]))
  }

  /** When periods are distinct there is only one chronological order, so the
      window does not depend on which sorting algorithm produced it. */
  lemma {:induction false} ChronologicalUnique(a: seq<Point>, b: seq<Point>)
    requires multiset(a) == multiset(b)
    requires Chronological(a) && Chronological(b)
    requires DistinctPeriods(a)
    ensures a == b
    decreases |a|
  {
    assert |a| == |multiset(a)| == |multiset(b)| == |b|;
    if a != [] {
      SameEarliest(a, b);
      TailsPermuted(a, b);
      ChronologicalUnique(a[1..], b[1..]);
      assert a == [a[0]] + a[1..] && b == [b[0]] + b[1..];
    }
  }

  lemma SameEarliest(a: seq<Point>, b: seq<Point>)
    requires multiset(a) == multiset(b) && a != []
    requires Chronological(a) && Chronological(b)
    requires DistinctPeriods(a)
    ensures |b| > 0 && a[0] == b[0]
  {
    assert a[0] in multiset(b) && b[0] in multiset(a);
    var j :| 0 <= j < |b| && b[j] == a[0];
    var i :| 0 <= i < |a| && a[i] == b[0];
    assert a[0].period <= a[i].period;
    assert b[0].period <= b[j].period;
    assert a[i].period == a[0].period;
  }

  lemma TailsPermuted(a: seq<Point>, b: seq<Point>)
    requires multiset(a) == multiset(b) && a != [] && b != [] && a[0] == b[0]
    ensures multiset(a[1..]) == multiset(b[1..])
  {
    assert a == [a[0]] + a[1..];
    assert b == [b[0]] + b[1..];
    assert multiset(a) == multiset{a[0]} + multiset(a[1..]);
    assert multiset(b) == multiset{a[0]} + multiset(b[1..]);
    forall x ensures multiset(a[1..])[x] == multiset(b[1..])[x] {
      assert multiset(a)[x] == multiset{a[0]}[x] + multiset(a[1..])[x];
      assert multiset(b)[x] == multiset{a[0]}[x] + multiset(b[1..])[x];
    }
  }

  /** The four chronologically latest points of a series (`temp.tail(4)` after the sort). */
  function Latest(ps: seq<Point>): seq<Point>
    requires |ps| >= Window
  {
    var temp := SortByPeriod(ps);
    temp[|temp| - Window..]
  }

  /** The brand's growth window. */
  function Recent(rows: seq<Row>, b: string): seq<Point>
    requires |PointsOf(rows, b)| >= Window
  {
    Latest(PointsOf(rows, b))
  }

  /** With distinct periods, any chronological ordering of the points ends in
      the same window as Latest, whichever sorting algorithm produced it. */
  lemma LatestIndependentOfSort(ps: seq<Point>, other: seq<Point>)
    requires |ps| >= Window
    requires DistinctPeriods(ps)
    requires multiset(other) == multiset(ps) && Chronological(other)
    ensures |other| >= Window && other[|other| - Window..] == Latest(ps)
  {
    var temp := SortByPeriod(ps);
    DistinctPeriodsPermutation(ps, temp);
    ChronologicalUnique(temp, other);
  }

  lemma DistinctPeriodsPermutation(s: seq<Point>, r: seq<Point>)
    requires multiset(s) == multiset(r) && DistinctPeriods(s)
    ensures DistinctPeriods(r)
  {
    assert Distinct(s);
    DistinctPermutation(s, r);
    forall i, j | 0 <= i < j < |r|
      ensures r[i].period != r[j].period
    {
      assert r[i] in multiset(s) && r[j] in multiset(s);
      var a :| 0 <= a < |s| && s[a] == r[i];
      var c :| 0 <= c < |s| && s[c] == r[j];
      assert a != c;
    }
  }

  /** Mean ratio of points 1 and 2 of the window (`iloc[:2].mean()`). */
  function FirstAvg(recent: seq<Point>): (avg: real)
    requires |recent| == Window
    ensures avg == (recent[0].ratio + recent[1].ratio) / 2.0
  {
    MeanOfTwo(recent[..2], recent[0].ratio, recent[1].ratio);
    Mean(Ratios(recent[..2]))
  }

  /** Mean ratio of points 3 and 4 of the window (`iloc[-2:].mean()`). */
  function LastAvg(recent: seq<Point>): (avg: real)
    requires |recent| == Window
    ensures avg == (recent[2].ratio + recent[3].ratio) / 2.0
  {
    MeanOfTwo(recent[2..], recent[2].ratio, recent[3].ratio);
    Mean(Ratios(recent[2..]))
  }

  /** Relative change in percent, defined for a positive baseline only: it is
      positive exactly for a rise and zero exactly for no change. */
  function GrowthPercent(first: real, last: real): (percent: real)
    requires first > 0.0
    ensures percent > 0.0 <==> last > first
    ensures percent == 0.0 <==> last == first
  {
    (last - first) / first * 100.0
  }

  /** The growth of a series, or None when it has fewer than four points or
      a baseline that is not positive. */
  function SeriesGrowth(ps: seq<Point>): (growth: Option<real>)
    ensures growth.Some? <==> |ps| >= Window && Latest(ps)[0].ratio + Latest(ps)[1].ratio > 0.0
  {
    if |ps| >= Window then
      var recent := Latest(ps);
      if FirstAvg(recent) > 0.0 then Some(GrowthPercent(FirstAvg(recent), LastAvg(recent))) else None
    else None
  }

  /** The growth of one brand of the table. */
  function BrandGrowth(rows: seq<Row>, b: string): Option<real>
  {
    SeriesGrowth(PointsOf(rows, b))
  }

  function GrowthOf(rows: seq<Row>): string -> Option<real>
  {
    b => BrandGrowth(rows, b)
  }

  /** One score per brand of `bs`, in that order, for the brands whose growth
      is defined: the list the growth loop builds. */
  function Gather(bs: seq<string>, growth: string -> Option<real>): seq<Score>
  {
    if bs == [] then []
    else
      var b := bs[|bs| - 1];
      Gather(bs[..|bs| - 1], growth) + (match growth(b) case Some(g) => [Score(b, g)] case None => [])
  }

  /** `growth_data` for the whole table. */
  function GrowthList(rows: seq<Row>): seq<Score>
  {
    Gather(Brands(rows), GrowthOf(rows))
  }

  /** In a chronological ordering `temp` of the points `ps`, the last `Window`
      points are the latest ones. */
  lemma LatestLast(ps: seq<Point>, temp: seq<Point>)
    requires multiset(temp) == multiset(ps)
    requires Chronological(temp) && |temp| >= Window
    ensures var recent := temp[|temp| - Window..];
      && Chronological(recent)
      && multiset(recent) <= multiset(ps)
      && forall p :: p in multiset(ps) - multiset(recent) ==>
           forall i :: 0 <= i < Window ==> p.period <= recent[i].period
  {
    var n := |temp| - Window;
    var earlier, recent := temp[..n], temp[n..];
    assert temp == earlier + recent;
    assert multiset(temp) == multiset(earlier) + multiset(recent);
    forall p | p in multiset(ps) - multiset(recent)
      ensures forall i :: 0 <= i < Window ==> p.period <= recent[i].period
    {
      assert p in multiset(earlier);
      EarlierNoLater(temp, n, p);
    }
  }

  /** A point before position `n` of a chronological list is no later than any
      point from `n` on. */
  lemma EarlierNoLater(temp: seq<Point>, n: nat, p: Point)
    requires Chronological(temp) && n <= |temp|
    requires p in multiset(temp[..n])
    ensures forall i :: 0 <= i < |temp| - n ==> p.period <= temp[n..][i].period
  {
    assert p in temp[..n];
    var j :| 0 <= j < n && temp[..n][j] == p;
    assert temp[j] == p;
    forall i | 0 <= i < |temp| - n
      ensures p.period <= temp[n..][i].period
    {
      assert temp[n..][i] == temp[n + i];
    }
  }

  /** The window is four chronological points of the series, and every point
      left out of it is no later than any point in it. */
  lemma LatestSpec(ps: seq<Point>)
    requires |ps| >= Window
    ensures var recent := Latest(ps);
      && |recent| == Window
      && Chronological(recent)
      && multiset(recent) <= multiset(ps)
      && forall p :: p in multiset(ps) - multiset(recent) ==>
           forall i :: 0 <= i < Window ==> p.period <= recent[i].period
  {
    var temp := SortByPeriod(ps);
    var recent := temp[|temp| - Window..];
    assert Latest(ps) == recent;
    LatestLast(ps, temp);
  }

  lemma GatherPrefix(bs: seq<string>, growth: string -> Option<real>, i: nat)
    requires i < |bs|
    ensures Gather(bs[..i + 1], growth) == Gather(bs[..i], growth) +
      (match growth(bs[i]) case Some(g) => [Score(bs[i], g)] case None => [])
  {
    assert bs[..i + 1][..i] == bs[..i];
  }

  /** A brand gets an entry exactly when it is visited and its growth is defined. */
  lemma {:induction false} GatherMember(bs: seq<string>, growth: string -> Option<real>)
    ensures forall b :: HasBrand(Gather(bs, growth), b) <==> b in bs && growth(b).Some?
  {
    if bs != [] {
      var init := bs[..|bs| - 1];
      var b := bs[|bs| - 1];
      GatherMember(init, growth);
      var g0 := Gather(init, growth);
      var g := Gather(bs, growth);
      assert bs == init + [b];
      forall c | HasBrand(g, c) ensures c in bs && growth(c).Some? {
        var i :| 0 <= i < |g| && g[i].brand == c;
        if i < |g0| { assert HasBrand(g0, c); }
      }
      forall c | c in bs && growth(c).Some? ensures HasBrand(g, c) {
        if c in init {
          var i :| 0 <= i < |g0| && g0[i].brand == c;
          assert g[i] == g0[i];
        } else {
          assert g[|g0|].brand == c;
        }
      }
    }
  }

  /** Every entry carries its brand's growth. */
  lemma {:induction false} GatherValues(bs: seq<string>, growth: string -> Option<real>)
    ensures forall x :: x in Gather(bs, growth) ==> growth(x.brand) == Some(x.value)
  {
    if bs != [] {
      GatherValues(bs[..|bs| - 1], growth);
    }
  }

  /** Visiting each brand once gives each brand at most one entry. */
  lemma {:induction false} GatherUnique(bs: seq<string>, growth: string -> Option<real>)
    requires Distinct(bs)
    ensures UniqueBrands(Gather(bs, growth))
  {
    if bs != [] {
      var init := bs[..|bs| - 1];
      var b := bs[|bs| - 1];
      assert Distinct(init);
      GatherUnique(init, growth);
      GatherMember(init, growth);
      assert b !in init;
      assert !HasBrand(Gather(init, growth), b);
    }
  }

  /** The growth list has at most one entry per brand; a brand has one exactly
      when its growth is defined, and the entry carries that growth. */
  lemma GrowthListEntries(rows: seq<Row>)
    ensures var g := GrowthList(rows);
      && UniqueBrands(g)
      && (forall b :: HasBrand(g, b) <==> BrandGrowth(rows, b).Some?)
      && (forall x :: x in g ==> BrandGrowth(rows, x.brand) == Some(x.value))
  {
    var bs := Brands(rows);
    GatherMember(bs, GrowthOf(rows));
    GatherValues(bs, GrowthOf(rows));
    GatherUnique(bs, GrowthOf(rows));
    forall b | BrandGrowth(rows, b).Some? ensures b in bs {
      assert |PointsOf(rows, b)| > 0;
    }
  }

  /** A brand enters the growth list exactly when it has at least four points
      and a positive first-half average; its entry is then the growth percent
      of its window; and no brand has two entries. */
  lemma GrowthListSpec(rows: seq<Row>)
    ensures var g := GrowthList(rows);
      && UniqueBrands(g)
      && (forall b :: HasBrand(g, b) <==>
            |PointsOf(rows, b)| >= Window && FirstAvg(Recent(rows, b)) > 0.0)
      && (forall x :: x in g ==>
            |PointsOf(rows, x.brand)| >= Window
            && FirstAvg(Recent(rows, x.brand)) > 0.0
            && x.value == GrowthPercent(FirstAvg(Recent(rows, x.brand)), LastAvg(Recent(rows, x.brand))))
  {
    GrowthListEntries(rows);
  }

  /** A brand with fewer than four points is left out, not given a growth of zero. */
  lemma FewPointsOmitted(rows: seq<Row>, b: string)
    requires |PointsOf(rows, b)| < Window
    ensures !HasBrand(GrowthList(rows), b)
  {
    GrowthListEntries(rows);
  }

  /** The growth loop (`growth_data.append(...)` per qualifying brand). */
  method GrowthData(rows: seq<Row>) returns (data: seq<Score>)
    ensures data == GrowthList(rows)
  {
    var brands := Brands(rows);
    data := [];
    for i := 0 to |brands|
      invariant data == Gather(brands[..i], GrowthOf(rows))
    {
      var brand := brands[i];
      GatherPrefix(brands, GrowthOf(rows), i);
      var growth := WindowGrowth(PointsOf(rows, brand));
      assert GrowthOf(rows)(brand) == growth;
      if growth.Some? {
        data := data + [Score(brand, growth.value)];
      }
    }
    assert brands[..|brands|] == brands;
  }

  /** The body of the growth loop for one brand's points: sort, take the last
      four, average both halves and compute the percent when the baseline is
      positive. */
  method WindowGrowth(ps: seq<Point>) returns (growth: Option<real>)
    ensures growth == SeriesGrowth(ps)
  {
    var temp := SortByPeriod(ps);
    if |temp| >= Window {
      var recent := temp[|temp| - Window..];
      assert recent == Latest(ps);
      var firstAvg := FirstAvg(recent);
      var lastAvg := LastAvg(recent);
      if firstAvg > 0.0 {
        growth := Some(GrowthPercent(firstAvg, lastAvg));
      } else {
        growth := None;
      }
    } else {
      growth := None;
    }
  }

  /** The entries above the noise threshold, in their original order
      (`growth_df[growth_df["상승률(%)"] > 0.05]`). */
  function Significant(data: seq<Score>): (r: seq<Score>)
    ensures forall x :: x in r <==> x in data && x.value > GrowthThreshold
    ensures UniqueBrands(data) ==> UniqueBrands(r)
    ensures forall b :: HasBrand(r, b) ==> HasBrand(data, b)
  {
    if data == [] then []
    else
      var init := Significant(data[..|data| - 1]);
      var x := data[|data| - 1];
      assert data == data[..|data| - 1] + [x];
      assert forall b :: HasBrand(data[..|data| - 1], b) ==> HasBrand(data, b);
      assert UniqueBrands(data) ==> !HasBrand(data[..|data| - 1], x.brand);
      if x.value > GrowthThreshold then init + [x] else init
  }

  /** The displayed growth TOP 5 (`sort_values(ascending=False).head(5)`). */
  function GrowthTop5(data: seq<Score>): seq<Score>
  {
    TopK(Significant(data), ShownGrowth)
  }

  /** The TOP 5: at most five entries of the growth list, each above the
      threshold, in non-increasing order, and every entry above the threshold
      that is left out grows no more than any entry shown. */
  lemma GrowthTop5Spec(data: seq<Score>)
    requires UniqueBrands(data)
    ensures var t := GrowthTop5(data);
      && |t| == Min(ShownGrowth, |Significant(data)|)
      && NonIncreasing(t)
      && UniqueBrands(t)
      && (forall x :: x in t ==> x in data && x.value > GrowthThreshold)
      && (forall x :: x in data && x.value > GrowthThreshold && !HasBrand(t, x.brand) ==>
            forall i :: 0 <= i < |t| ==> t[i].value >= x.value)
  {
    TopKEntries(Significant(data), ShownGrowth);
  }

  /** The TOP 5 of a gathered list, stated through the growth function. */
  lemma GatherTop5(bs: seq<string>, growth: string -> Option<real>)
    requires Distinct(bs)
    ensures var t := GrowthTop5(Gather(bs, growth));
      && |t| == Min(ShownGrowth, |Significant(Gather(bs, growth))|)
      && NonIncreasing(t)
      && UniqueBrands(t)
      && (forall x :: x in t ==> growth(x.brand) == Some(x.value) && x.value > GrowthThreshold)
      && (forall b, g :: b in bs && growth(b) == Some(g) && g > GrowthThreshold && !HasBrand(t, b) ==>
            |t| == ShownGrowth && forall i :: 0 <= i < |t| ==> t[i].value >= g)
  {
    var data := Gather(bs, growth);
    GatherValues(bs, growth);
    GatherUnique(bs, growth);
    GrowthTop5Spec(data);
    forall b, g | b in bs && growth(b) == Some(g) && g > GrowthThreshold && !HasBrand(GrowthTop5(data), b) {
      GatherLeftOut(bs, growth, b, g);
    }
  }

  /** A brand above the threshold that is left out of the TOP 5 grows no more
      than any brand shown, and its absence means all five places are taken. */
  lemma GatherLeftOut(bs: seq<string>, growth: string -> Option<real>, b: string, g: real)
    requires Distinct(bs)
    requires b in bs && growth(b) == Some(g) && g > GrowthThreshold
    requires !HasBrand(GrowthTop5(Gather(bs, growth)), b)
    ensures var t := GrowthTop5(Gather(bs, growth));
      |t| == ShownGrowth && forall i :: 0 <= i < |t| ==> t[i].value >= g
  {
    var data := Gather(bs, growth);
    var t := GrowthTop5(data);
    GatherMember(bs, growth);
    GatherValues(bs, growth);
    assert HasBrand(data, b);
    var j :| 0 <= j < |data| && data[j].brand == b;
    var x := data[j];
    assert x in data;
    assert x.value == g;
    assert x in Significant(data);
    assert forall i :: 0 <= i < |t| ==> t[i].brand != b;
    assert x !in t;
    TopKOmitted(Significant(data), ShownGrowth, x);
  }

  /** The growth TOP 5 of a table: the five largest growths above the
      threshold (all of them when there are fewer), largest first, each brand
      once with its growth; a brand above the threshold is left out only when
      five brands grow at least as much. */
  lemma GrowthTop5OfTable(rows: seq<Row>)
    ensures var t := GrowthTop5(GrowthList(rows));
      && |t| == Min(ShownGrowth, |Significant(GrowthList(rows))|)
      && NonIncreasing(t)
      && UniqueBrands(t)
      && (forall x :: x in t ==> BrandGrowth(rows, x.brand) == Some(x.value) && x.value > GrowthThreshold)
      && (forall b, g :: BrandGrowth(rows, b) == Some(g) && g > GrowthThreshold && !HasBrand(t, b) ==>
            |t| == ShownGrowth && forall i :: 0 <= i < |t| ==> t[i].value >= g)
  {
    var bs := Brands(rows);
    GatherTop5(bs, GrowthOf(rows));
    forall b | BrandGrowth(rows, b).Some? ensures b in bs {
      assert |PointsOf(rows, b)| > 0;
    }
  }

  /** Nothing above the threshold: the TOP 5 is empty, which leads to the "no
      significant rise" message. */
  lemma NoSignificantGrowthEmpty(data: seq<Score>)
    requires forall x :: x in data ==> x.value <= GrowthThreshold
    ensures GrowthTop5(data) == []
  {
  }

  /** A table in which no brand rises above the threshold, including one in
      which no brand has a growth at all, has an empty TOP 5: the corrected
      step reaches the "no significant rise" message. */
  lemma NoRiseShowsWarning(rows: seq<Row>)
    requires forall b :: BrandGrowth(rows, b).Some? ==> BrandGrowth(rows, b).value <= GrowthThreshold
    ensures GrowthTop5(GrowthList(rows)) == []
  {
    var data := GrowthList(rows);
    GrowthListEntries(rows);
    forall x | x in data ensures x.value <= GrowthThreshold {
      assert BrandGrowth(rows, x.brand) == Some(x.value);
    }
    NoSignificantGrowthEmpty(data);
  }

  /** The window [10, 10, 20, 20] has grown by 100 percent. */
  lemma DoublingWindow()
    ensures var w := [Point(1, 10.0), Point(2, 10.0), Point(3, 20.0), Point(4, 20.0)];
      FirstAvg(w) == 10.0 && LastAvg(w) == 20.0 && GrowthPercent(FirstAvg(w), LastAvg(w)) == 100.0
  {
    var w := [Point(1, 10.0), Point(2, 10.0), Point(3, 20.0), Point(4, 20.0)];
    assert Ratios(w[..2]) == [10.0, 10.0];
    assert Ratios(w[2..]) == [20.0, 20.0];
    assert Sum([10.0, 10.0]) == 20.0 by { assert [10.0, 10.0][..1] == [10.0]; }
    assert Sum([20.0, 20.0]) == 40.0 by { assert [20.0, 20.0][..1] == [20.0]; }
  }

  /** The window [10, 10, 0, 0] has shrunk by 100 percent and is filtered out. */
  lemma CollapsingWindow()
    ensures var w := [Point(1, 10.0), Point(2, 10.0), Point(3, 0.0), Point(4, 0.0)];
      FirstAvg(w) == 10.0 && LastAvg(w) == 0.0 && GrowthPercent(FirstAvg(w), LastAvg(w)) == -100.0
      && GrowthTop5([Score("B", GrowthPercent(FirstAvg(w), LastAvg(w)))]) == []
  {
    var w := [Point(1, 10.0), Point(2, 10.0), Point(3, 0.0), Point(4, 0.0)];
    assert Ratios(w[..2]) == [10.0, 10.0];
    assert Ratios(w[2..]) == [0.0, 0.0];
    assert Sum([10.0, 10.0]) == 20.0 by { assert [10.0, 10.0][..1] == [10.0]; }
    assert Sum([0.0, 0.0]) == 0.0 by { assert [0.0, 0.0][..1] == [0.0]; }
    NoSignificantGrowthEmpty([Score("B", -100.0)]);
  }

  /** The result of selecting the growth column of the growth table: pandas
      raises a KeyError when the column does not exist. */
  datatype Selection = Selected(scores: seq<Score>) | MissingColumn(column: string)

  /** The filter step as written: `pd.DataFrame(growth_data)` built from an
      empty list has no columns at all, so selecting the growth column fails
      instead of producing an empty TOP 5. */
  function GrowthTop5AsWritten(data: seq<Score>): Selection
  {
    if data == [] then MissingColumn(GrowthColumn) else Selected(GrowthTop5(data))
  }

  /** On a table, the step as written fails exactly when no brand has a growth
      (too few points, or a baseline that is not positive, for every brand);
      otherwise it agrees with the corrected TOP 5. */
  lemma AsWrittenFailsOnEmptyGrowth(rows: seq<Row>)
    ensures GrowthTop5AsWritten(GrowthList(rows)).MissingColumn? <==> forall b :: BrandGrowth(rows, b).None?
    ensures !GrowthTop5AsWritten(GrowthList(rows)).MissingColumn? ==>
      GrowthTop5AsWritten(GrowthList(rows)) == Selected(GrowthTop5(GrowthList(rows)))
  {
    var data := GrowthList(rows);
    GrowthListEntries(rows);
    if data != [] {
      assert HasBrand(data, data[0].brand);
      assert BrandGrowth(rows, data[0].brand).Some?;
    }
    else {
      forall b ensures BrandGrowth(rows, b).None? {
        assert !HasBrand(data, b);
      }
    }
  }

  /** A non-empty table whose only brand has two points (e.g. a monthly query
      over the default seven-day range gives one): the rankings run, no brand
      qualifies for growth, and the step as written fails where the "no
      significant rise" message was intended. */
  lemma AsWrittenFailsOnShortSeries()
    ensures var rows := [Row(1, 50.0, "피자헛"), Row(2, 60.0, "피자헛")];
      && rows != []
      && GrowthList(rows) == []
      && GrowthTop5AsWritten(GrowthList(rows)) == MissingColumn(GrowthColumn)
      && GrowthTop5(GrowthList(rows)) == []
  {
    var rows := [Row(1, 50.0, "피자헛"), Row(2, 60.0, "피자헛")];
    GrowthListSpec(rows);
    var g := GrowthList(rows);
    assert |PointsOf(rows, "피자헛")| <= 2;
  }
}
