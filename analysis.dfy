/** One analysis run: flatten the selection, fetch and merge, then either the
    "no data" outcome or the report with both rankings. */
module Analysis {
  import opened Seqs
  import opened KeywordCatalog
  import opened SeriesFetcher
  import opened Ranking
  import opened Averages
  import opened GrowthRanking

  /** The time units the dashboard offers. */
  const Units: seq<string> := ["date", "week", "month"]
  const DayLabel: string := "4일간"
  const WeekLabel: string := "4주간"
  const MonthLabel: string := "4개월간"
  const GenericLabel: string := "4기간"

  /** The name of the growth window shown in the growth headings. Any unit
      other than the three offered gets the generic label. */
  function UnitLabel(timeUnit: string): (heading: string)
    ensures heading in [DayLabel, WeekLabel, MonthLabel, GenericLabel]
    ensures heading == GenericLabel <==> timeUnit !in Units
  {
    if timeUnit == "date" then DayLabel
    else if timeUnit == "week" then WeekLabel
    else if timeUnit == "month" then MonthLabel
    else GenericLabel
  }

  /** Different offered units are given different labels. */
  lemma UnitLabelInjective(u: string, v: string)
    requires u in Units && v in Units
    requires UnitLabel(u) == UnitLabel(v)
    ensures u == v
  {
  }

  /** What a run shows: the "no data" message, or the report built from a
      non-empty table. */
  datatype Outcome =
    | NoData
    | Report(table: seq<Row>, meanTop: seq<Score>, shares: seq<Score>,
             unitLabel: string, growthTop: seq<Score>)

  /** The analysis of a merged table. */
  function Analyze(rows: seq<Row>, timeUnit: string): Outcome
  {
    if rows == [] then NoData
    else Report(rows, MeanTop10(rows), MeanRanking(rows), UnitLabel(timeUnit), GrowthTop5(GrowthList(rows)))
  }

  /** The rankings are computed exactly when the table has rows; an empty table
      leads only to the "no data" outcome. */
  lemma AnalyzeGuard(rows: seq<Row>, timeUnit: string)
    ensures Analyze(rows, timeUnit).NoData? <==> rows == []
    ensures rows != [] ==> |Analyze(rows, timeUnit).meanTop| >= 1
  {
    if rows != [] {
      NonEmptyTableRanksSomething(rows);
    }
  }

  /** Every entry of the growth TOP 5 is a brand whose window has grown by its
      value, above the threshold; there are five, or all qualifying brands when
      fewer qualify, largest first; and a qualifying brand left out grows no
      more than any brand shown. */
  lemma GrowthTopSpec(rows: seq<Row>, timeUnit: string)
    requires rows != []
    ensures var t := Analyze(rows, timeUnit).growthTop;
      && |t| == Min(ShownGrowth, |Significant(GrowthList(rows))|)
      && NonIncreasing(t)
      && UniqueBrands(t)
      && (forall x :: x in t ==> BrandGrowth(rows, x.brand) == Some(x.value) && x.value > GrowthThreshold)
      && (forall b, g :: BrandGrowth(rows, b) == Some(g) && g > GrowthThreshold && !HasBrand(t, b) ==>
            |t| == ShownGrowth && forall i :: 0 <= i < |t| ==> t[i].value >= g)
  {
    GrowthTop5OfTable(rows);
  }

  /** Every brand that is ranked was the title of an item of a successful response. */
  lemma RankedBrandsWereReturned(rs: seq<Response>, timeUnit: string)
    requires Merge(rs) != []
    ensures forall x :: x in Analyze(Merge(rs), timeUnit).shares ==>
      (exists k, i :: 0 <= k < |rs| && rs[k].status == StatusOk && 0 <= i < |rs[k].results|
         && rs[k].results[i].title == x.brand)
  {
    var rows := Merge(rs);
    MeanRankingSpec(rows);
    forall x | x in MeanRanking(rows)
      ensures (exists k, i :: 0 <= k < |rs| && rs[k].status == StatusOk && 0 <= i < |rs[k].results|
                 && rs[k].results[i].title == x.brand)
    {
      var j :| 0 <= j < |rows| && rows[j].keyword == x.brand;
      assert rows[j] in rows;
      MergeMember(rs, rows[j]);
    }
  }

  /** When every request fails, the run ends in "no data". */
  lemma AllFailedNoData(rs: seq<Response>, timeUnit: string)
    requires forall k :: 0 <= k < |rs| ==> rs[k].status != StatusOk
    ensures Analyze(Merge(rs), timeUnit) == NoData
  {
    MergeAllFailed(rs);
  }

  /** The button branch: collect the selected groups, fetch them chunk by chunk,
      and analyse the merged table unless it is empty. The failed statuses are
      the error messages shown along the way. */
  method RunAnalysis(catalog: Catalog, selected: seq<string>, startDate: string, endDate: string,
                     timeUnit: string, fetch: Request -> Response)
    returns (failures: seq<int>, outcome: Outcome)
    requires Known(catalog, selected)
    ensures var rs := Responses(Requests(Flatten(catalog, selected), startDate, endDate, timeUnit), fetch);
      failures == FailedStatuses(rs) && outcome == Analyze(Merge(rs), timeUnit)
  {
    var groups := CollectGroups(catalog, selected);
    var df;
    df, failures := FetchAll(groups, startDate, endDate, timeUnit, fetch);
    if df != [] {
      var avgRank := MeanTop10(df);
      var brandAvg := MeanRanking(df);
      var unitLabel := UnitLabel(timeUnit);
      var growthData := GrowthData(df);
      var growthTop := GrowthTop5(growthData);
      outcome := Report(df, avgRank, brandAvg, unitLabel, growthTop);
    } else {
      outcome := NoData;
    }
  }
}
