# Naver food-brand trend ranking — a Dafny model

`food_rank.py` is a dashboard script. The user picks food categories (pizza,
burgers, chicken), a date range and a time unit. The script then:

1. flattens the brand groups of the chosen categories into one list;
2. sends them to the Naver DataLab search-trend API in requests of at most five
   groups each;
3. merges the series of every successful response into one table of
   (period, ratio, brand) rows;
4. from a non-empty table, shows two rankings:
   - brands by mean search ratio: the TOP 10 table and the pie chart of all means;
   - brands by growth over their four latest periods: the TOP 5 above a noise
     threshold, with a heading label chosen by the time unit.

The model follows that pipeline module by module:

| module | file | what it holds |
|---|---|---|
| `KeywordCatalog` | `catalog.dfy` | the catalog; the flattening loop `CollectGroups` and its specification `Flatten` |
| `SeriesFetcher` | `fetcher.dfy` | chunking (`Chunks`, `Requests`); the request loop `FetchAll`; its specification `Merge` / `FailedStatuses` |
| `Ranking` | `ranking.dfy` | brand scores; the descending sort `SortDesc`; the top-k selection `TopK` |
| `Averages` | `mean.dfy` | grouping by brand (`Brands`, `PointsOf`); the mean; `MeanRanking` (pie) and `MeanTop10` (table) |
| `GrowthRanking` | `growth.dfy` | the chronological sort; the four-point window; the growth formula; the growth loop `GrowthData` and its specification `GrowthList`; `Significant` and `GrowthTop5` |
| `Analysis` | `analysis.dfy` | the time-unit label; the empty-table guard; the whole button branch `RunAnalysis` |
| `Seqs` | `seqs.dfy` | sequence helpers: Python-style slicing and concatenation |

The three loops of the script are methods proved against functions:

- `CollectGroups` ensures `groups == Flatten(...)`.
- `FetchAll` ensures `rows == Merge(...)` and `failures == FailedStatuses(...)`.
- `GrowthData` ensures `data == GrowthList(rows)`.

The lemmas state what those functions mean. `RunAnalysis` composes the three
methods and ensures that its outcome is `Analyze` of the merged table.

The HTTP call is a parameter `fetch: Request -> Response`. A response is its
status code plus its parsed `results`. Periods are integer ordinals and ratios
are exact reals.

The mean sort and the growth sort call pandas `sort_values`, whose default
algorithm is not stable. The model therefore promises only non-increasing
order, a permutation, and that no entry left out beats an entry shown. It
promises no order among tied entries, in particular not the order of first
appearance: the code does not guarantee one.

## Model

| member | source | states |
|---|---|---|
| KeywordCatalog.CollectGroups | food_rank.py:76-79 | the nested append loop yields exactly `Flatten` of the selection |
| KeywordCatalog.FlattenMember | food_rank.py:76-79 | a group is in the flattened list iff some selected category holds it |
| KeywordCatalog.FlattenAppend | food_rank.py:76-79 | flattening a concatenated selection is the concatenation of the flattenings, in selection order |
| KeywordCatalog.AllCategoriesFlatten | food_rank.py:31-55 | all three categories are catalog keys and together give seventeen groups |
| SeriesFetcher.Chunks | food_rank.py:88-92 | there are ceil(N/5) chunks, each non-empty and of at most five groups |
| SeriesFetcher.ChunksConcat | food_rank.py:88-92 | concatenating the chunks in order gives back the group list |
| SeriesFetcher.ChunkAt | food_rank.py:91-92 | chunk k starts inside the list and is the slice `[5k : 5k+5]` the loop takes |
| SeriesFetcher.RequestsCover | food_rank.py:91-98 | one request per chunk; each carries the run's dates and unit and 1 to 5 groups; together they ask for every group once, in order |
| SeriesFetcher.TagMember | food_rank.py:104-105 | an item's rows are exactly its points, each tagged with the item's title |
| SeriesFetcher.MergeMember | food_rank.py:101-106 | a row is in the merged table iff some status-200 response has an item with that title and that point |
| SeriesFetcher.MergeSplit | food_rank.py:101-108 | response k contributes its own rows between those of the earlier and the later responses, in chunk order |
| SeriesFetcher.FailedResponseSkipped | food_rank.py:107-108 | a non-200 response adds no rows and does not keep the later responses out |
| SeriesFetcher.MergeAllFailed | food_rank.py:101-108 | if every response fails, the merged table is empty |
| SeriesFetcher.SecondOfTwoFails | food_rank.py:101-108 | with a good first chunk and a failed second one, the table is the first chunk's rows and one failure is reported |
| SeriesFetcher.Merge | food_rank.py:101-106 | definition: the rows of the status-200 responses in response order; its meaning is stated by MergeMember, MergeSplit and FailedResponseSkipped |
| SeriesFetcher.FailedStatuses | food_rank.py:107-108 | definition: the statuses of the failed responses in request order; it never has more entries than there are responses, and none of them is 200; which statuses appear and where is stated by FailedStatusesMember, FailedStatusesSplit and FailureReported |
| SeriesFetcher.FailedStatusesMember | food_rank.py:101-108 | a status is reported iff it is not 200 and some response carried it |
| SeriesFetcher.FailedStatusesSplit | food_rank.py:101-108 | response k adds its own status, if it failed, and nothing if it succeeded, between the reports of the earlier and the later responses |
| SeriesFetcher.FailureReported | food_rank.py:107-108 | every failed response is reported exactly once, at its place in request order, and the later responses are still reported |
| SeriesFetcher.FetchAll | food_rank.py:87-108 | the request loop yields the merge of the responses to `Requests` and the list of failed statuses |
| SeriesFetcher.AppendItems | food_rank.py:103-106 | the inner loop appends the tagged rows of every item, in item order |
| Ranking.SortDesc | food_rank.py:143 | the result is a permutation of the input in non-increasing order |
| Ranking.TopK | food_rank.py:143-145 | `min(k, n)` entries in non-increasing order, taken from the input; no entry left out scores above an entry kept |
| Ranking.TopKEntries | food_rank.py:145 | on a list with distinct brands, the top k have distinct brands, come from the list, and beat every entry whose brand they omit |
| Averages.Brands | food_rank.py:172 | the distinct brands of the table; a brand is listed iff it has a row |
| Averages.PointsOfMember | food_rank.py:173 | a point is in a brand's series iff the table has that row for the brand |
| Averages.PointsOfMultiplicity | food_rank.py:173 | every row of the brand is kept, duplicates included: a point occurs in the series as often as the table holds that row for the brand |
| Averages.MeanBounds | food_rank.py:143 | a mean lies between the least and the greatest ratio |
| Averages.BrandMeans | food_rank.py:143 | definition: one score per brand of the table with its mean ratio; its meaning is stated by BrandMeansSpec |
| Averages.BrandMeansSpec | food_rank.py:143 | one score per distinct brand, a brand scored iff it has rows, each with the mean of its ratios |
| Averages.MeanRanking | food_rank.py:149 | definition: the per-brand means sorted largest first; its meaning is stated by MeanRankingSpec |
| Averages.MeanTop10 | food_rank.py:143-145 | definition: the first ten of the sorted per-brand means; its meaning is stated by MeanTop10Spec |
| Averages.MeanRankingSpec | food_rank.py:143-149 | every brand of the table appears once, with the mean of its ratios; no other brand appears; non-increasing order |
| Averages.MeanTop10Spec | food_rank.py:143-145 | at most ten brands, each once with its mean, non-increasing; no brand left out has a larger mean than a brand shown |
| Averages.NonEmptyTableRanksSomething | food_rank.py:143-145 | a non-empty table ranks at least one brand |
| Averages.TwoBrandExample | food_rank.py:143 | a table with A at [10, 20] and B at [5, 5] ranks A (15) above B (5) |
| GrowthRanking.SortByPeriod | food_rank.py:173 | the sort by period returns a chronological permutation of the brand's points |
| GrowthRanking.ChronologicalUnique | food_rank.py:173 | with distinct periods, there is only one chronological order of the points |
| GrowthRanking.Latest | food_rank.py:173-175 | definition: the last four points after the sort by period; its meaning is stated by LatestSpec |
| GrowthRanking.FirstAvg | food_rank.py:176 | the mean of the window's first two ratios is their midpoint |
| GrowthRanking.LastAvg | food_rank.py:177 | the mean of the window's last two ratios is their midpoint |
| GrowthRanking.GrowthPercent | food_rank.py:180 | for a positive baseline, the percent is positive iff the ratio rose and zero iff it did not change |
| GrowthRanking.SeriesGrowth | food_rank.py:174-180 | a series has a growth iff it has at least four points and the first two ratios of its window sum to more than zero |
| GrowthRanking.LatestSpec | food_rank.py:173-175 | the window holds four chronological points of the series, and no point left out is later than a point in it |
| GrowthRanking.LatestIndependentOfSort | food_rank.py:173-175 | with distinct periods, any chronological ordering ends in the same window |
| GrowthRanking.GatherMember | food_rank.py:172-181 | the loop gives a brand an entry iff it visits the brand and its growth is defined |
| GrowthRanking.GatherUnique | food_rank.py:172-181 | visiting distinct brands gives each at most one entry |
| GrowthRanking.GrowthList | food_rank.py:171-181 | definition: one score per brand of the table, in first-appearance order, for the brands whose growth is defined; its meaning is stated by GrowthListSpec |
| GrowthRanking.GrowthListSpec | food_rank.py:171-181 | a brand has a growth entry iff it has at least four points and a positive first-half mean; the entry is `(last - first) / first * 100` of its window; no brand has two entries |
| GrowthRanking.FewPointsOmitted | food_rank.py:174 | a brand with fewer than four points gets no entry, rather than a zero |
| GrowthRanking.GrowthData | food_rank.py:171-181 | the growth loop builds exactly `GrowthList` of the table |
| GrowthRanking.WindowGrowth | food_rank.py:173-181 | the loop body for one brand (sort by period, last four points, two averages, percent change, zero-denominator guard) yields exactly `SeriesGrowth` of the brand's points |
| GrowthRanking.Significant | food_rank.py:184 | keeps exactly the entries above 0.05, and keeps brands distinct |
| GrowthRanking.GrowthTop5 | food_rank.py:184-185 | definition: the top five of the entries above 0.05; its meaning is stated by GrowthTop5Spec and GrowthTop5OfTable |
| GrowthRanking.GrowthTop5Spec | food_rank.py:184-185 | min(5, number of entries above 0.05) entries of the growth list, all above 0.05, non-increasing, brands distinct; an entry above 0.05 that is left out is no larger than any shown |
| GrowthRanking.GrowthTop5OfTable | food_rank.py:171-185 | for a table: min(5, number of brands growing above 0.05) entries, largest first, each brand once with its growth, all above 0.05; a brand above 0.05 is left out only when five are shown and it grows no more than any of them |
| GrowthRanking.NoSignificantGrowthEmpty | food_rank.py:184-187 | if nothing exceeds the threshold, the TOP 5 is empty |
| GrowthRanking.NoRiseShowsWarning | food_rank.py:183-198 | if no brand of the table grows above the threshold (or none has a growth at all), the TOP 5 is empty and the warning branch is taken |
| GrowthRanking.DoublingWindow | food_rank.py:176-180 | window ratios [10, 10, 20, 20] give averages 10 and 20 and a growth of 100 |
| GrowthRanking.CollapsingWindow | food_rank.py:176-185 | window ratios [10, 10, 0, 0] give a growth of -100, which is filtered out |
| GrowthRanking.GrowthTop5AsWritten | food_rank.py:183-185 | definition: the step as written, failing with a missing column on an empty growth list; its meaning is stated by AsWrittenFailsOnEmptyGrowth |
| GrowthRanking.AsWrittenFailsOnEmptyGrowth | food_rank.py:183-185 | on a table, the step as written fails exactly when no brand has a growth (too few points or no positive baseline, for every brand), and otherwise agrees with the corrected TOP 5 |
| GrowthRanking.AsWrittenFailsOnShortSeries | food_rank.py:183-184 | a non-empty table whose only brand has two points: the step as written fails, the corrected TOP 5 is empty |
| Analysis.UnitLabel | food_rank.py:157-164 | the label is one of the four labels; it is the generic one iff the unit is not date, week or month |
| Analysis.UnitLabelInjective | food_rank.py:157-162 | the three offered units get three different labels |
| Analysis.Analyze | food_rank.py:110-207 | definition: "no data" for an empty table, otherwise the report with the table, both mean rankings, the unit label and the growth TOP 5; its meaning is stated by AnalyzeGuard and GrowthTopSpec |
| Analysis.AnalyzeGuard | food_rank.py:110 | the result is "no data" (the `else` branch of lines 206-207) iff the table is empty; a non-empty table ranks something |
| Analysis.GrowthTopSpec | food_rank.py:171-185 | the report's growth TOP 5 holds the five largest growths above 0.05 (all of them when fewer qualify), largest first, each brand once; a qualifying brand is left out only when five are shown and it grows no more than any of them |
| Analysis.RankedBrandsWereReturned | food_rank.py:101-106 | every brand of the pie ranking was the title of an item in a status-200 response |
| Analysis.AllFailedNoData | food_rank.py:101-110 | when every request fails, the run ends in "no data" |
| Analysis.RunAnalysis | food_rank.py:75-207 | the button branch reports the failed statuses and produces `Analyze` of the merged table |

## Left out

- The Streamlit page is not modelled: widgets, spinner, success and error messages, tables, `st.secrets` loading and the final caption. `RunAnalysis` receives the widget values as parameters. It returns the failed statuses, which stand for the error messages.
- Matplotlib and the font setup are not modelled: the line chart, the pie chart with its percentage normalisation, and the bar chart with its labels. Each chart's input is part of `Outcome`.
- The HTTP POST, its headers and the JSON encoding of the body are not modelled. `fetch` is a parameter, and `Request` carries exactly the body's four fields. `requests.post` is called without a timeout, so a hung connection blocks the run indefinitely and a network exception ends it. `response.json()` at line 102 raises on a status-200 response whose body is not JSON, or on one that has no `results` key. In the model, `fetch` is total and always returns a well-formed `Response`.
- Default dates come from the system clock. They are not modelled; the dates are parameters.
- SeriesFetcher.FetchAll: an error message also shows `response.text`; the model keeps only the status.
- Response items with a missing `results`, `data` or `title` key are not modelled. The source does not handle them either.
- Date parsing with `pd.to_datetime(errors="coerce")` and the `notnull` tests are not modelled. Periods are already-valid integers, so neither average can be missing.
- GrowthRanking.GrowthListSpec: growth is an exact real. The source rounds it to two decimals before the 0.05 filter. A value within rounding distance of 0.05 can therefore be filtered differently, and the displayed values are not rounded.
- GrowthRanking.SortByPeriod: the source's sort over `datetime` values becomes a sort over integer periods.
- Ranking.SortDesc: the order among equal scores is left unspecified, as pandas' default sort promises none. The insertion sort is one admissible order.
- Averages.BrandMeans: pandas `groupby` returns brands in key order; the model lists them in order of first appearance. Sorting by mean makes the two agree except among ties, which are unspecified anyway.
- Analysis.Analyze, Analysis.RunAnalysis: on a non-empty table with an empty growth list, the source raises `KeyError` at line 184. By then the line chart, the TOP 10 table and the pie chart have been drawn, and the raw table of line 204 is never shown. The model returns a `Report` with an empty growth TOP 5 instead, which is the corrected behaviour described under "## Findings".
- GrowthRanking.LatestIndependentOfSort: it assumes that a brand's periods are distinct. That is an assumption about the API's data; neither the source nor `Merge` enforces it.
- The raw table shown at the bottom of the page is `Outcome.table`. Its renamed column headers are not modelled.
- Floating-point arithmetic in the means and the growth percent is replaced by exact real arithmetic.

## Findings

| source | as written | input that shows it | evidently intended | confidence | as-written member | corrected member |
|---|---|---|---|---|---|---|
| food_rank.py:183-184 | `pd.DataFrame(growth_data)` of an empty list has no columns, so selecting `"상승률(%)"` raises `KeyError` and the page stops | a non-empty table in which no brand has four points with a positive first-half mean, e.g. one brand with two daily points; a monthly query over the default seven-day range gives one or two points per brand | the "no significant rise" warning of line 198, reached through an empty TOP 5 | high, not executed | GrowthRanking.AsWrittenFailsOnShortSeries | GrowthRanking.NoRiseShowsWarning |

`GrowthTop5AsWritten` models the step as written: an empty growth list gives
`MissingColumn`. `GrowthTop5` is the corrected step: an empty list gives an
empty TOP 5. `NoRiseShowsWarning` proves that the corrected step reaches the
warning branch whenever no brand rises above the threshold.
`AsWrittenFailsOnEmptyGrowth` proves that, on any table, the step as written
fails exactly when no brand has a growth, and otherwise agrees with the
corrected step. The rest of the model (`Analyze`, `RunAnalysis`) uses the
corrected `GrowthTop5`.
