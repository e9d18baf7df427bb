/** Batching the brand groups into API-sized requests and merging the
    per-request responses into one table of (period, ratio, keyword) rows. */
module SeriesFetcher {
  import opened Seqs
  import opened KeywordCatalog

  /** The search-trend API accepts at most this many keyword groups per request. */
  const ChunkSize: nat := 5
  /** The only status whose body is merged. */
  const StatusOk: int := 200

  /** The body of one search-trend request. */
  datatype Request = Request(startDate: string, endDate: string, timeUnit: string,
                             keywordGroups: seq<BrandGroup>)

  /** One point of a returned series. Periods are ordinals, already parsed. */
  datatype Point = Point(period: int, ratio: real)
  /** One entry of a response's `results`: the series of one keyword group. */
  datatype Item = Item(title: string, data: seq<Point>)
  /** A response: its HTTP status and, for a success, the parsed `results`. */
  datatype Response = Response(status: int, results: seq<Item>)
  /** One row of the merged table; `keyword` is the group title it came from. */
  datatype Row = Row(period: int, ratio: real, keyword: string)

  /** Consecutive slices of at most `ChunkSize` elements. */
  function Chunks<T>(s: seq<T>): (cs: seq<seq<T>>)
    ensures |cs| == (|s| + ChunkSize - 1) / ChunkSize
    ensures forall k :: 0 <= k < |cs| ==> 0 < |cs[k]| <= ChunkSize
    decreases |s|
  {
    if s == [] then []
    else
      var n := Min(ChunkSize, |s|);
      [s[..n]] + Chunks(s[n..])
  }

  /** Putting the chunks back together in order gives the original list. */
  lemma {:induction false} ChunksConcat<T>(s: seq<T>)
    ensures Concat(Chunks(s)) == s
    decreases |s|
  {
    if s != [] {
      var n := Min(ChunkSize, |s|);
      ConcatCons(s[..n], Chunks(s[n..]));
      ChunksConcat(s[n..]);
      assert s[..n] + s[n..] == s;
    }
  }

  /** Chunk `k` is the slice `s[5k : 5k + 5]` that the request loop takes. */
  lemma {:induction false} ChunkAt<T>(s: seq<T>, k: nat)
    requires k < |Chunks(s)|
    ensures ChunkSize * k < |s|
    ensures Chunks(s)[k] == Slice(s, ChunkSize * k, ChunkSize * k + ChunkSize)
    decreases |s|
  {
    var n := Min(ChunkSize, |s|);
    if k > 0 {
      assert Chunks(s)[k] == Chunks(s[n..])[k - 1];
      ChunkAt(s[n..], k - 1);
      assert n == ChunkSize;
      var a := ChunkSize * (k - 1);
      assert ChunkSize * k == a + ChunkSize;
      assert Slice(s[n..], a, a + ChunkSize) == Slice(s, ChunkSize * k, ChunkSize * k + ChunkSize);
    }
  }

  /** One request per chunk, all with the same dates and time unit. */
  function Requests(groups: seq<BrandGroup>, startDate: string, endDate: string, timeUnit: string): seq<Request>
  {
    var cs := Chunks(groups);
    seq(|cs|, k requires 0 <= k < |cs| => Request(startDate, endDate, timeUnit, cs[k]))
  }

  function KeywordGroupsOf(rs: seq<Request>): seq<seq<BrandGroup>>
  {
    seq(|rs|, k requires 0 <= k < |rs| => rs[k].keywordGroups)
  }

  /** The requests respect the API limit, carry the run's dates and unit, and
      together ask for every group exactly once, in order. */
  lemma RequestsCover(groups: seq<BrandGroup>, startDate: string, endDate: string, timeUnit: string)
    ensures var rs := Requests(groups, startDate, endDate, timeUnit);
      && |rs| == (|groups| + ChunkSize - 1) / ChunkSize
      && (forall k :: 0 <= k < |rs| ==> 0 < |rs[k].keywordGroups| <= ChunkSize)
      && (forall k :: 0 <= k < |rs| ==>
            rs[k].startDate == startDate && rs[k].endDate == endDate && rs[k].timeUnit == timeUnit)
      && Concat(KeywordGroupsOf(rs)) == groups
  {
    var rs := Requests(groups, startDate, endDate, timeUnit);
    assert KeywordGroupsOf(rs) == Chunks(groups);
    ChunksConcat(groups);
  }

  /** The answers of the remote service, one per request. */
  function Responses(rs: seq<Request>, fetch: Request -> Response): seq<Response>
  {
    seq(|rs|, k requires 0 <= k < |rs| => fetch(rs[k]))
  }

  /** The rows of one item, each tagged with the item's title. */
  function Tag(item: Item): seq<Row>
  {
    seq(|item.data|, i requires 0 <= i < |item.data| =>
      Row(item.data[i].period, item.data[i].ratio, item.title))
  }

  /** The rows of several items, item after item. */
  function ItemRows(items: seq<Item>): seq<Row>
  {
    if items == [] then [] else ItemRows(items[..|items| - 1]) + Tag(items[|items| - 1])
  }

  /** What one response contributes to the table: nothing unless its status is 200. */
  function ResponseRows(r: Response): seq<Row>
  {
    if r.status == StatusOk then ItemRows(r.results) else []
  }

  /** The merged table. */
  function Merge(rs: seq<Response>): seq<Row>
  {
    if rs == [] then [] else Merge(rs[..|rs| - 1]) + ResponseRows(rs[|rs| - 1])
  }

  /** The statuses of the failed responses, in request order (each one is reported). */
  function FailedStatuses(rs: seq<Response>): (failed: seq<int>)
    ensures |failed| <= |rs|
    ensures forall i :: 0 <= i < |failed| ==> failed[i] != StatusOk
  {
    if rs == [] then []
    else
      FailedStatuses(rs[..|rs| - 1]) + StatusReport(rs[|rs| - 1])
  }

  /** What one response contributes to the failure report. */
  function StatusReport(r: Response): seq<int>
  {
    if r.status == StatusOk then [] else [r.status]
  }

  /** A status is reported iff it is not 200 and some response carried it. */
  lemma {:induction false} FailedStatusesMember(rs: seq<Response>, s: int)
    ensures s in FailedStatuses(rs) <==>
      s != StatusOk && exists k :: 0 <= k < |rs| && rs[k].status == s
  {
    if rs != [] {
      var init := rs[..|rs| - 1];
      FailedStatusesMember(init, s);
      assert forall k :: 0 <= k < |init| ==> init[k] == rs[k];
      if s != StatusOk && rs[|rs| - 1].status != s {
        if k :| 0 <= k < |rs| && rs[k].status == s {
          assert k < |init| && init[k].status == s;
        }
      }
    }
  }

  lemma {:induction false} FailedStatusesAppend(a: seq<Response>, b: seq<Response>)
    ensures FailedStatuses(a + b) == FailedStatuses(a) + FailedStatuses(b)
  {
    if b == [] {
      assert a + b == a;
    } else {
      var b' := b[..|b| - 1];
      assert (a + b)[..|a + b| - 1] == a + b' && (a + b)[|a + b| - 1] == b[|b| - 1];
      FailedStatusesAppend(a, b');
    }
  }

  /** Response `k` reports its own status, if it failed, between the statuses of
      the earlier and of the later failed responses. */
  lemma FailedStatusesSplit(rs: seq<Response>, k: nat)
    requires k < |rs|
    ensures FailedStatuses(rs) ==
      FailedStatuses(rs[..k]) + StatusReport(rs[k]) + FailedStatuses(rs[k + 1..])
  {
    SplitAt(rs, k);
    FailedStatusesAppend(rs[..k] + [rs[k]], rs[k + 1..]);
    FailedStatusesAppend(rs[..k], [rs[k]]);
    assert [rs[k]][..0] == [];
  }

  /** Every failed response is reported: one entry, at its place in request order. */
  lemma FailureReported(rs: seq<Response>, k: nat)
    requires k < |rs| && rs[k].status != StatusOk
    ensures FailedStatuses(rs) == FailedStatuses(rs[..k]) + [rs[k].status] + FailedStatuses(rs[k + 1..])
  {
    FailedStatusesSplit(rs, k);
  }

  lemma TagMember(item: Item, row: Row)
    ensures row in Tag(item) <==> row.keyword == item.title && Point(row.period, row.ratio) in item.data
  {
    if Point(row.period, row.ratio) in item.data && row.keyword == item.title {
      var i :| 0 <= i < |item.data| && item.data[i] == Point(row.period, row.ratio);
      assert Tag(item)[i] == row;
    }
  }

  lemma {:induction false} ItemRowsMember(items: seq<Item>, row: Row)
    ensures row in ItemRows(items) <==> exists i :: 0 <= i < |items| && row in Tag(items[i])
  {
    if items != [] {
      var init := items[..|items| - 1];
      ItemRowsMember(init, row);
      assert forall i :: 0 <= i < |init| ==> init[i] == items[i];
    }
  }

  lemma {:induction false} MergeAppend(a: seq<Response>, b: seq<Response>)
    ensures Merge(a + b) == Merge(a) + Merge(b)
  {
    if b == [] {
      assert a + b == a;
    } else {
      var b' := b[..|b| - 1];
      var last := b[|b| - 1];
      calc {
        Merge(a + b);
        { assert (a + b)[..|a + b| - 1] == a + b' && (a + b)[|a + b| - 1] == last; }
        Merge(a + b') + ResponseRows(last);
        { MergeAppend(a, b'); }
        Merge(a) + Merge(b') + ResponseRows(last);
      }
    }
  }

  /** Each response is merged on its own: response `k` adds its own rows between
      those of the earlier and of the later responses, whatever its status. */
  lemma MergeSplit(rs: seq<Response>, k: nat)
    requires k < |rs|
    ensures Merge(rs) == Merge(rs[..k]) + ResponseRows(rs[k]) + Merge(rs[k + 1..])
  {
    SplitAt(rs, k);
    MergeThree(rs[..k], rs[k], rs[k + 1..]);
  }


  lemma MergeThree(before: seq<Response>, x: Response, after: seq<Response>)
    ensures Merge(before + [x] + after) == Merge(before) + ResponseRows(x) + Merge(after)
  {
    MergeAppend(before + [x], after);
    MergeAppend(before, [x]);
    MergeOne(x);
  }

  lemma MergeOne(x: Response)
    ensures Merge([x]) == ResponseRows(x)
  {
    assert [x][..0] == [];
  }

  /** A failed response adds no rows and does not keep the later ones out. */
  lemma FailedResponseSkipped(rs: seq<Response>, k: nat)
    requires k < |rs| && rs[k].status != StatusOk
    ensures Merge(rs) == Merge(rs[..k]) + Merge(rs[k + 1..])
  {
    MergeSplit(rs, k);
  }

  /** The merged table holds exactly the tagged points of the successful responses. */
  lemma {:induction false} MergeMember(rs: seq<Response>, row: Row)
    ensures row in Merge(rs) <==>
      exists k, i :: 0 <= k < |rs| && rs[k].status == StatusOk && 0 <= i < |rs[k].results|
        && row.keyword == rs[k].results[i].title
        && Point(row.period, row.ratio) in rs[k].results[i].data
  {
    if rs != [] {
      var init := rs[..|rs| - 1];
      var last := rs[|rs| - 1];
      MergeMember(init, row);
      ItemRowsMember(last.results, row);
      forall i | 0 <= i < |last.results| {
        TagMember(last.results[i], row);
      }
      assert forall k :: 0 <= k < |init| ==> init[k] == rs[k];
    }
  }

  /** A merge in which no response succeeded is empty. */
  lemma {:induction false} MergeAllFailed(rs: seq<Response>)
    requires forall k :: 0 <= k < |rs| ==> rs[k].status != StatusOk
    ensures Merge(rs) == []
  {
    if rs != [] {
      MergeAllFailed(rs[..|rs| - 1]);
    }
  }

  /** Two chunks, the second failing: the table is the first chunk's rows only. */
  lemma SecondOfTwoFails(first: Response, second: Response)
    requires first.status == StatusOk && second.status != StatusOk
    ensures Merge([first, second]) == ItemRows(first.results)
    ensures FailedStatuses([first, second]) == [second.status]
  {
    var rs := [first, second];
    assert rs[..1] == [first];
    assert [first][..0] == [];
    assert Merge([first]) == ResponseRows(first);
    assert Merge(rs) == Merge([first]) + ResponseRows(second);
    assert FailedStatuses([first]) == [];
  }

  /** The request loop: one request per chunk of at most five groups; a
      successful response has each of its items tagged and appended, a failed
      one is reported and skipped. */
  method FetchAll(groups: seq<BrandGroup>, startDate: string, endDate: string, timeUnit: string,
                  fetch: Request -> Response)
    returns (rows: seq<Row>, failures: seq<int>)
    ensures rows == Merge(Responses(Requests(groups, startDate, endDate, timeUnit), fetch))
    ensures failures == FailedStatuses(Responses(Requests(groups, startDate, endDate, timeUnit), fetch))
  {
    ghost var rs := Responses(Requests(groups, startDate, endDate, timeUnit), fetch);
    ghost var k := 0;
    rows, failures := [], [];
    var i := 0;
    ChunkCount(|groups|, 0);
    while i < |groups|
      invariant i == ChunkSize * k && k <= |rs|
      invariant k < |rs| <==> i < |groups|
      invariant rows == Merge(rs[..k])
      invariant failures == FailedStatuses(rs[..k])
    {
      var chunk := Slice(groups, i, i + ChunkSize);
      var response := fetch(Request(startDate, endDate, timeUnit, chunk));
      ResponseAt(groups, startDate, endDate, timeUnit, fetch, k);
      MergeStep(rs, k);
      if response.status == StatusOk {
        rows := AppendItems(rows, response.results);
      } else {
        failures := failures + [response.status];
      }
      i := i + ChunkSize;
      k := k + 1;
      ChunkCount(|groups|, k);
    }
    assert rs[..k] == rs;
  }

  /** The inner loop over the items of a successful response. */
  method AppendItems(rows0: seq<Row>, data: seq<Item>) returns (rows: seq<Row>)
    ensures rows == rows0 + ItemRows(data)
  {
    rows := rows0;
    for j := 0 to |data|
      invariant rows == rows0 + ItemRows(data[..j])
    {
      ItemRowsStep(data, j);
      rows := rows + Tag(data[j]);
    }
    assert data[..|data|] == data;
  }

  /** Chunk `k` exists exactly when it starts inside the list. */
  lemma ChunkCount(n: nat, k: nat)
    ensures ChunkSize * k < n <==> k < (n + ChunkSize - 1) / ChunkSize
  {
  }

  /** Response `k` answers the request for the slice `groups[5k : 5k + 5]`. */
  lemma ResponseAt(groups: seq<BrandGroup>, startDate: string, endDate: string, timeUnit: string,
                   fetch: Request -> Response, k: nat)
    requires ChunkSize * k < |groups|
    ensures var rs := Responses(Requests(groups, startDate, endDate, timeUnit), fetch);
      k < |rs| &&
      rs[k] == fetch(Request(startDate, endDate, timeUnit, Slice(groups, ChunkSize * k, ChunkSize * k + ChunkSize)))
  {
    ChunkCount(|groups|, k);
    ChunkAt(groups, k);
  }

  lemma MergeStep(rs: seq<Response>, k: nat)
    requires k < |rs|
    ensures Merge(rs[..k + 1]) == Merge(rs[..k]) + ResponseRows(rs[k])
    ensures FailedStatuses(rs[..k + 1]) ==
      FailedStatuses(rs[..k]) + (if rs[k].status == StatusOk then [] else [rs[k].status])
  {
    assert rs[..k + 1][..k] == rs[..k];
  }

  lemma ItemRowsStep(items: seq<Item>, j: nat)
    requires j < |items|
    ensures ItemRows(items[..j + 1]) == ItemRows(items[..j]) + Tag(items[j])
  {
    assert items[..j + 1][..j] == items[..j];
  }
}
