/**
 Rolling request rows up into hourly groups and deleting them (wiwi/logging_core/db_sink.py).

 `request_logs` is a list of rows in primary-key order, `request_rollups` a map from the
 unique five-column key to one row. Missing numbers read as 0, as the source's `or 0` does.
 */
module Rollup {
  import opened Prelude
  import opened BinTable
  import opened Histogram

  const BUCKET_S := 3600
  const BATCH: nat := 2000

  datatype Series = Tps | Ttft | Latency

  datatype Row = Row(
    id: int, ts: real, keyId: int, modelGroup: int, provider: int, servingModel: int,
    status: int, hasErrorCode: bool, estimated: bool, cacheHit: bool,
    tokIn: int, tokCached: int, tokCacheCreation: int, tokReasoning: int, tokOut: int,
    cost: real, cacheSavings: real, tps: real, ttftMs: real, latencyMs: real)

  datatype GroupKey = GroupKey(bucket: int, keyId: int, modelGroup: int, provider: int, servingModel: int)

  datatype Totals = Totals(
    requests: int, errors: int, estimatedRequests: int, cacheHits: int,
    tokIn: int, tokCached: int, tokCacheCreation: int, tokReasoning: int, tokOut: int,
    cost: real, cacheSavings: real, tpsSum: real, tpsCount: int,
    unpricedRequests: int, unpricedTokIn: int, unpricedTokCached: int,
    unpricedTokCacheCreation: int, unpricedTokOut: int)

  const ZERO := Totals(0, 0, 0, 0, 0, 0, 0, 0, 0, 0.0, 0.0, 0.0, 0, 0, 0, 0, 0, 0)

  /** The additive columns of a rollup row. */
  datatype Column =
    | Requests | Errors | EstimatedRequests | CacheHits
    | TokIn | TokCached | TokCacheCreation | TokReasoning | TokOut
    | Cost | CacheSavings | TpsSum | TpsCount
    | UnpricedRequests | UnpricedTokIn | UnpricedTokCached | UnpricedTokCacheCreation | UnpricedTokOut

  function KeyOf(r: Row): GroupKey {
    GroupKey((r.ts / (BUCKET_S as real)).Floor * BUCKET_S, r.keyId, r.modelGroup, r.provider, r.servingModel)
  }

  function At(t: Totals, c: Column): real {
    match c
    case Requests => t.requests as real
    case Errors => t.errors as real
    case EstimatedRequests => t.estimatedRequests as real
    case CacheHits => t.cacheHits as real
    case TokIn => t.tokIn as real
    case TokCached => t.tokCached as real
    case TokCacheCreation => t.tokCacheCreation as real
    case TokReasoning => t.tokReasoning as real
    case TokOut => t.tokOut as real
    case Cost => t.cost
    case CacheSavings => t.cacheSavings
    case TpsSum => t.tpsSum
    case TpsCount => t.tpsCount as real
    case UnpricedRequests => t.unpricedRequests as real
    case UnpricedTokIn => t.unpricedTokIn as real
    case UnpricedTokCached => t.unpricedTokCached as real
    case UnpricedTokCacheCreation => t.unpricedTokCacheCreation as real
    case UnpricedTokOut => t.unpricedTokOut as real
  }

  /** A row is grouped under the full hour that contains it. */
  lemma HourContains(r: Row)
    ensures var b := KeyOf(r).bucket; b % 3600 == 0 && b as real <= r.ts < (b + 3600) as real
    ensures KeyOf(r) == GroupKey(KeyOf(r).bucket, r.keyId, r.modelGroup, r.provider, r.servingModel)
  {
    var hour := (r.ts / 3600.0).Floor;
    assert hour as real <= r.ts / 3600.0 < (hour + 1) as real;
  }

  function Indicator(b: bool): real {
    if b then 1.0 else 0.0
  }

  predicate Unpriced(r: Row) {
    r.cost == 0.0
  }

  /** What one raw row counts for in each column: the reading a query over raw rows gives. */
  function Measure(r: Row, c: Column): real {
    match c
    case Requests => 1.0
    case Errors => Indicator(r.status >= 400 || r.hasErrorCode)
    case EstimatedRequests => Indicator(r.estimated)
    case CacheHits => Indicator(r.cacheHit || r.tokCached != 0)
    case TokIn => r.tokIn as real
    case TokCached => r.tokCached as real
    case TokCacheCreation => r.tokCacheCreation as real
    case TokReasoning => r.tokReasoning as real
    case TokOut => r.tokOut as real
    case Cost => r.cost
    case CacheSavings => r.cacheSavings
    case TpsSum => r.tps
    case TpsCount => Indicator(r.tps != 0.0)
    case UnpricedRequests => Indicator(Unpriced(r))
    case UnpricedTokIn => if Unpriced(r) then r.tokIn as real else 0.0
    case UnpricedTokCached => if Unpriced(r) then r.tokCached as real else 0.0
    case UnpricedTokCacheCreation => if Unpriced(r) then r.tokCacheCreation as real else 0.0
    case UnpricedTokOut => if Unpriced(r) then r.tokOut as real else 0.0
  }

  function Sample(r: Row, s: Series): real {
    match s
    case Tps => r.tps
    case Ttft => r.ttftMs
    case Latency => r.latencyMs
  }

  /** Column `c` of group `k` summed over raw rows. */
  function RawTotal(rows: seq<Row>, k: GroupKey, c: Column): real {
    if rows == [] then 0.0
    else
      var last := rows[|rows| - 1];
      RawTotal(rows[..|rows| - 1], k, c) + (if KeyOf(last) == k then Measure(last, c) else 0.0)
  }

  /** The samples of group `k`, in order. */
  function Samples(rows: seq<Row>, k: GroupKey, s: Series): seq<real> {
    if rows == [] then []
    else
      var last := rows[|rows| - 1];
      if KeyOf(last) == k then Samples(rows[..|rows| - 1], k, s) + [Sample(last, s)]
      else Samples(rows[..|rows| - 1], k, s)
  }

  predicate Occurs(rows: seq<Row>, k: GroupKey) {
    exists i :: 0 <= i < |rows| && KeyOf(rows[i]) == k
  }

  // ---- one row --------------------------------------------------------------------------

  datatype Family = Counts | Usage | Unbilled

  function FamilyOf(c: Column): Family {
    match c
    case Requests | Errors | EstimatedRequests | CacheHits | TpsSum | TpsCount => Counts
    case TokIn | TokCached | TokCacheCreation | TokReasoning | TokOut | Cost | CacheSavings => Usage
    case UnpricedRequests | UnpricedTokIn | UnpricedTokCached | UnpricedTokCacheCreation | UnpricedTokOut => Unbilled
  }

  function PartOf(r: Row, c: Column, f: Family): real {
    if FamilyOf(c) == f then Measure(r, c) else 0.0
  }

  method AddCounts(into: Totals, r: Row) returns (acc: Totals)
    ensures forall c :: At(acc, c) == At(into, c) + PartOf(r, c, Counts)
  {
    acc := into.(requests := into.requests + 1);
    if r.status >= 400 || r.hasErrorCode {
      acc := acc.(errors := acc.errors + 1);
    }
    if r.estimated {
      acc := acc.(estimatedRequests := acc.estimatedRequests + 1);
    }
    if r.cacheHit || r.tokCached != 0 {
      acc := acc.(cacheHits := acc.cacheHits + 1);
    }
    if r.tps != 0.0 {
      acc := acc.(tpsSum := acc.tpsSum + r.tps, tpsCount := acc.tpsCount + 1);
    }
  }

  method AddUsage(into: Totals, r: Row) returns (acc: Totals)
    ensures forall c :: At(acc, c) == At(into, c) + PartOf(r, c, Usage)
  {
    acc := into.(tokIn := into.tokIn + r.tokIn, tokCached := into.tokCached + r.tokCached,
      tokCacheCreation := into.tokCacheCreation + r.tokCacheCreation,
      tokReasoning := into.tokReasoning + r.tokReasoning, tokOut := into.tokOut + r.tokOut,
      cost := into.cost + r.cost, cacheSavings := into.cacheSavings + r.cacheSavings);
  }

  method AddUnbilled(into: Totals, r: Row) returns (acc: Totals)
    ensures forall c :: At(acc, c) == At(into, c) + PartOf(r, c, Unbilled)
  {
    acc := into;
    if r.cost == 0.0 {
      acc := into.(unpricedRequests := into.unpricedRequests + 1,
        unpricedTokIn := into.unpricedTokIn + r.tokIn,
        unpricedTokCached := into.unpricedTokCached + r.tokCached,
        unpricedTokCacheCreation := into.unpricedTokCacheCreation + r.tokCacheCreation,
        unpricedTokOut := into.unpricedTokOut + r.tokOut);
    }
  }

  method Accumulate(into: Totals, r: Row) returns (acc: Totals)
    ensures forall c :: At(acc, c) == At(into, c) + Measure(r, c)
  {
    var counted := AddCounts(into, r);
    var used := AddUsage(counted, r);
    acc := AddUnbilled(used, r);
    forall c ensures At(acc, c) == At(into, c) + Measure(r, c) {
      assert At(acc, c) == At(used, c) + PartOf(r, c, Unbilled);
      assert At(used, c) == At(counted, c) + PartOf(r, c, Usage);
    }
  }

  /** The upsert's `column = column + excluded.column`, for every additive column. */
  function Plus(a: Totals, b: Totals): (sum: Totals)
    ensures forall c :: At(sum, c) == At(a, c) + At(b, c)
  {
    Totals(
      a.requests + b.requests, a.errors + b.errors, a.estimatedRequests + b.estimatedRequests,
      a.cacheHits + b.cacheHits, a.tokIn + b.tokIn, a.tokCached + b.tokCached,
      a.tokCacheCreation + b.tokCacheCreation, a.tokReasoning + b.tokReasoning, a.tokOut + b.tokOut,
      a.cost + b.cost, a.cacheSavings + b.cacheSavings, a.tpsSum + b.tpsSum, a.tpsCount + b.tpsCount,
      a.unpricedRequests + b.unpricedRequests, a.unpricedTokIn + b.unpricedTokIn,
      a.unpricedTokCached + b.unpricedTokCached, a.unpricedTokCacheCreation + b.unpricedTokCacheCreation,
      a.unpricedTokOut + b.unpricedTokOut)
  }

  // ---- which rows are doomed ------------------------------------------------------------

  /** Rows older than a time, or older than a row under (ts, id). */
  datatype Cutoff = OlderThan(ts: real) | Before(ts: real, id: int)

  predicate Doomed(r: Row, cut: Cutoff) {
    match cut
    case OlderThan(ts) => r.ts < ts
    case Before(ts, id) => r.ts < ts || (r.ts == ts && r.id < id)
  }

  function DoomedRows(logs: seq<Row>, cut: Cutoff): seq<Row> {
    if logs == [] then []
    else if Doomed(logs[0], cut) then [logs[0]] + DoomedRows(logs[1..], cut)
    else DoomedRows(logs[1..], cut)
  }

  function KeptRows(logs: seq<Row>, cut: Cutoff): seq<Row> {
    if logs == [] then []
    else if Doomed(logs[0], cut) then KeptRows(logs[1..], cut)
    else [logs[0]] + KeptRows(logs[1..], cut)
  }

  /** Primary-key order; generated ids are never negative. */
  ghost predicate ById(rows: seq<Row>) {
    && (forall i :: 0 <= i < |rows| ==> rows[i].id >= 0)
    && (forall i, j :: 0 <= i < j < |rows| ==> rows[i].id < rows[j].id)
  }

  /** `WHERE id > :last`. */
  function After(rows: seq<Row>, last: int): seq<Row> {
    if rows == [] then [] else if rows[0].id > last then [rows[0]] + After(rows[1..], last) else After(rows[1..], last)
  }

  /** One page: doomed rows past `last`, by id, at most `limit` of them. */
  function Page(logs: seq<Row>, cut: Cutoff, last: int, limit: nat): seq<Row> {
    var found := After(DoomedRows(logs, cut), last);
    if |found| <= limit then found else found[..limit]
  }

  /** The rows at least as young as `ts`, in order. */
  function Younger(logs: seq<Row>, ts: real): seq<Row> {
    if logs == [] then [] else (if logs[0].ts >= ts then [logs[0]] else []) + Younger(logs[1..], ts)
  }

  /** A sweep by age dooms the rows older than its cutoff and keeps the others in order. */
  lemma {:induction false} AgeSweepExactly(logs: seq<Row>, ts: real)
    ensures KeptRows(logs, OlderThan(ts)) == Younger(logs, ts)
    ensures |DoomedRows(logs, OlderThan(ts))| == |logs| - |Younger(logs, ts)|
    ensures forall r :: r in Younger(logs, ts) <==> r in logs && r.ts >= ts
  {
    if logs != [] {
      AgeSweepExactly(logs[1..], ts);
      assert logs == [logs[0]] + logs[1..];
    }
  }

  /** A row is doomed or kept, by its time and, under a boundary row, its id. */
  lemma {:induction false} DoomedAreIn(logs: seq<Row>, cut: Cutoff)
    ensures forall r :: r in DoomedRows(logs, cut) <==>
              r in logs && (r.ts < cut.ts || (cut.Before? && r.ts == cut.ts && r.id < cut.id))
    ensures forall r :: r in KeptRows(logs, cut) <==>
              r in logs && r.ts >= cut.ts && (cut.Before? ==> r.ts > cut.ts || r.id >= cut.id)
  {
    if logs != [] {
      DoomedAreIn(logs[1..], cut);
      assert logs == [logs[0]] + logs[1..];
    }
  }

  lemma {:induction false} DoomedById(logs: seq<Row>, cut: Cutoff)
    requires ById(logs)
    ensures ById(DoomedRows(logs, cut)) && ById(KeptRows(logs, cut))
  {
    if logs != [] {
      DoomedById(logs[1..], cut);
      DoomedAreIn(logs[1..], cut);
      var d, k := DoomedRows(logs[1..], cut), KeptRows(logs[1..], cut);
      forall i | 0 <= i < |d| ensures logs[0].id < d[i].id {
        assert d[i] in logs[1..];
      }
      forall i | 0 <= i < |k| ensures logs[0].id < k[i].id {
        assert k[i] in logs[1..];
      }
    }
  }

  /** Keyset pagination resumes exactly after the last row of the previous page. */
  lemma {:induction false} AfterResumes(rows: seq<Row>, n: nat, last: int)
    requires ById(rows) && n <= |rows|
    requires last == if n == 0 then -1 else rows[n - 1].id
    ensures After(rows, last) == rows[n..]
  {
    if rows != [] {
      if n == 0 {
        NothingSkipped(rows, last);
      } else if n == 1 {
        NothingSkipped(rows[1..], last);
        assert rows[1..] == rows[n..];
      } else {
        AfterResumes(rows[1..], n - 1, last);
        assert rows[1..][n - 1..] == rows[n..];
      }
    }
  }

  lemma {:induction false} NothingSkipped(rows: seq<Row>, last: int)
    requires forall i :: 0 <= i < |rows| ==> rows[i].id > last
    ensures After(rows, last) == rows
  {
    if rows != [] {
      NothingSkipped(rows[1..], last);
    }
  }

  /** A page holds the next doomed rows, in order, and is empty only when all have been seen. */
  lemma PageResumes(logs: seq<Row>, cut: Cutoff, n: nat, last: int, limit: nat)
    requires ById(DoomedRows(logs, cut)) && n <= |DoomedRows(logs, cut)| && limit > 0
    requires last == if n == 0 then -1 else DoomedRows(logs, cut)[n - 1].id
    ensures var d, page := DoomedRows(logs, cut), Page(logs, cut, last, limit);
            && n + |page| <= |d| && d[..n] + page == d[..n + |page|]
            && (if page == [] then n == |d| else page[|page| - 1] == d[n + |page| - 1])
  {
    var d, page := DoomedRows(logs, cut), Page(logs, cut, last, limit);
    AfterResumes(d, n, last);
    var rest := d[n..];
    assert After(d, last) == rest && page == if |rest| <= limit then rest else rest[..limit];
    FrontOf(d, n, |page|, page);
  }

  lemma FrontOf(d: seq<Row>, n: nat, k: nat, page: seq<Row>)
    requires n + k <= |d| && page == d[n..][..k]
    ensures d[..n] + page == d[..n + k] && (k > 0 ==> page[k - 1] == d[n + k - 1])
  {
  }

  // ---- stored histograms ----------------------------------------------------------------

  /** The three histograms of a group, by series. */
  datatype Hists = Hists(tps: Bins, ttft: Bins, latency: Bins)

  const NO_HISTS := Hists(map[], map[], map[])

  function HistOfSeries(h: Hists, s: Series): Bins {
    match s
    case Tps => h.tps
    case Ttft => h.ttft
    case Latency => h.latency
  }

  /** The `p95_hist` column; a blank, garbled or partial one is blank for the missing series. */
  datatype StoredHists = StoredHists(tps: Stored, ttft: Stored, latency: Stored)

  function StoredSeries(h: StoredHists, s: Series): Stored {
    match s
    case Tps => h.tps
    case Ttft => h.ttft
    case Latency => h.latency
  }

  datatype RollupRow = RollupRow(totals: Totals, hists: StoredHists)

  type Rollups = map<GroupKey, RollupRow>

  function RolledTotal(rolled: Rollups, k: GroupKey, c: Column): real {
    if k in rolled then At(rolled[k].totals, c) else 0.0
  }

  /** The stored distribution of one series of one group. */
  function RolledHist(rolled: Rollups, k: GroupKey, s: Series): Bins {
    Decoded(StoredSeries(StoredAt(rolled, k), s))
  }

  method PayloadOf(series: Hists, existing: Hists, ghost rolled: Rollups, ghost k: GroupKey)
    returns (text: StoredHists)
    requires existing == DecodedHists(StoredAt(rolled, k))
    ensures MergesSeries(series, StoredAt(rolled, k), text)
  {
    text := EncodeHists(series, existing);
  }

  const NO_STORED := StoredHists(Blank, Blank, Blank)

  method DecodeHists(text: StoredHists) returns (h: Hists)
    ensures h == DecodedHists(text)
  {
    var tps := Decode(text.tps);
    var ttft := Decode(text.ttft);
    var latency := Decode(text.latency);
    h := Hists(tps, ttft, latency);
  }

  function DecodedHists(text: StoredHists): Hists {
    Hists(Decoded(text.tps), Decoded(text.ttft), Decoded(text.latency))
  }

  /** Merge what is stored with what was just collected, then encode the union. */
  method EncodeSeries(collected: Bins, existing: Bins) returns (text: Stored)
    ensures text == Encode(Merged([collected, existing]))
  {
    var merged := Merge([collected, existing]);
    text := Encode(merged);
  }

  method EncodeHists(series: Hists, existing: Hists) returns (text: StoredHists)
    ensures text.tps == Encode(Merged([series.tps, existing.tps]))
    ensures text.ttft == Encode(Merged([series.ttft, existing.ttft]))
    ensures text.latency == Encode(Merged([series.latency, existing.latency]))
  {
    var tps := EncodeSeries(series.tps, existing.tps);
    var ttft := EncodeSeries(series.ttft, existing.ttft);
    var latency := EncodeSeries(series.latency, existing.latency);
    text := StoredHists(tps, ttft, latency);
  }

  lemma DecodedIsValid(text: Stored)
    ensures ValidBins(Decoded(text))
  {
    if text.Doc? {
      DecodeIsTolerant(text.bins);
    }
  }

  method AddSamples(t: Table, into: Hists, r: Row) returns (h: Hists)
    requires ValidTable(t)
    ensures forall s :: HistOfSeries(h, s) == Added(t, HistOfSeries(into, s), Sample(r, s))
  {
    var tps := AddValue(t, into.tps, r.tps);
    var ttft := AddValue(t, into.ttft, r.ttftMs);
    var latency := AddValue(t, into.latency, r.latencyMs);
    h := Hists(tps, ttft, latency);
  }

  // ---- the sweep ------------------------------------------------------------------------

  type Groups = map<GroupKey, Totals>
  type Collected = map<GroupKey, Hists>

  function GroupTotal(groups: Groups, k: GroupKey, c: Column): real {
    if k in groups then At(groups[k], c) else 0.0
  }

  function GroupHist(hists: Collected, k: GroupKey, s: Series): Bins {
    if k in hists then HistOfSeries(hists[k], s) else map[]
  }

  /** The accumulators hold exactly `rows`. */
  ghost predicate Aggregated(t: Table, rows: seq<Row>, groups: Groups, hists: Collected)
    requires ValidTable(t)
  {
    && groups.Keys == hists.Keys
    && (forall k :: k in groups <==> Occurs(rows, k))
    && (forall k, c :: GroupTotal(groups, k, c) == RawTotal(rows, k, c))
    && (forall k, s :: GroupHist(hists, k, s) == HistOf(t, Samples(rows, k, s)))
  }

  lemma OccursSnoc(rows: seq<Row>, r: Row, k: GroupKey)
    ensures Occurs(rows + [r], k) <==> Occurs(rows, k) || KeyOf(r) == k
  {
    var all := rows + [r];
    if KeyOf(r) == k {
      assert KeyOf(all[|rows|]) == k;
    }
    if Occurs(rows, k) {
      var i :| 0 <= i < |rows| && KeyOf(rows[i]) == k;
      assert KeyOf(all[i]) == k;
    }
  }

  lemma SamplesSnoc(t: Table, rows: seq<Row>, r: Row, k: GroupKey, s: Series)
    requires ValidTable(t)
    ensures HistOf(t, Samples(rows + [r], k, s))
         == if KeyOf(r) == k then Added(t, HistOf(t, Samples(rows, k, s)), Sample(r, s))
            else HistOf(t, Samples(rows, k, s))
  {
    assert (rows + [r])[..|rows|] == rows;
    var before := Samples(rows, k, s);
    assert (before + [Sample(r, s)])[..|before|] == before;
  }

  method AddRow(t: Table, ghost rows: seq<Row>, r: Row, groups: Groups, hists: Collected)
    returns (groups': Groups, hists': Collected)
    requires ValidTable(t) && Aggregated(t, rows, groups, hists)
    ensures Aggregated(t, rows + [r], groups', hists')
  {
    var k := KeyOf(r);
    var acc, hs := ZERO, NO_HISTS;
    if k in groups {
      acc, hs := groups[k], hists[k];
    }
    var acc' := Accumulate(acc, r);
    var hs' := AddSamples(t, hs, r);
    groups', hists' := groups[k := acc'], hists[k := hs'];
    forall j, c ensures GroupTotal(groups', j, c) == RawTotal(rows + [r], j, c) {
      assert (rows + [r])[..|rows|] == rows;
      assert GroupTotal(groups, j, c) == RawTotal(rows, j, c);
    }
    forall j, s ensures GroupHist(hists', j, s) == HistOf(t, Samples(rows + [r], j, s)) {
      SamplesSnoc(t, rows, r, j, s);
      assert GroupHist(hists, j, s) == HistOf(t, Samples(rows, j, s));
    }
    forall j ensures j in groups' <==> Occurs(rows + [r], j) {
      OccursSnoc(rows, r, j);
    }
  }

  method AddPage(t: Table, ghost seen: seq<Row>, page: seq<Row>, groups: Groups, hists: Collected)
    returns (groups': Groups, hists': Collected)
    requires ValidTable(t) && Aggregated(t, seen, groups, hists)
    ensures Aggregated(t, seen + page, groups', hists')
  {
    groups', hists' := groups, hists;
    assert seen + page[..0] == seen;
    for i := 0 to |page|
      invariant Aggregated(t, seen + page[..i], groups', hists')
    {
      groups', hists' := AddRow(t, seen + page[..i], page[i], groups', hists');
      assert seen + page[..i] + [page[i]] == seen + page[..i + 1];
    }
    assert page[..|page|] == page;
  }

  /** What a sweep of `gone` must have done to the rollup table. */
  ghost predicate RolledInto(t: Table, before: Rollups, gone: seq<Row>, after: Rollups)
    requires ValidTable(t)
  {
    && (forall k :: k in after <==> k in before || Occurs(gone, k))
    && (forall k, c :: RolledTotal(after, k, c) == RolledTotal(before, k, c) + RawTotal(gone, k, c))
    && (forall k, s :: RolledHist(after, k, s)
          == Merged([HistOf(t, Samples(gone, k, s)), RolledHist(before, k, s)]))
  }

  class RequestLog {
    const table: Table
    var logs: seq<Row>
    var rollups: Rollups

    constructor (t: Table)
      ensures table == t && logs == [] && rollups == map[]
    {
      table, logs, rollups := t, [], map[];
    }

    /** Pages through the doomed rows and accumulates them group by group. */
    method Aggregate(cut: Cutoff) returns (groups: Groups, hists: Collected)
      requires ValidTable(table) && ById(logs)
      ensures Aggregated(table, DoomedRows(logs, cut), groups, hists)
    {
      ghost var doomed := DoomedRows(logs, cut);
      DoomedById(logs, cut);
      groups, hists := map[], map[];
      var last := -1;
      ghost var n := 0;
      assert doomed[..0] == [];
      while true
        invariant 0 <= n <= |doomed| && last == if n == 0 then -1 else doomed[n - 1].id
        invariant Aggregated(table, doomed[..n], groups, hists)
        decreases |doomed| - n
      {
        PageResumes(logs, cut, n, last, BATCH);
        var page := Page(logs, cut, last, BATCH);
        if page == [] {
          break;
        }
        last := page[|page| - 1].id;
        groups, hists := AddPage(table, doomed[..n], page, groups, hists);
        n := n + |page|;
      }
      assert doomed[..n] == doomed;
    }

    /** The stored histograms of the groups about to be written; groups without any are absent. */
    method ExistingHistograms(keys: set<GroupKey>) returns (existing: Collected)
      ensures forall k :: k in keys ==> GetHists(existing, k) == DecodedHists(StoredAt(rollups, k))
    {
      existing := map[];
      var todo := keys;
      while todo != {}
        invariant todo <= keys
        invariant forall k :: k in todo ==> k !in existing
        invariant forall k :: k in keys && k !in todo ==> GetHists(existing, k) == DecodedHists(StoredAt(rollups, k))
        decreases |todo|
      {
        HasMember(todo);
        var k :| k in todo;
        if k in rollups {
          var decoded := DecodeHists(rollups[k].hists);
          if decoded != NO_HISTS {
            existing := existing[k := decoded];
          }
        }
        todo := todo - {k};
      }
    }

    method Upsert(k: GroupKey, acc: Totals, text: StoredHists)
      modifies this`rollups
      ensures rollups == old(rollups)[k := RollupRow(Plus(TotalsAt(old(rollups), k), acc), text)]
    {
      if k in rollups {
        rollups := rollups[k := RollupRow(Plus(rollups[k].totals, acc), text)];
      } else {
        rollups := rollups[k := RollupRow(acc, text)];
      }
    }

    /** The histogram column of every group about to be written. */
    method BuildPayload(groups: Groups, hists: Collected, existing: Collected) returns (payload: Payload)
      requires groups.Keys == hists.Keys
      requires forall k :: k in groups ==> GetHists(existing, k) == DecodedHists(StoredAt(rollups, k))
      ensures payload.Keys == groups.Keys && PayloadFor(rollups, hists, payload)
    {
      payload := map[];
      var todo := groups.Keys;
      while todo != {}
        invariant todo <= groups.Keys && payload.Keys == groups.Keys - todo
        invariant PayloadFor(rollups, hists, payload)
        decreases |todo|
      {
        HasMember(todo);
        var k :| k in todo;
        var text := PayloadOf(hists[k], if k in existing then existing[k] else NO_HISTS, rollups, k);
        payload := payload[k := text];
        todo := todo - {k};
      }
    }

    /** Adds every collected group to the rollup table. */
    method WriteGroups(groups: Groups, payload: Payload)
      requires payload.Keys == groups.Keys
      modifies this`rollups
      ensures Written(old(rollups), groups, payload, groups.Keys, rollups)
    {
      ghost var before := rollups;
      ghost var done := {};
      var todo := groups.Keys;
      while todo != {}
        invariant todo <= groups.Keys && done == groups.Keys - todo
        invariant Written(before, groups, payload, done, rollups)
        decreases |todo|
      {
        HasMember(todo);
        var k :| k in todo;
        ghost var now := rollups;
        Upsert(k, groups[k], payload[k]);
        OneMoreWritten(before, groups, payload, done, k, now, rollups);
        todo, done := todo - {k}, done + {k};
      }
      assert done == groups.Keys;
    }

    method RollupAndPrune(cut: Cutoff) returns (deleted: nat)
      requires ValidTable(table) && ById(logs)
      modifies this
      ensures logs == KeptRows(old(logs), cut) && ById(logs)
      ensures RolledInto(table, old(rollups), DoomedRows(old(logs), cut), rollups)
      ensures deleted == |DoomedRows(old(logs), cut)|
      ensures cut.OlderThan? ==> logs == Younger(old(logs), cut.ts) && deleted == |old(logs)| - |logs|
    {
      if cut.OlderThan? {
        AgeSweepExactly(logs, cut.ts);
      }
      ghost var gone := DoomedRows(logs, cut);
      DoomedById(logs, cut);
      var groups, hists := Aggregate(cut);
      if groups == map[] {
        NothingDoomed(table, logs, cut, groups, hists, rollups);
        return 0;
      }
      var existing := ExistingHistograms(groups.Keys);
      var payload := BuildPayload(groups, hists, existing);
      ghost var before := rollups;
      WriteGroups(groups, payload);
      WrittenRollsUp(table, gone, before, groups, hists, payload, rollups);
      PartitionSizes(logs, cut);
      deleted := |logs|;
      logs := KeptRows(logs, cut);
      deleted := deleted - |logs|;
    }
  }

  function TotalsAt(rolled: Rollups, k: GroupKey): Totals {
    if k in rolled then rolled[k].totals else ZERO
  }

  function StoredAt(rolled: Rollups, k: GroupKey): StoredHists {
    if k in rolled then rolled[k].hists else NO_STORED
  }

  function GetHists(hists: Collected, k: GroupKey): Hists {
    if k in hists then hists[k] else NO_HISTS
  }

  /** Each stored series is the encoded merge of what was collected and what was stored. */
  ghost predicate MergesSeries(hs: Hists, before: StoredHists, after: StoredHists) {
    && after.tps == Encode(Merged([hs.tps, Decoded(before.tps)]))
    && after.ttft == Encode(Merged([hs.ttft, Decoded(before.ttft)]))
    && after.latency == Encode(Merged([hs.latency, Decoded(before.latency)]))
  }

  type Payload = map<GroupKey, StoredHists>

  ghost predicate PayloadFor(before: Rollups, hists: Collected, payload: Payload) {
    forall k :: k in payload ==> k in hists && MergesSeries(hists[k], StoredAt(before, k), payload[k])
  }

  /** The upsert loop after the groups in `done`. */
  ghost predicate Written(before: Rollups, groups: Groups, payload: Payload, done: set<GroupKey>, now: Rollups)
    requires groups.Keys == payload.Keys
  {
    && done <= groups.Keys
    && (forall k :: k in now <==> k in before || k in done)
    && (forall k :: k in done ==> now[k] == RollupRow(Plus(TotalsAt(before, k), groups[k]), payload[k]))
    && (forall k :: k in before && k !in done ==> now[k] == before[k])
  }

  lemma OneMoreWritten(before: Rollups, groups: Groups, payload: Payload, done: set<GroupKey>, k: GroupKey,
                       now: Rollups, after: Rollups)
    requires groups.Keys == payload.Keys && k in groups && k !in done
    requires Written(before, groups, payload, done, now)
    requires after == now[k := RollupRow(Plus(TotalsAt(now, k), groups[k]), payload[k])]
    ensures Written(before, groups, payload, done + {k}, after)
  {
    assert TotalsAt(now, k) == TotalsAt(before, k);
  }

  lemma SeriesMerged(hs: Hists, before: StoredHists, after: StoredHists, s: Series)
    requires MergesSeries(hs, before, after) && ValidBins(HistOfSeries(hs, s))
    ensures Decoded(StoredSeries(after, s)) == Merged([HistOfSeries(hs, s), Decoded(StoredSeries(before, s))])
  {
    var parts := [HistOfSeries(hs, s), Decoded(StoredSeries(before, s))];
    DecodedIsValid(StoredSeries(before, s));
    MergedIsValid(parts);
    RoundTrip(Merged(parts));
  }

  lemma GroupTotalRolledUp(t: Table, gone: seq<Row>, before: Rollups, groups: Groups, hists: Collected,
                           payload: Payload, after: Rollups, k: GroupKey, c: Column)
    requires ValidTable(t) && Aggregated(t, gone, groups, hists)
    requires payload.Keys == groups.Keys && Written(before, groups, payload, groups.Keys, after)
    ensures RolledTotal(after, k, c) == RolledTotal(before, k, c) + RawTotal(gone, k, c)
  {
    assert GroupTotal(groups, k, c) == RawTotal(gone, k, c);
    if k in groups {
      var sum := Plus(TotalsAt(before, k), groups[k]);
      assert after[k].totals == sum && At(sum, c) == At(TotalsAt(before, k), c) + At(groups[k], c);
    } else {
      assert TotalsAt(after, k) == TotalsAt(before, k);
    }
  }

  lemma GroupHistRolledUp(t: Table, samples: seq<real>, before: StoredHists, hs: Hists, after: StoredHists, s: Series)
    requires ValidTable(t) && HistOfSeries(hs, s) == HistOf(t, samples)
    requires MergesSeries(hs, before, after) || (hs == NO_HISTS && after == before)
    ensures Decoded(StoredSeries(after, s)) == Merged([HistOf(t, samples), Decoded(StoredSeries(before, s))])
  {
    DecodedIsValid(StoredSeries(before, s));
    HistCountsSamples(t, samples);
    if hs == NO_HISTS && after == before {
      MergedWithNothing(Decoded(StoredSeries(before, s)));
    } else {
      SeriesMerged(hs, before, after, s);
    }
  }

  lemma WrittenRollsUp(t: Table, gone: seq<Row>, before: Rollups, groups: Groups, hists: Collected,
                       payload: Payload, after: Rollups)
    requires ValidTable(t) && Aggregated(t, gone, groups, hists)
    requires payload.Keys == groups.Keys && PayloadFor(before, hists, payload)
    requires Written(before, groups, payload, groups.Keys, after)
    ensures RolledInto(t, before, gone, after)
  {
    forall k, s ensures RolledHist(after, k, s) == Merged([HistOf(t, Samples(gone, k, s)), RolledHist(before, k, s)]) {
      assert GroupHist(hists, k, s) == HistOf(t, Samples(gone, k, s));
      GroupHistRolledUp(t, Samples(gone, k, s), StoredAt(before, k), GetHists(hists, k), StoredAt(after, k), s);
    }
    forall k, c ensures RolledTotal(after, k, c) == RolledTotal(before, k, c) + RawTotal(gone, k, c) {
      GroupTotalRolledUp(t, gone, before, groups, hists, payload, after, k, c);
    }
  }

  lemma {:induction false} PartitionSizes(logs: seq<Row>, cut: Cutoff)
    ensures |logs| == |DoomedRows(logs, cut)| + |KeptRows(logs, cut)|
  {
    if logs != [] {
      PartitionSizes(logs[1..], cut);
    }
  }

  lemma {:induction false} AllKept(logs: seq<Row>, cut: Cutoff)
    requires DoomedRows(logs, cut) == []
    ensures KeptRows(logs, cut) == logs
  {
    if logs != [] {
      AllKept(logs[1..], cut);
    }
  }

  lemma NothingDoomed(t: Table, logs: seq<Row>, cut: Cutoff, groups: Groups, hists: Collected, rolled: Rollups)
    requires ValidTable(t) && Aggregated(t, DoomedRows(logs, cut), groups, hists) && groups == map[]
    ensures DoomedRows(logs, cut) == [] && KeptRows(logs, cut) == logs
    ensures RolledInto(t, rolled, [], rolled)
  {
    var gone := DoomedRows(logs, cut);
    if gone != [] {
      assert Occurs(gone, KeyOf(gone[0]));
    }
    AllKept(logs, cut);
    forall k, s ensures RolledHist(rolled, k, s) == Merged([HistOf(t, Samples([], k, s)), RolledHist(rolled, k, s)]) {
      DecodedIsValid(StoredSeries(StoredAt(rolled, k), s));
      MergedWithNothing(RolledHist(rolled, k, s));
    }
  }
}
