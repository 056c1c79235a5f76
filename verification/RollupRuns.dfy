/**
 What any run of inserts and sweeps keeps (wiwi/logging_core/db_sink.py): every additive
 column of every group, and every group's distribution up to one bin.
 */
module RollupRuns {
  import opened BinTable
  import opened Histogram
  import opened OrderStatistics
  import opened Rollup

  // ---- splitting rows -------------------------------------------------------------------

  lemma {:induction false} TotalsAppend(a: seq<Row>, b: seq<Row>, k: GroupKey, c: Column)
    ensures RawTotal(a + b, k, c) == RawTotal(a, k, c) + RawTotal(b, k, c)
  {
    if b == [] {
      assert a + b == a;
    } else {
      var n := |b| - 1;
      assert (a + b)[..|a + b| - 1] == a + b[..n];
      TotalsAppend(a, b[..n], k, c);
    }
  }

  lemma {:induction false} TotalsPartition(logs: seq<Row>, cut: Cutoff, k: GroupKey, c: Column)
    ensures RawTotal(logs, k, c) == RawTotal(DoomedRows(logs, cut), k, c) + RawTotal(KeptRows(logs, cut), k, c)
  {
    if logs != [] {
      var r, rest := logs[0], logs[1..];
      TotalsPartition(rest, cut, k, c);
      assert logs == [r] + rest;
      TotalsAppend([r], rest, k, c);
      TotalsAppend([r], DoomedRows(rest, cut), k, c);
      TotalsAppend([r], KeptRows(rest, cut), k, c);
    }
  }

  /** A sweep moves totals from raw rows to rollup rows and loses or invents nothing. */
  lemma SweepConserves(t: Table, logs: seq<Row>, cut: Cutoff, before: Rollups, after: Rollups, k: GroupKey, c: Column)
    requires ValidTable(t) && RolledInto(t, before, DoomedRows(logs, cut), after)
    ensures RawTotal(KeptRows(logs, cut), k, c) + RolledTotal(after, k, c)
         == RawTotal(logs, k, c) + RolledTotal(before, k, c)
  {
    TotalsPartition(logs, cut, k, c);
    assert RolledTotal(after, k, c) == RolledTotal(before, k, c) + RawTotal(DoomedRows(logs, cut), k, c);
  }

  /** The positive samples of a group: what every percentile reader looks at. */
  function Timed(rows: seq<Row>, k: GroupKey, s: Series): seq<real> {
    Positive(Samples(rows, k, s))
  }

  lemma {:induction false} PositiveAppend(a: seq<real>, b: seq<real>)
    ensures Positive(a + b) == Positive(a) + Positive(b)
  {
    if b == [] {
      assert a + b == a;
    } else {
      var n := |b| - 1;
      assert (a + b)[..|a + b| - 1] == a + b[..n];
      PositiveAppend(a, b[..n]);
    }
  }

  lemma {:induction false} SamplesAppend(a: seq<Row>, b: seq<Row>, k: GroupKey, s: Series)
    ensures Samples(a + b, k, s) == Samples(a, k, s) + Samples(b, k, s)
  {
    if b == [] {
      assert a + b == a;
    } else {
      var n := |b| - 1;
      assert (a + b)[..|a + b| - 1] == a + b[..n];
      SamplesAppend(a, b[..n], k, s);
    }
  }

  lemma TimedAppend(a: seq<Row>, b: seq<Row>, k: GroupKey, s: Series)
    ensures Timed(a + b, k, s) == Timed(a, k, s) + Timed(b, k, s)
  {
    SamplesAppend(a, b, k, s);
    PositiveAppend(Samples(a, k, s), Samples(b, k, s));
  }

  /** `whole` has the samples of `a` and `b` together, in some order. */
  ghost predicate Splits(whole: seq<real>, a: seq<real>, b: seq<real>) {
    |whole| == |a| + |b| && (forall x :: CountLe(whole, x) == CountLe(a, x) + CountLe(b, x))
  }

  lemma SplitsMore(whole: seq<real>, a: seq<real>, b: seq<real>, v: seq<real>)
    requires Splits(whole, a, b)
    ensures Splits(v + whole, v + a, b) && Splits(v + whole, a, v + b) && Splits(whole + v, a + v, b)
  {
    forall x ensures CountLe(v + whole, x) == CountLe(v, x) + CountLe(whole, x)
                  && CountLe(v + a, x) == CountLe(v, x) + CountLe(a, x)
                  && CountLe(v + b, x) == CountLe(v, x) + CountLe(b, x)
                  && CountLe(whole + v, x) == CountLe(whole, x) + CountLe(v, x)
                  && CountLe(a + v, x) == CountLe(a, x) + CountLe(v, x) {
      CountsAdd(v, whole, x);
      CountsAdd(v, a, x);
      CountsAdd(v, b, x);
      CountsAdd(whole, v, x);
      CountsAdd(a, v, x);
    }
  }

  lemma {:induction false} TimedPartition(logs: seq<Row>, cut: Cutoff, k: GroupKey, s: Series)
    ensures Splits(Timed(logs, k, s), Timed(KeptRows(logs, cut), k, s), Timed(DoomedRows(logs, cut), k, s))
  {
    if logs != [] {
      var r, rest := logs[0], logs[1..];
      var kept, doomed := KeptRows(rest, cut), DoomedRows(rest, cut);
      TimedPartition(rest, cut, k, s);
      assert logs == [r] + rest;
      TimedAppend([r], rest, k, s);
      TimedAppend([r], kept, k, s);
      TimedAppend([r], doomed, k, s);
      SplitsMore(Timed(rest, k, s), Timed(kept, k, s), Timed(doomed, k, s), Timed([r], k, s));
    }
  }

  // ---- runs -----------------------------------------------------------------------------

  /** The two tables, with all rows ever inserted and all rows deleted so far. */
  datatype World = World(logs: seq<Row>, rollups: Rollups, ever: seq<Row>, gone: seq<Row>)

  datatype Event = Insert(row: Row) | Sweep(cut: Cutoff)

  ghost predicate Next(t: Table, w: World, e: Event, w': World)
    requires ValidTable(t)
  {
    match e
    case Insert(row) =>
      && row.id >= 0 && (forall i :: 0 <= i < |w.logs| ==> w.logs[i].id < row.id)
      && w' == World(w.logs + [row], w.rollups, w.ever + [row], w.gone)
    case Sweep(cut) =>
      && w'.logs == KeptRows(w.logs, cut) && w'.ever == w.ever && w'.gone == w.gone + DoomedRows(w.logs, cut)
      && RolledInto(t, w.rollups, DoomedRows(w.logs, cut), w'.rollups)
  }

  ghost predicate TotalsKept(w: World) {
    forall k, c :: RawTotal(w.logs, k, c) + RolledTotal(w.rollups, k, c) == RawTotal(w.ever, k, c)
  }

  ghost predicate HistsKept(t: Table, w: World)
    requires ValidTable(t)
  {
    forall k, s :: RolledHist(w.rollups, k, s) == HistOf(t, Samples(w.gone, k, s))
  }

  ghost predicate SamplesKept(w: World) {
    forall k, s :: Splits(Timed(w.ever, k, s), Timed(w.logs, k, s), Timed(w.gone, k, s))
  }

  ghost predicate Inv(t: Table, w: World)
    requires ValidTable(t)
  {
    ById(w.logs) && TotalsKept(w) && HistsKept(t, w) && SamplesKept(w)
  }

  lemma KeepsTotals(t: Table, w: World, e: Event, w': World)
    requires ValidTable(t) && TotalsKept(w) && Next(t, w, e, w')
    ensures TotalsKept(w')
  {
    forall k, c ensures RawTotal(w'.logs, k, c) + RolledTotal(w'.rollups, k, c) == RawTotal(w'.ever, k, c) {
      assert RawTotal(w.logs, k, c) + RolledTotal(w.rollups, k, c) == RawTotal(w.ever, k, c);
      match e
      case Insert(row) =>
        TotalsAppend(w.logs, [row], k, c);
        TotalsAppend(w.ever, [row], k, c);
      case Sweep(cut) =>
        SweepConserves(t, w.logs, cut, w.rollups, w'.rollups, k, c);
    }
  }

  lemma TwoParts(t: Table, a: seq<real>, b: seq<real>)
    requires ValidTable(t)
    ensures HistsOf(t, [a, b]) == [HistOf(t, a), HistOf(t, b)] && Concat([a, b]) == a + b
  {
    var one, both := [a], [a, b];
    assert one[..0] == [] && both[..1] == one;
    assert HistsOf(t, one) == [HistOf(t, a)] && Concat(one) == a;
  }

  /** Merging a new sweep's histogram into the stored one gives the histogram of both. */
  lemma HistGrows(t: Table, added: seq<real>, stored: seq<real>)
    requires ValidTable(t)
    ensures Merged([HistOf(t, added), HistOf(t, stored)]) == HistOf(t, stored + added)
  {
    MergeOfParts(t, [added, stored]);
    TwoParts(t, added, stored);
    OrderDoesNotMatter(t, added + stored, stored + added);
  }

  lemma KeepsHists(t: Table, w: World, e: Event, w': World)
    requires ValidTable(t) && HistsKept(t, w) && Next(t, w, e, w')
    ensures HistsKept(t, w')
  {
    forall k, s ensures RolledHist(w'.rollups, k, s) == HistOf(t, Samples(w'.gone, k, s)) {
      assert RolledHist(w.rollups, k, s) == HistOf(t, Samples(w.gone, k, s));
      match e
      case Insert(row) =>
      case Sweep(cut) =>
        var doomed := DoomedRows(w.logs, cut);
        assert RolledHist(w'.rollups, k, s) == Merged([HistOf(t, Samples(doomed, k, s)), RolledHist(w.rollups, k, s)]);
        HistGrows(t, Samples(doomed, k, s), Samples(w.gone, k, s));
        SamplesAppend(w.gone, doomed, k, s);
    }
  }

  lemma SplitsMoved(whole: seq<real>, a: seq<real>, b: seq<real>, kept: seq<real>, moved: seq<real>)
    requires Splits(whole, a, b) && Splits(a, kept, moved)
    ensures Splits(whole, kept, b + moved)
  {
    forall x ensures CountLe(whole, x) == CountLe(kept, x) + CountLe(b + moved, x) {
      CountsAdd(b, moved, x);
    }
  }

  lemma KeepsSamples(t: Table, w: World, e: Event, w': World)
    requires ValidTable(t) && SamplesKept(w) && Next(t, w, e, w')
    ensures SamplesKept(w')
  {
    forall k, s ensures Splits(Timed(w'.ever, k, s), Timed(w'.logs, k, s), Timed(w'.gone, k, s)) {
      assert Splits(Timed(w.ever, k, s), Timed(w.logs, k, s), Timed(w.gone, k, s));
      match e
      case Insert(row) =>
        TimedAppend(w.ever, [row], k, s);
        TimedAppend(w.logs, [row], k, s);
        SplitsMore(Timed(w.ever, k, s), Timed(w.logs, k, s), Timed(w.gone, k, s), Timed([row], k, s));
      case Sweep(cut) =>
        var doomed := DoomedRows(w.logs, cut);
        TimedPartition(w.logs, cut, k, s);
        TimedAppend(w.gone, doomed, k, s);
        SplitsMoved(Timed(w.ever, k, s), Timed(w.logs, k, s), Timed(w.gone, k, s),
          Timed(w'.logs, k, s), Timed(doomed, k, s));
    }
  }

  ghost predicate Steps(t: Table, ws: seq<World>, es: seq<Event>)
    requires ValidTable(t)
  {
    |ws| == |es| + 1 && (forall i :: 0 <= i < |es| ==> StepAt(t, ws, es, i))
  }

  ghost predicate StepAt(t: Table, ws: seq<World>, es: seq<Event>, i: nat)
    requires ValidTable(t) && |ws| == |es| + 1 && i < |es|
  {
    Next(t, ws[i], es[i], ws[i + 1])
  }

  const EMPTY := World([], map[], [], [])

  /** Every state of every run from empty tables keeps all totals and all distributions. */
  lemma {:induction false} RollupConservation(t: Table, ws: seq<World>, es: seq<Event>, n: nat)
    requires ValidTable(t) && Steps(t, ws, es) && ws[0] == EMPTY && n <= |es|
    ensures Inv(t, ws[n])
  {
    if n == 0 {
      var none: seq<real> := [];
      forall k, s ensures Splits(Timed([], k, s), Timed([], k, s), Timed([], k, s)) {
        assert Timed([], k, s) == none;
      }
    } else {
      RollupConservation(t, ws, es, n - 1);
      var w, e, w' := ws[n - 1], es[n - 1], ws[n];
      assert StepAt(t, ws, es, n - 1);
      KeepsTotals(t, w, e, w');
      KeepsHists(t, w, e, w');
      KeepsSamples(t, w, e, w');
      if e.Sweep? {
        DoomedById(w.logs, e.cut);
      }
    }
  }

  /**
   At every step of every run, a sweep by age leaves exactly the rows at least as young as its
   cutoff, in order, and what it removes was older.
   */
  lemma AgeSweepsAreExact(t: Table, ws: seq<World>, es: seq<Event>, n: nat, ts: real)
    requires ValidTable(t) && Steps(t, ws, es) && n < |es| && es[n] == Sweep(OlderThan(ts))
    ensures ws[n + 1].logs == Younger(ws[n].logs, ts)
    ensures forall r :: r in ws[n + 1].gone <==> r in ws[n].gone || (r in ws[n].logs && r.ts < ts)
  {
    assert StepAt(t, ws, es, n);
    AgeSweepExactly(ws[n].logs, ts);
    DoomedAreIn(ws[n].logs, OlderThan(ts));
  }

  lemma {:induction false} HistOfPositive(t: Table, vs: seq<real>)
    requires ValidTable(t)
    ensures HistOf(t, Positive(vs)) == HistOf(t, vs)
  {
    if vs != [] {
      var n := |vs| - 1;
      HistOfPositive(t, vs[..n]);
      if vs[n] > 0.0 {
        assert Positive(vs)[..|Positive(vs)| - 1] == Positive(vs[..n]);
      }
    }
  }

  /** The positive samples of several groups, group by group. */
  function TimedParts(rows: seq<Row>, ks: seq<GroupKey>, s: Series): (parts: seq<seq<real>>)
    ensures |parts| == |ks|
  {
    if ks == [] then [] else TimedParts(rows, ks[..|ks| - 1], s) + [Timed(rows, ks[|ks| - 1], s)]
  }

  function RolledHists(rollups: Rollups, ks: seq<GroupKey>, s: Series): (hs: seq<Bins>)
    ensures |hs| == |ks|
  {
    if ks == [] then [] else RolledHists(rollups, ks[..|ks| - 1], s) + [RolledHist(rollups, ks[|ks| - 1], s)]
  }

  lemma {:induction false} RolledHistsAreKept(t: Table, w: World, ks: seq<GroupKey>, s: Series)
    requires ValidTable(t) && HistsKept(t, w)
    ensures RolledHists(w.rollups, ks, s) == HistsOf(t, TimedParts(w.gone, ks, s))
  {
    if ks != [] {
      var n := |ks| - 1;
      RolledHistsAreKept(t, w, ks[..n], s);
      HistOfPositive(t, Samples(w.gone, ks[n], s));
      var parts := TimedParts(w.gone, ks, s);
      assert parts[..|parts| - 1] == TimedParts(w.gone, ks[..n], s);
    }
  }

  lemma SplitsBoth(whole: seq<real>, a: seq<real>, b: seq<real>, whole': seq<real>, a': seq<real>, b': seq<real>)
    requires Splits(whole, a, b) && Splits(whole', a', b')
    ensures Splits(whole + whole', a + a', b + b')
  {
    forall x ensures CountLe(whole + whole', x) == CountLe(a + a', x) + CountLe(b + b', x) {
      CountsAdd(whole, whole', x);
      CountsAdd(a, a', x);
      CountsAdd(b, b', x);
    }
  }

  lemma {:induction false} PartsSplit(w: World, ks: seq<GroupKey>, s: Series)
    requires SamplesKept(w)
    ensures Splits(Concat(TimedParts(w.ever, ks, s)), Concat(TimedParts(w.logs, ks, s)),
                   Concat(TimedParts(w.gone, ks, s)))
  {
    if ks == [] {
      assert Concat([]) == [];
    } else {
      var n := |ks| - 1;
      var init, k := ks[..n], ks[n];
      PartsSplit(w, init, s);
      assert Splits(Timed(w.ever, k, s), Timed(w.logs, k, s), Timed(w.gone, k, s));
      ConcatSnoc(TimedParts(w.ever, init, s), Timed(w.ever, k, s));
      ConcatSnoc(TimedParts(w.logs, init, s), Timed(w.logs, k, s));
      ConcatSnoc(TimedParts(w.gone, init, s), Timed(w.gone, k, s));
      SplitsBoth(Concat(TimedParts(w.ever, init, s)), Concat(TimedParts(w.logs, init, s)),
                 Concat(TimedParts(w.gone, init, s)), Timed(w.ever, k, s), Timed(w.logs, k, s), Timed(w.gone, k, s));
    }
  }

  lemma ConcatSnoc(parts: seq<seq<real>>, last: seq<real>)
    ensures Concat(parts + [last]) == Concat(parts) + last
  {
    assert (parts + [last])[..|parts|] == parts;
  }

  lemma {:induction false} PartsAreTimed(rows: seq<Row>, ks: seq<GroupKey>, s: Series)
    ensures forall x :: x in Concat(TimedParts(rows, ks, s)) ==> x >= 0.0
  {
    if ks != [] {
      var n := |ks| - 1;
      PartsAreTimed(rows, ks[..n], s);
      ConcatSnoc(TimedParts(rows, ks[..n], s), Timed(rows, ks[n], s));
      PositiveIsPositive(Samples(rows, ks[n], s));
    }
  }

  /**
   In every state of every run and for any choice of groups and hours, the p95 read from the
   remaining raw rows and the merge of the stored histograms is within one bin of the p95 of
   every sample ever recorded for them.
   */
  lemma DashboardP95(t: Table, grow: real -> real, w: World, ks: seq<GroupKey>, s: Series)
    requires ValidTable(t) && OneBin(t, grow) && Inv(t, w)
    requires forall x :: x in Concat(TimedParts(w.gone, ks, s)) ==> t.exp[0] <= x < t.exp[MAX_BIN]
    ensures Close(P95(Concat(TimedParts(w.logs, ks, s)) + Expand(t, Merged(RolledHists(w.rollups, ks, s)), MAX_BIN)),
                  P95(Concat(TimedParts(w.ever, ks, s))), grow)
  {
    var raw, parts := Concat(TimedParts(w.logs, ks, s)), TimedParts(w.gone, ks, s);
    RolledHistsAreKept(t, w, ks, s);
    PartsAreTimed(w.logs, ks, s);
    var rolled := Concat(parts);
    assert forall i :: 0 <= i < |raw| ==> raw[i] in raw;
    assert forall i :: 0 <= i < |rolled| ==> rolled[i] in rolled;
    ShownP95IsClose(t, grow, raw, parts);
    PartsSplit(w, ks, s);
    SameP95(raw + rolled, Concat(TimedParts(w.ever, ks, s)), raw, rolled);
  }

  lemma SameP95(a: seq<real>, whole: seq<real>, raw: seq<real>, rolled: seq<real>)
    requires a == raw + rolled && Splits(whole, raw, rolled)
    ensures P95(a) == P95(whole)
  {
    forall x ensures CountLe(a, x) == CountLe(whole, x) {
      CountsAdd(raw, rolled, x);
    }
    if |whole| > 0 {
      SameCountsSameRank(a, whole, Target(|whole|, 0.95) - 1);
    }
  }
}
