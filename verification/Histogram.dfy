/**
 Log-scale histograms (wiwi/logging_core/hist.py): accumulation, merging, percentiles and
 the stored form. A histogram maps a bin index to the number of samples in that bin.
 */
module Histogram {
  import opened Prelude
  import opened OrderStatistics
  import opened BinTable

  const HIST_VERSION := 1

  type Bins = map<int, nat>

  /** What accumulation, merging and decoding produce: known bins, no empty ones. */
  ghost predicate ValidBins(h: Bins) {
    forall b :: b in h ==> 1 <= b <= MAX_BIN && h[b] > 0
  }

  function CountAt(h: Bins, b: int): nat {
    if b in h then h[b] else 0
  }

  lemma SameCountsSameBins(g: Bins, h: Bins)
    requires ValidBins(g) && ValidBins(h)
    requires forall b :: 1 <= b <= MAX_BIN ==> CountAt(g, b) == CountAt(h, b)
    ensures g == h
  {
    forall b ensures b in g <==> b in h {
      if b in g {
        assert CountAt(g, b) == CountAt(h, b);
      }
      if b in h {
        assert CountAt(g, b) == CountAt(h, b);
      }
    }
    forall b | b in g ensures g[b] == h[b] {
      assert CountAt(g, b) == CountAt(h, b);
    }
  }

  // ---- accumulation ---------------------------------------------------------------------

  function Added(t: Table, h: Bins, v: real): Bins
    requires ValidTable(t)
  {
    var b := BinOf(t, v);
    if b == 0 then h else h[b := CountAt(h, b) + 1]
  }

  /** The histogram of a list of samples, taken in order. */
  function HistOf(t: Table, vs: seq<real>): Bins
    requires ValidTable(t)
  {
    if vs == [] then map[] else Added(t, HistOf(t, vs[..|vs| - 1]), vs[|vs| - 1])
  }

  method AddValue(t: Table, hist: Bins, value: real) returns (h: Bins)
    requires ValidTable(t)
    ensures h == Added(t, hist, value)
  {
    h := hist;
    var idx := BinIndex(t, value);
    if idx != 0 {
      h := h[idx := CountAt(h, idx) + 1];
    }
  }

  /** How many of the samples fall in bin `b`. */
  function Occupancy(t: Table, vs: seq<real>, b: int): (n: nat)
    requires ValidTable(t)
  {
    if vs == [] then 0
    else Occupancy(t, vs[..|vs| - 1], b) + (if BinOf(t, vs[|vs| - 1]) == b then 1 else 0)
  }

  lemma {:induction false} HistCountsSamples(t: Table, vs: seq<real>)
    requires ValidTable(t)
    ensures ValidBins(HistOf(t, vs))
    ensures forall b :: 1 <= b <= MAX_BIN ==> CountAt(HistOf(t, vs), b) == Occupancy(t, vs, b)
  {
    if vs != [] {
      HistCountsSamples(t, vs[..|vs| - 1]);
    }
  }

  lemma {:induction false} OccupancyAdds(t: Table, a: seq<real>, c: seq<real>, b: int)
    requires ValidTable(t)
    ensures Occupancy(t, a + c, b) == Occupancy(t, a, b) + Occupancy(t, c, b)
  {
    if c == [] {
      assert a + c == a;
    } else {
      assert (a + c)[..|a + c| - 1] == a + c[..|c| - 1];
      OccupancyAdds(t, a, c[..|c| - 1], b);
    }
  }

  // ---- merging --------------------------------------------------------------------------

  function SumAt(hs: seq<Bins>, b: int): nat {
    if hs == [] then 0 else SumAt(hs[..|hs| - 1], b) + CountAt(hs[|hs| - 1], b)
  }

  /** `m` holds the bin-wise sum of `hs`, and no empty bin. */
  ghost predicate IsMerge(m: Bins, hs: seq<Bins>) {
    forall b {:trigger SumAt(hs, b)} :: CountAt(m, b) == SumAt(hs, b) && (b in m <==> SumAt(hs, b) > 0)
  }

  function MergedWith(m: Bins, h: Bins): Bins {
    map b | b in m.Keys + h.Keys && CountAt(m, b) + CountAt(h, b) > 0 :: CountAt(m, b) + CountAt(h, b)
  }

  function Merged(hs: seq<Bins>): Bins {
    if hs == [] then map[] else MergedWith(Merged(hs[..|hs| - 1]), hs[|hs| - 1])
  }

  lemma {:induction false} MergedSums(hs: seq<Bins>)
    ensures IsMerge(Merged(hs), hs)
  {
    if hs != [] {
      MergedSums(hs[..|hs| - 1]);
      forall b ensures CountAt(Merged(hs), b) == SumAt(hs, b) && (b in Merged(hs) <==> SumAt(hs, b) > 0) {
        assert CountAt(Merged(hs[..|hs| - 1]), b) == SumAt(hs[..|hs| - 1], b);
      }
    }
  }

  lemma {:induction false} MergedIsValid(hs: seq<Bins>)
    requires forall i :: 0 <= i < |hs| ==> ValidBins(hs[i])
    ensures ValidBins(Merged(hs))
  {
    if hs != [] {
      MergedIsValid(hs[..|hs| - 1]);
    }
  }

  /** Merging in an empty histogram changes nothing. */
  lemma MergedWithNothing(h: Bins)
    requires ValidBins(h)
    ensures Merged([map[], h]) == h
  {
    var none: Bins := map[];
    MergedSums([none, h]);
    MergedIsValid([none, h]);
    assert [none, h][..1] == [none] && [none][..0] == [];
    forall b | 1 <= b <= MAX_BIN ensures CountAt(Merged([none, h]), b) == CountAt(h, b) {
      assert CountAt(Merged([none, h]), b) == SumAt([none, h], b) && SumAt([none], b) == 0;
    }
    SameCountsSameBins(Merged([none, h]), h);
  }

  method MergeInto(before: Bins, h: Bins) returns (out: Bins)
    ensures forall b :: CountAt(out, b) == CountAt(before, b) + CountAt(h, b)
    ensures forall b :: b in out <==> b in before || CountAt(h, b) > 0
  {
    out := before;
    var todo := h.Keys;
    while todo != {}
      invariant todo <= h.Keys
      invariant forall b :: CountAt(out, b) == CountAt(before, b) + (if b in todo then 0 else CountAt(h, b))
      invariant forall b :: b in out <==> b in before || (b !in todo && CountAt(h, b) > 0)
      decreases |todo|
    {
      HasInt(todo);
      var idx :| idx in todo;
      if h[idx] != 0 {
        out := out[idx := CountAt(out, idx) + h[idx]];
      }
      todo := todo - {idx};
    }
  }

  method Merge(hists: seq<Bins>) returns (out: Bins)
    ensures out == Merged(hists)
  {
    out := map[];
    for i := 0 to |hists|
      invariant out == Merged(hists[..i])
    {
      MergedSums(hists[..i]);
      var next := MergeInto(out, hists[i]);
      MergeStep(out, hists[i], next, hists[..i]);
      out := next;
      assert hists[..i + 1][..i] == hists[..i] && hists[..i + 1][i] == hists[i];
    }
    assert hists[..|hists|] == hists;
  }

  lemma MergeStep(before: Bins, h: Bins, out: Bins, prior: seq<Bins>)
    requires IsMerge(before, prior)
    requires forall b :: CountAt(out, b) == CountAt(before, b) + CountAt(h, b)
    requires forall b :: b in out <==> b in before || CountAt(h, b) > 0
    ensures out == MergedWith(before, h)
  {
    forall b | b in before ensures before[b] > 0 {
      assert CountAt(before, b) == SumAt(prior, b);
    }
    forall b ensures b in out <==> b in MergedWith(before, h) {
      assert CountAt(out, b) == CountAt(before, b) + CountAt(h, b);
    }
    forall b | b in out ensures out[b] == MergedWith(before, h)[b] {
      assert CountAt(out, b) == CountAt(before, b) + CountAt(h, b);
    }
  }

  function Concat(parts: seq<seq<real>>): seq<real> {
    if parts == [] then [] else Concat(parts[..|parts| - 1]) + parts[|parts| - 1]
  }

  function HistsOf(t: Table, parts: seq<seq<real>>): (hs: seq<Bins>)
    requires ValidTable(t)
    ensures |hs| == |parts|
  {
    if parts == [] then [] else HistsOf(t, parts[..|parts| - 1]) + [HistOf(t, parts[|parts| - 1])]
  }

  lemma {:induction false} PartsOccupancy(t: Table, parts: seq<seq<real>>, b: int)
    requires ValidTable(t) && 1 <= b <= MAX_BIN
    ensures SumAt(HistsOf(t, parts), b) == Occupancy(t, Concat(parts), b)
  {
    if parts != [] {
      var n := |parts| - 1;
      PartsOccupancy(t, parts[..n], b);
      assert HistsOf(t, parts)[..n] == HistsOf(t, parts[..n]);
      HistCountsSamples(t, parts[n]);
      OccupancyAdds(t, Concat(parts[..n]), parts[n], b);
    }
  }

  lemma {:induction false} NoCountOutside(t: Table, parts: seq<seq<real>>, b: int)
    requires ValidTable(t) && !(1 <= b <= MAX_BIN)
    ensures SumAt(HistsOf(t, parts), b) == 0
  {
    if parts != [] {
      var n := |parts| - 1;
      NoCountOutside(t, parts[..n], b);
      assert HistsOf(t, parts)[..n] == HistsOf(t, parts[..n]);
      HistCountsSamples(t, parts[n]);
    }
  }

  /** Merging the histograms of any parts gives the histogram of all their samples. */
  lemma MergeOfParts(t: Table, parts: seq<seq<real>>)
    requires ValidTable(t)
    ensures Merged(HistsOf(t, parts)) == HistOf(t, Concat(parts))
  {
    var hs := HistsOf(t, parts);
    var m := Merged(hs);
    MergedSums(hs);
    HistCountsSamples(t, Concat(parts));
    forall b | 1 <= b <= MAX_BIN ensures CountAt(m, b) == CountAt(HistOf(t, Concat(parts)), b) {
      assert CountAt(m, b) == SumAt(hs, b);
      PartsOccupancy(t, parts, b);
    }
    forall b | b in m ensures 1 <= b <= MAX_BIN && m[b] > 0 {
      assert CountAt(m, b) == SumAt(hs, b) && SumAt(hs, b) > 0;
      if !(1 <= b <= MAX_BIN) {
        NoCountOutside(t, parts, b);
      }
    }
    SameCountsSameBins(m, HistOf(t, Concat(parts)));
  }

  lemma WithoutOne(s: seq<real>, k: nat)
    requires k < |s|
    ensures multiset(s[..k] + s[k + 1..]) == multiset(s) - multiset{s[k]}
  {
    assert s == s[..k] + [s[k]] + s[k + 1..];
  }

  lemma {:induction false} OccupancyByMultiset(t: Table, a: seq<real>, c: seq<real>, b: int)
    requires ValidTable(t) && multiset(a) == multiset(c)
    ensures Occupancy(t, a, b) == Occupancy(t, c, b)
  {
    if a == [] {
      assert |multiset(c)| == |c| && |multiset(a)| == 0;
    } else {
      var n := |a| - 1;
      assert a[n] in multiset(c);
      var k :| 0 <= k < |c| && c[k] == a[n];
      assert a == a[..n] + [a[n]];
      assert c == c[..k] + ([c[k]] + c[k + 1..]);
      WithoutOne(a, n);
      WithoutOne(c, k);
      assert a[..n] + a[n + 1..] == a[..n];
      OccupancyByMultiset(t, a[..n], c[..k] + c[k + 1..], b);
      OccupancyAdds(t, c[..k], [c[k]] + c[k + 1..], b);
      OccupancyAdds(t, [c[k]], c[k + 1..], b);
      OccupancyAdds(t, c[..k], c[k + 1..], b);
      assert [c[k]][..0] == [];
      assert Occupancy(t, [c[k]], b) == if BinOf(t, c[k]) == b then 1 else 0;
    }
  }

  /** ... and the order in which samples arrive never matters. */
  lemma OrderDoesNotMatter(t: Table, a: seq<real>, c: seq<real>)
    requires ValidTable(t) && multiset(a) == multiset(c)
    ensures HistOf(t, a) == HistOf(t, c)
  {
    HistCountsSamples(t, a);
    HistCountsSamples(t, c);
    forall b | 1 <= b <= MAX_BIN ensures CountAt(HistOf(t, a), b) == CountAt(HistOf(t, c), b) {
      OccupancyByMultiset(t, a, c, b);
    }
    SameCountsSameBins(HistOf(t, a), HistOf(t, c));
  }

  // ---- percentiles ----------------------------------------------------------------------

  function Ceil(x: real): int {
    -((-x).Floor)
  }

  /** The nearest rank of fraction `p` among `n` samples, clamped into 1..n. */
  function Target(n: nat, p: real): (r: nat)
    requires n > 0
    ensures 1 <= r <= n
  {
    if p <= 0.0 then 1 else
      var c := Ceil(n as real * p);
      MaxInt(1, if c < n then c else n)
  }

  /** Samples in bins 1..b. */
  function UpTo(h: Bins, b: int): (n: nat)
    decreases |h|, b
  {
    if b <= 0 then 0 else UpTo(h, b - 1) + CountAt(h, b)
  }

  lemma {:induction false} UpToGrows(h: Bins, b: int, c: int)
    requires b <= c
    ensures UpTo(h, b) <= UpTo(h, c)
    decreases c - b
  {
    if b < c {
      UpToGrows(h, b, c - 1);
    }
  }

  /** Which bin holds the sample of the given rank. */
  ghost predicate HoldsRank(h: Bins, b: int, rank: nat) {
    1 <= b <= MAX_BIN && UpTo(h, b - 1) < rank <= UpTo(h, b)
  }

  /** The first bin, from `b` on, by which `rank` samples have been seen. */
  function BinReaching(h: Bins, rank: nat, b: nat): (r: nat)
    requires 1 <= b <= MAX_BIN && UpTo(h, b - 1) < rank <= UpTo(h, MAX_BIN)
    ensures HoldsRank(h, r, rank)
    decreases rank, MAX_BIN - b
  {
    if rank <= UpTo(h, b) then b else BinReaching(h, rank, b + 1)
  }

  function PercentileOf(t: Table, h: Bins, p: real): real
    requires ValidTable(t)
  {
    var total := UpTo(h, MAX_BIN);
    if total == 0 then 0.0 else Edge(t, BinReaching(h, Target(total, p), 1))
  }

  lemma OneHolder(h: Bins, b: int, c: int, rank: nat)
    requires HoldsRank(h, b, rank) && HoldsRank(h, c, rank)
    ensures b == c
  {
    if b < c {
      UpToGrows(h, b, c - 1);
    } else if c < b {
      UpToGrows(h, c, b - 1);
    }
  }

  method Percentile(t: Table, hist: Bins, p: real) returns (r: real)
    requires ValidTable(t) && ValidBins(hist)
    ensures r == PercentileOf(t, hist, p)
  {
    var total := 0;
    for idx := 1 to MAX_BIN + 1
      invariant total == UpTo(hist, idx - 1)
    {
      if idx in hist {
        total := total + hist[idx];
      }
    }
    if total <= 0 {
      return 0.0;
    }
    var target := Target(total, p);
    var seen := 0;
    for idx := 1 to MAX_BIN + 1
      invariant seen == UpTo(hist, idx - 1) < target
    {
      if idx in hist {
        seen := seen + hist[idx];
        if seen >= target {
          OneHolder(hist, idx, BinReaching(hist, target, 1), target);
          return Edge(t, idx);
        }
      }
    }
    assert false;
  }

  function Positive(vs: seq<real>): (ps: seq<real>)
    ensures |ps| <= |vs|
  {
    if vs == [] then []
    else if vs[|vs| - 1] > 0.0 then Positive(vs[..|vs| - 1]) + [vs[|vs| - 1]]
    else Positive(vs[..|vs| - 1])
  }

  lemma {:induction false} PositiveIsPositive(vs: seq<real>)
    ensures forall i :: 0 <= i < |Positive(vs)| ==> Positive(vs)[i] > 0.0
  {
    if vs != [] {
      PositiveIsPositive(vs[..|vs| - 1]);
    }
  }

  lemma {:induction false} AllPositive(vs: seq<real>)
    requires forall i :: 0 <= i < |vs| ==> vs[i] > 0.0
    ensures Positive(vs) == vs
  {
    if vs != [] {
      AllPositive(vs[..|vs| - 1]);
      assert vs == vs[..|vs| - 1] + [vs[|vs| - 1]];
    }
  }

  lemma {:induction false} UpToAdded(t: Table, h: Bins, v: real, b: int)
    requires ValidTable(t)
    ensures UpTo(Added(t, h, v), b) == UpTo(h, b) + (if 1 <= BinOf(t, v) <= b then 1 else 0)
  {
    if b > 0 {
      UpToAdded(t, h, v, b - 1);
    }
  }

  lemma {:induction false} CountLtSnoc(s: seq<real>, v: real, x: real)
    ensures CountLt(s + [v], x) == CountLt(s, x) + (if v < x then 1 else 0)
  {
    if s == [] {
      assert s + [v] == [v] && [v][1..] == [];
    } else {
      assert (s + [v])[1..] == s[1..] + [v];
      CountLtSnoc(s[1..], v, x);
    }
  }

  lemma BinAtMost(t: Table, v: real, b: nat)
    requires ValidTable(t) && v > 0.0 && 1 <= b < MAX_BIN
    ensures BinOf(t, v) <= b <==> v < t.exp[b]
  {
    var i := FirstAbove(t, v, 1);
    if i <= b {
      assert t.exp[i] <= t.exp[b] by {
        if i < b {
          assert t.exp[i] < t.exp[b];
        }
      }
    }
  }

  /** Bins 1..b hold exactly the positive samples below edge b (all of them for the last bin). */
  lemma {:induction false} UpToCounts(t: Table, vs: seq<real>, b: nat)
    requires ValidTable(t) && b <= MAX_BIN
    ensures b == MAX_BIN ==> UpTo(HistOf(t, vs), b) == |Positive(vs)|
    ensures 1 <= b < MAX_BIN ==> UpTo(HistOf(t, vs), b) == CountLt(Positive(vs), t.exp[b])
  {
    if vs == [] {
      EmptyUpTo(b);
    } else {
      var n := |vs| - 1;
      UpToCounts(t, vs[..n], b);
      UpToAdded(t, HistOf(t, vs[..n]), vs[n], b);
      if vs[n] > 0.0 && 1 <= b < MAX_BIN {
        BinAtMost(t, vs[n], b);
        CountLtSnoc(Positive(vs[..n]), vs[n], t.exp[b]);
      }
    }
  }

  lemma {:induction false} EmptyUpTo(b: int)
    ensures UpTo(map[], b) == 0
  {
    if b > 0 {
      EmptyUpTo(b - 1);
    }
  }

  lemma RankCommutes(t: Table, vs: seq<real>, rank: nat)
    requires ValidTable(t) && 1 <= rank <= |Positive(vs)|
    ensures HoldsRank(HistOf(t, vs), BinOf(t, Sort(Positive(vs))[rank - 1]), rank)
  {
    var c := BinOf(t, Sort(Positive(vs))[rank - 1]);
    SortedPositive(vs, rank - 1);
    ReachedAt(t, vs, rank, c);
    if c > 1 {
      ReachedAt(t, vs, rank, c - 1);
    }
  }

  lemma SortedPositive(vs: seq<real>, r: nat)
    requires r < |Positive(vs)|
    ensures Sort(Positive(vs))[r] > 0.0
  {
    PositiveIsPositive(vs);
    var w := Positive(vs);
    Rank(w, r, 0.0);
    NoneAtMost(w, 0.0);
  }

  lemma {:induction false} NoneAtMost(s: seq<real>, x: real)
    requires forall i :: 0 <= i < |s| ==> s[i] > x
    ensures CountLe(s, x) == 0
  {
    if s != [] {
      NoneAtMost(s[1..], x);
    }
  }

  lemma ReachedAt(t: Table, vs: seq<real>, rank: nat, b: nat)
    requires ValidTable(t) && 1 <= rank <= |Positive(vs)| && 1 <= b <= MAX_BIN
    ensures rank <= UpTo(HistOf(t, vs), b) <==> BinOf(t, Sort(Positive(vs))[rank - 1]) <= b
  {
    var w := Positive(vs);
    UpToCounts(t, vs, b);
    if b < MAX_BIN {
      SortedPositive(vs, rank - 1);
      BinAtMost(t, Sort(w)[rank - 1], b);
      Rank(w, rank - 1, t.exp[b]);
    }
  }

  /**
   Binning commutes with rank: for every list of samples, the percentile of its histogram is
   the midpoint of the bin of the same nearest-rank percentile of its positive samples.
   */
  lemma PercentileCommutes(t: Table, vs: seq<real>, p: real)
    requires ValidTable(t)
    ensures PercentileOf(t, HistOf(t, vs), p)
         == if Positive(vs) == [] then 0.0
            else Edge(t, BinOf(t, Sort(Positive(vs))[Target(|Positive(vs)|, p) - 1]))
  {
    UpToCounts(t, vs, MAX_BIN);
    if Positive(vs) != [] {
      var h, target := HistOf(t, vs), Target(|Positive(vs)|, p);
      RankCommutes(t, vs, target);
      OneHolder(h, BinReaching(h, target, 1), BinOf(t, Sort(Positive(vs))[target - 1]), target);
    }
  }

  /** The nearest rank of a fraction: the least rank that is not below n * p. */
  lemma NearestRank(n: nat, p: real)
    requires n > 0 && 0.0 < p <= 1.0
    ensures (Target(n, p) - 1) as real < n as real * p <= Target(n, p) as real
  {
    assert 0.0 < n as real * p <= n as real;
  }

  /** Fewer than the fraction `p` of `n` are `below`, at least as many are in `upto`. */
  predicate Straddles(n: nat, p: real, below: nat, upto: nat) {
    below as real < n as real * p <= upto as real
  }

  lemma RankInBetween(n: nat, p: real, below: nat, upto: nat)
    requires n > 0 && 0.0 < p <= 1.0 && below < Target(n, p) <= upto
    ensures Straddles(n, p, below, upto)
  {
    NearestRank(n, p);
    var share, r := n as real * p, Target(n, p);
    assert below as real <= (r - 1) as real < share <= r as real <= upto as real;
  }

  /** The percentile is the midpoint of bin `b`: its samples include the one at the fraction `p`. */
  ghost predicate AtFraction(t: Table, h: Bins, p: real, b: int)
    requires ValidTable(t)
  {
    && 1 <= b <= MAX_BIN && CountAt(h, b) > 0 && PercentileOf(t, h, p) == Edge(t, b)
    && Straddles(UpTo(h, MAX_BIN), p, UpTo(h, b - 1), UpTo(h, b))
  }

  /**
   The percentile by counting: a bin that holds samples, up to and including which there are
   at least the fraction `p` of all, and below which there are fewer.
   */
  lemma PercentileExactly(t: Table, h: Bins, p: real) returns (b: int)
    requires ValidTable(t) && UpTo(h, MAX_BIN) > 0 && 0.0 < p <= 1.0
    ensures AtFraction(t, h, p, b)
  {
    var total := UpTo(h, MAX_BIN);
    b := BinReaching(h, Target(total, p), 1);
    assert HoldsRank(h, b, Target(total, p));
    RankInBetween(total, p, UpTo(h, b - 1), UpTo(h, b));
  }

  /** A fraction of 0 or less asks for the lowest bin that holds samples, one above 1 for the highest. */
  lemma PercentileBeyond(t: Table, h: Bins, p: real) returns (b: int)
    requires ValidTable(t) && UpTo(h, MAX_BIN) > 0 && (p <= 0.0 || p > 1.0)
    ensures 1 <= b <= MAX_BIN && CountAt(h, b) > 0 && PercentileOf(t, h, p) == Edge(t, b)
    ensures p <= 0.0 ==> UpTo(h, b - 1) == 0
    ensures p > 1.0 ==> UpTo(h, b) == UpTo(h, MAX_BIN)
  {
    var total := UpTo(h, MAX_BIN);
    b := BinReaching(h, Target(total, p), 1);
    assert HoldsRank(h, b, Target(total, p));
    UpToGrows(h, b, MAX_BIN);
    RankBeyond(total, p);
  }

  lemma RankBeyond(n: nat, p: real)
    requires n > 0
    ensures p <= 0.0 ==> Target(n, p) == 1
    ensures p > 1.0 ==> Target(n, p) == n
  {
    if p > 1.0 {
      assert n as real * p > n as real;
    }
  }

  // ---- percentiles over raw samples and a histogram --------------------------------------

  function Repeat(v: real, n: nat): (s: seq<real>)
    ensures |s| == n
  {
    if n == 0 then [] else Repeat(v, n - 1) + [v]
  }

  /** Each bin's midpoint, once per sample counted in it, for bins 1..b. */
  function Expand(t: Table, h: Bins, b: int): (s: seq<real>)
    requires ValidTable(t)
    ensures |s| == UpTo(h, b)
  {
    if b <= 0 then [] else Expand(t, h, b - 1) + Repeat(Edge(t, b), CountAt(h, b))
  }

  /** The exact nearest-rank p95 of a list; 0 of nothing. */
  function P95(vs: seq<real>): real {
    if vs == [] then 0.0 else Sort(vs)[Target(|vs|, 0.95) - 1]
  }

  method PercentileWithSamples(t: Table, samples: seq<real>, hist: Bins) returns (r: real)
    requires ValidTable(t) && ValidBins(hist)
    ensures r == P95(samples + Expand(t, hist, MAX_BIN))
  {
    var merged := samples;
    for idx := 1 to MAX_BIN + 1
      invariant merged == samples + Expand(t, hist, idx - 1)
    {
      if idx in hist {
        merged := merged + Repeat(Edge(t, idx), hist[idx]);
      } else {
        assert merged == samples + Expand(t, hist, idx);
      }
    }
    if merged == [] {
      return 0.0;
    }
    return Sort(merged)[Target(|merged|, 0.95) - 1];
  }

  lemma {:induction false} CountedIsIn(s: seq<real>, x: real)
    ensures CountLe(s, x) >= CountLt(s, x)
    ensures CountLe(s, x) > CountLt(s, x) ==> x in s
  {
    if s != [] {
      CountedIsIn(s[1..], x);
    }
  }

  /**
   The p95 by counting: one of the samples, with at least 95 % of them at or below it and
   fewer than 95 % below.
   */
  lemma P95Exactly(vs: seq<real>)
    requires vs != []
    ensures P95(vs) in vs
    ensures Straddles(|vs|, 0.95, CountLt(vs, P95(vs)), CountLe(vs, P95(vs)))
  {
    var r := Target(|vs|, 0.95) - 1;
    var x := P95(vs);
    Rank(vs, r, x);
    CountedIsIn(vs, x);
    RankInBetween(|vs|, 0.95, CountLt(vs, x), CountLe(vs, x));
  }

  /** The midpoints that stand in for a list of samples. */
  function Edges(t: Table, vs: seq<real>): (es: seq<real>)
    requires ValidTable(t)
    ensures |es| == |vs|
  {
    if vs == [] then [] else Edges(t, vs[..|vs| - 1]) + [Edge(t, BinOf(t, vs[|vs| - 1]))]
  }

  lemma {:induction false} EdgesAt(t: Table, vs: seq<real>, i: nat)
    requires ValidTable(t) && i < |vs|
    ensures Edges(t, vs)[i] == Edge(t, BinOf(t, vs[i]))
  {
    if i < |vs| - 1 {
      EdgesAt(t, vs[..|vs| - 1], i);
    }
  }

  lemma CountLeSnoc(s: seq<real>, v: real, x: real)
    ensures CountLe(s + [v], x) == CountLe(s, x) + (if v <= x then 1 else 0)
  {
    CountsAdd(s, [v], x);
    assert [v][1..] == [];
  }

  /** Samples in bins 1..b whose midpoint is at most `x`. */
  function Tally(t: Table, h: Bins, b: int, x: real): nat
    requires ValidTable(t)
  {
    if b <= 0 then 0 else Tally(t, h, b - 1, x) + (if Edge(t, b) <= x then CountAt(h, b) else 0)
  }

  lemma {:induction false} RepeatCounts(v: real, n: nat, x: real)
    ensures CountLe(Repeat(v, n), x) == if v <= x then n else 0
  {
    if n > 0 {
      RepeatCounts(v, n - 1, x);
      CountLeSnoc(Repeat(v, n - 1), v, x);
    }
  }

  lemma {:induction false} ExpandTally(t: Table, h: Bins, b: int, x: real)
    requires ValidTable(t)
    ensures CountLe(Expand(t, h, b), x) == Tally(t, h, b, x)
  {
    if b > 0 {
      ExpandTally(t, h, b - 1, x);
      RepeatCounts(Edge(t, b), CountAt(h, b), x);
      CountsAdd(Expand(t, h, b - 1), Repeat(Edge(t, b), CountAt(h, b)), x);
    }
  }

  lemma {:induction false} TallyAdded(t: Table, h: Bins, c: nat, b: int, x: real)
    requires ValidTable(t) && 1 <= c
    ensures Tally(t, h[c := CountAt(h, c) + 1], b, x)
         == Tally(t, h, b, x) + (if c <= b && Edge(t, c) <= x then 1 else 0)
  {
    if b > 0 {
      TallyAdded(t, h, c, b - 1, x);
    }
  }

  lemma {:induction false} TallyEmpty(t: Table, h: Bins, b: int, x: real)
    requires ValidTable(t) && h == map[]
    ensures Tally(t, h, b, x) == 0
  {
    if b > 0 {
      TallyEmpty(t, h, b - 1, x);
    }
  }

  lemma EdgesSnoc(t: Table, vs: seq<real>, v: real, x: real)
    requires ValidTable(t)
    ensures CountLe(Edges(t, vs + [v]), x)
         == CountLe(Edges(t, vs), x) + (if Edge(t, BinOf(t, v)) <= x then 1 else 0)
  {
    assert (vs + [v])[..|vs|] == vs;
    CountLeSnoc(Edges(t, vs), Edge(t, BinOf(t, v)), x);
  }

  lemma {:induction false} HistTally(t: Table, vs: seq<real>, b: nat, x: real)
    requires ValidTable(t) && b == MAX_BIN
    ensures Tally(t, HistOf(t, vs), b, x) == CountLe(Edges(t, Positive(vs)), x)
  {
    if vs == [] {
      TallyEmpty(t, HistOf(t, vs), b, x);
    } else {
      var before, v := vs[..|vs| - 1], vs[|vs| - 1];
      HistTally(t, before, b, x);
      if v > 0.0 {
        TallyAdded(t, HistOf(t, before), BinOf(t, v), b, x);
        EdgesSnoc(t, Positive(before), v, x);
      }
    }
  }

  /** Expanding a histogram gives the same multiset as replacing each sample by its midpoint. */
  lemma ExpandCounts(t: Table, vs: seq<real>, x: real)
    requires ValidTable(t)
    ensures |Expand(t, HistOf(t, vs), MAX_BIN)| == |Positive(vs)|
    ensures CountLe(Expand(t, HistOf(t, vs), MAX_BIN), x) == CountLe(Edges(t, Positive(vs)), x)
  {
    UpToCounts(t, vs, MAX_BIN);
    ExpandTally(t, HistOf(t, vs), MAX_BIN, x);
    HistTally(t, vs, MAX_BIN, x);
  }

  /**
   Any order statistic over raw samples plus the histogram of the others is within one bin of
   the same order statistic over all the samples, however they are split.
   */
  lemma MixedRankIsClose(t: Table, grow: real -> real, raw: seq<real>, rolled: seq<real>, r: nat)
    requires ValidTable(t) && OneBin(t, grow) && r < |raw| + |rolled|
    requires forall i :: 0 <= i < |raw| ==> raw[i] >= 0.0
    requires forall i :: 0 <= i < |rolled| ==> t.exp[0] <= rolled[i] < t.exp[MAX_BIN]
    ensures |Expand(t, HistOf(t, rolled), MAX_BIN)| == |rolled|
    ensures Close(Sort(raw + Expand(t, HistOf(t, rolled), MAX_BIN))[r], Sort(raw + rolled)[r], grow)
  {
    var e, m := Expand(t, HistOf(t, rolled), MAX_BIN), Edges(t, rolled);
    AllPositive(rolled);
    ExpandCounts(t, rolled, 0.0);
    forall x ensures CountLe(raw + e, x) == CountLe(raw + m, x) {
      ExpandCounts(t, rolled, x);
      CountsAdd(raw, e, x);
      CountsAdd(raw, m, x);
    }
    SameCountsSameRank(raw + e, raw + m, r);
    forall i | 0 <= i < |raw + m| ensures Close((raw + m)[i], (raw + rolled)[i], grow) {
      if i >= |raw| {
        EdgesAt(t, rolled, i - |raw|);
        BinErrorExactly(t, grow, rolled[i - |raw|]);
      }
    }
    RankIsStable(raw + m, raw + rolled, grow, r);
  }

  lemma MixedP95IsClose(t: Table, grow: real -> real, raw: seq<real>, rolled: seq<real>)
    requires ValidTable(t) && OneBin(t, grow)
    requires forall i :: 0 <= i < |raw| ==> raw[i] >= 0.0
    requires forall i :: 0 <= i < |rolled| ==> t.exp[0] <= rolled[i] < t.exp[MAX_BIN]
    ensures Close(P95(raw + Expand(t, HistOf(t, rolled), MAX_BIN)), P95(raw + rolled), grow)
  {
    AllPositive(rolled);
    ExpandCounts(t, rolled, 0.0);
    var shown, exact := raw + Expand(t, HistOf(t, rolled), MAX_BIN), raw + rolled;
    assert |shown| == |exact|;
    if |exact| == 0 {
      assert P95(shown) == 0.0 && P95(exact) == 0.0 <= grow(0.0);
    } else {
      MixedRankIsClose(t, grow, raw, rolled, Target(|exact|, 0.95) - 1);
    }
  }

  /**
   The p95 shown over raw samples and any number of rolled-up parts, against the exact p95 of
   everything that was ever sampled.
   */
  lemma ShownP95IsClose(t: Table, grow: real -> real, raw: seq<real>, parts: seq<seq<real>>)
    requires ValidTable(t) && OneBin(t, grow)
    requires forall i :: 0 <= i < |raw| ==> raw[i] >= 0.0
    requires forall i :: 0 <= i < |Concat(parts)| ==> t.exp[0] <= Concat(parts)[i] < t.exp[MAX_BIN]
    ensures Close(P95(raw + Expand(t, Merged(HistsOf(t, parts)), MAX_BIN)), P95(raw + Concat(parts)), grow)
  {
    MergeOfParts(t, parts);
    MixedP95IsClose(t, grow, raw, Concat(parts));
  }

  // ---- the stored form ------------------------------------------------------------------

  /** One entry of a stored `"b"` object; `None` where the text is not a number. */
  datatype RawBin = RawBin(key: Option<int>, count: Option<int>)

  /** A stored value after JSON parsing; `Garbled` covers every shape that is not the document. */
  datatype Stored = Blank | Garbled | Doc(version: int, bins: seq<RawBin>)

  function BinList(h: Bins, b: int): seq<RawBin>
    decreases |h|, b
  {
    if b <= 0 then []
    else if b in h then BinList(h, b - 1) + [RawBin(Some(b), Some(h[b]))]
    else BinList(h, b - 1)
  }

  function Encode(h: Bins): Stored {
    if h == map[] then Blank else Doc(HIST_VERSION, BinList(h, MAX_BIN))
  }

  predicate Usable(raw: RawBin) {
    raw.key.Some? && raw.count.Some? && 0 < raw.key.value <= MAX_BIN && raw.count.value > 0
  }

  /** What a decoder may read for bin `b`: the sum of the usable entries that name it. */
  function StoredCount(bins: seq<RawBin>, b: int): nat {
    if bins == [] then 0
    else
      var last := bins[|bins| - 1];
      StoredCount(bins[..|bins| - 1], b) + (if Usable(last) && last.key.value == b then last.count.value else 0)
  }

  function DecodedBins(bins: seq<RawBin>): Bins {
    if bins == [] then map[]
    else
      var before, last := DecodedBins(bins[..|bins| - 1]), bins[|bins| - 1];
      if Usable(last) then before[last.key.value := CountAt(before, last.key.value) + last.count.value]
      else before
  }

  function Decoded(text: Stored): Bins {
    if text.Doc? && text.version == HIST_VERSION then DecodedBins(text.bins) else map[]
  }

  method Decode(text: Stored) returns (out: Bins)
    ensures out == Decoded(text)
  {
    out := map[];
    if !text.Doc? || text.version != HIST_VERSION {
      return;
    }
    for i := 0 to |text.bins|
      invariant out == DecodedBins(text.bins[..i])
    {
      var raw := text.bins[i];
      assert text.bins[..i + 1][..i] == text.bins[..i];
      if raw.key.Some? && raw.count.Some? {
        var idx, cnt := raw.key.value, raw.count.value;
        if 0 < idx <= MAX_BIN && cnt > 0 {
          out := out[idx := CountAt(out, idx) + cnt];
        }
      }
    }
    assert text.bins[..|text.bins|] == text.bins;
  }

  /** Whatever text is stored, decoding yields known, non-empty bins and every usable count. */
  lemma {:induction false} DecodeIsTolerant(bins: seq<RawBin>)
    ensures ValidBins(DecodedBins(bins))
    ensures forall b :: CountAt(DecodedBins(bins), b) == StoredCount(bins, b)
  {
    if bins != [] {
      DecodeIsTolerant(bins[..|bins| - 1]);
    }
  }

  lemma {:induction false} BinListCounts(h: Bins, limit: int, b: int)
    requires ValidBins(h) && limit <= MAX_BIN
    ensures StoredCount(BinList(h, limit), b) == if 1 <= b <= limit then CountAt(h, b) else 0
  {
    if limit > 0 {
      BinListCounts(h, limit - 1, b);
      if limit in h {
        var s, x := BinList(h, limit - 1), RawBin(Some(limit), Some(h[limit]));
        assert (s + [x])[..|s|] == s;
      }
    }
  }

  /** Decoding what was encoded gives the histogram back, whatever it holds. */
  lemma RoundTrip(h: Bins)
    requires ValidBins(h)
    ensures Decoded(Encode(h)) == h
  {
    if h != map[] {
      var bins := BinList(h, MAX_BIN);
      DecodeIsTolerant(bins);
      forall b | 1 <= b <= MAX_BIN ensures CountAt(DecodedBins(bins), b) == CountAt(h, b) {
        BinListCounts(h, MAX_BIN, b);
      }
      SameCountsSameBins(DecodedBins(bins), h);
    }
  }
}
