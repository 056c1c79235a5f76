/**
 The bins of the log-scale histogram (wiwi/logging_core/hist.py).

 The exponential table is any strictly increasing one whose steps have a bounded ratio;
 bin midpoints are geometric means, stated without a square root.
 */
module BinTable {
  import opened Prelude
  import opened OrderStatistics

  const MAX_BIN: nat := 160

  /** Bin edges `exp` and geometric midpoints `mid`. */
  datatype Table = Table(exp: seq<real>, mid: seq<real>)

  ghost predicate ValidTable(t: Table) {
    && |t.exp| == |t.mid| == MAX_BIN + 1 && t.exp[0] == 1.0
    && (forall i, j :: 0 <= i < j <= MAX_BIN ==> t.exp[i] < t.exp[j])
    && (forall i :: 2 <= i <= MAX_BIN ==> GeometricMean(t, i))
  }

  predicate GeometricMean(t: Table, i: int)
    requires 1 <= i < |t.exp| && i < |t.mid|
  {
    t.mid[i] > 0.0 && t.mid[i] * t.mid[i] == t.exp[i - 1] * t.exp[i]
  }

  /** `grow` takes every edge at least to the next one; `x => ratio * x` is the case in use. */
  ghost predicate OneBin(t: Table, grow: real -> real)
    requires ValidTable(t)
  {
    && Monotone(grow) && (forall x :: x >= 0.0 ==> x <= grow(x))
    && (forall i :: 1 <= i <= MAX_BIN ==> StepBounded(t, grow, i))
  }

  predicate StepBounded(t: Table, grow: real -> real, i: int)
    requires 1 <= i < |t.exp|
  {
    t.exp[i] <= grow(t.exp[i - 1])
  }

  // ---- bins -----------------------------------------------------------------------------

  /** The first bin from `i` on whose upper edge is above `v`. */
  function FirstAbove(t: Table, v: real, i: nat): (b: nat)
    requires ValidTable(t) && 1 <= i <= MAX_BIN
    ensures i <= b <= MAX_BIN
    ensures forall j :: i <= j < b ==> t.exp[j] <= v
    ensures v < t.exp[b] || b == MAX_BIN
    decreases t, MAX_BIN - i
  {
    if i == MAX_BIN || v < t.exp[i] then i else FirstAbove(t, v, i + 1)
  }

  /** Bin of a sample; 0 stands for "no sample". */
  function BinOf(t: Table, v: real): (b: nat)
    requires ValidTable(t)
    ensures b <= MAX_BIN && (b == 0 <==> v <= 0.0)
  {
    if v <= 0.0 then 0 else FirstAbove(t, v, 1)
  }

  method BinIndex(t: Table, value: real) returns (b: nat)
    requires ValidTable(t)
    ensures b == BinOf(t, value)
  {
    if value <= 0.0 {
      return 0;
    }
    if value >= t.exp[MAX_BIN] {
      return MAX_BIN;
    }
    var lo, hi := 1, MAX_BIN;
    while lo < hi
      invariant 1 <= lo <= hi <= MAX_BIN
      invariant forall j :: 1 <= j < lo ==> t.exp[j] <= value
      invariant value < t.exp[hi]
    {
      var mid := (lo + hi) / 2;
      if t.exp[mid] <= value {
        lo := mid + 1;
      } else {
        hi := mid;
      }
    }
    return MaxInt(1, if lo < MAX_BIN then lo else MAX_BIN);
  }

  function Edge(t: Table, index: int): real
    requires ValidTable(t)
  {
    if index <= 0 then 0.0
    else
      var i := if index < MAX_BIN then index else MAX_BIN;
      if i == 1 then t.exp[1] else t.mid[i]
  }

  /** A bin is reported as its geometric midpoint, the first as its upper edge, none as 0. */
  lemma EdgeExactly(t: Table, index: int)
    requires ValidTable(t)
    ensures index <= 0 ==> Edge(t, index) == 0.0
    ensures index == 1 ==> Edge(t, index) == t.exp[1]
    ensures 2 <= index <= 160 ==>
              Edge(t, index) > 0.0 && Edge(t, index) * Edge(t, index) == t.exp[index - 1] * t.exp[index]
    ensures index > 160 ==> Edge(t, index) == Edge(t, 160)
  {
    assert 2 <= index <= MAX_BIN ==> GeometricMean(t, index);
  }

  lemma PositiveFactor(x: real, y: real)
    requires x * y > 0.0 && y > 0.0
    ensures x > 0.0
  {
  }

  lemma MeanBetween(a: real, m: real, b: real)
    requires 0.0 < a < b && m > 0.0 && m * m == a * b
    ensures a < m < b
  {
    assert (m - a) * (m + a) == a * (b - a) > 0.0;
    PositiveFactor(m - a, m + a);
    assert (b - m) * (b + m) == b * (b - a) > 0.0;
    PositiveFactor(b - m, b + m);
  }

  lemma MidpointBetween(t: Table, i: nat)
    requires ValidTable(t) && 2 <= i <= MAX_BIN
    ensures 1.0 < t.exp[i - 1] < t.mid[i] < t.exp[i]
  {
    assert GeometricMean(t, i) && t.exp[0] < t.exp[i - 1];
    MeanBetween(t.exp[i - 1], t.mid[i], t.exp[i]);
  }

  lemma BinBrackets(t: Table, v: real)
    requires ValidTable(t) && t.exp[0] <= v < t.exp[MAX_BIN]
    ensures var i := BinOf(t, v);
            i >= 1 && 1.0 <= t.exp[i - 1] <= v < t.exp[i] && t.exp[i - 1] <= Edge(t, i) <= t.exp[i]
  {
    var i := BinOf(t, v);
    if i > 1 {
      MidpointBetween(t, i);
    } else {
      assert t.exp[0] < t.exp[1];
    }
  }

  lemma LastMidpoint(t: Table, grow: real -> real)
    requires ValidTable(t) && OneBin(t, grow)
    ensures t.exp[1] < t.mid[MAX_BIN] < t.exp[MAX_BIN] <= grow(t.mid[MAX_BIN])
    ensures t.exp[1] <= grow(t.exp[0])
  {
    MidpointBetween(t, MAX_BIN);
    assert StepBounded(t, grow, MAX_BIN) && StepBounded(t, grow, 1);
    assert grow(t.exp[MAX_BIN - 1]) <= grow(t.mid[MAX_BIN]);
  }

  /** Inside the table a bin's midpoint is within one step of every sample in the bin. */
  lemma InsideIsClose(t: Table, grow: real -> real, v: real)
    requires ValidTable(t) && OneBin(t, grow) && t.exp[0] <= v < t.exp[MAX_BIN]
    ensures Close(Edge(t, BinOf(t, v)), v, grow)
    ensures t.exp[1] <= grow(v) && v <= grow(t.mid[MAX_BIN])
  {
    LastMidpoint(t, grow);
    BinBrackets(t, v);
    var i := BinOf(t, v);
    var lower, e := t.exp[i - 1], Edge(t, i);
    assert StepBounded(t, grow, i);
    assert grow(lower) <= grow(v) && grow(lower) <= grow(e);
    assert grow(t.exp[0]) <= grow(v);
  }

  lemma BelowTable(t: Table, grow: real -> real, v: real)
    requires ValidTable(t) && OneBin(t, grow) && 0.0 < v < t.exp[0]
    ensures Edge(t, BinOf(t, v)) == t.exp[1]
    ensures v <= grow(t.exp[1]) && v <= grow(t.mid[MAX_BIN])
  {
    LastMidpoint(t, grow);
    assert t.exp[0] < t.exp[1];
    assert t.exp[1] <= grow(t.exp[1]) && t.mid[MAX_BIN] <= grow(t.mid[MAX_BIN]);
  }

  lemma AboveTable(t: Table, grow: real -> real, v: real)
    requires ValidTable(t) && OneBin(t, grow) && t.exp[MAX_BIN] <= v
    ensures Edge(t, BinOf(t, v)) == t.mid[MAX_BIN]
    ensures t.mid[MAX_BIN] <= grow(v) && t.exp[1] <= grow(v)
  {
    LastMidpoint(t, grow);
    FirstAboveTop(t, v, 1);
    assert v <= grow(v);
  }

  /**
   A sample is reported within one bin exactly when it is neither so small that the first
   edge is further away than that, nor so large that the last midpoint is; every sample
   between the table's ends qualifies.
   */
  lemma BinErrorExactly(t: Table, grow: real -> real, v: real)
    requires ValidTable(t) && OneBin(t, grow) && v > 0.0
    ensures Close(Edge(t, BinOf(t, v)), v, grow) <==> t.exp[1] <= grow(v) && v <= grow(t.mid[MAX_BIN])
    ensures t.exp[0] <= v < t.exp[MAX_BIN] ==> Close(Edge(t, BinOf(t, v)), v, grow)
  {
    if v < t.exp[0] {
      BelowTable(t, grow, v);
    } else if v < t.exp[MAX_BIN] {
      InsideIsClose(t, grow, v);
    } else {
      AboveTable(t, grow, v);
    }
  }

  lemma {:induction false} FirstAboveTop(t: Table, v: real, i: nat)
    requires ValidTable(t) && 1 <= i <= MAX_BIN && t.exp[MAX_BIN] <= v
    ensures FirstAbove(t, v, i) == MAX_BIN
    decreases MAX_BIN - i
  {
    if i < MAX_BIN {
      assert t.exp[i] < t.exp[MAX_BIN];
      FirstAboveTop(t, v, i + 1);
    }
  }

  lemma {:induction false} FirstAboveMonotone(t: Table, v: real, w: real, i: nat)
    requires ValidTable(t) && 1 <= i <= MAX_BIN && v <= w
    ensures FirstAbove(t, v, i) <= FirstAbove(t, w, i)
    decreases MAX_BIN - i
  {
    if i < MAX_BIN {
      FirstAboveMonotone(t, v, w, i + 1);
    }
  }

  lemma BinsAreMonotone(t: Table, v: real, w: real)
    requires ValidTable(t) && v <= w
    ensures BinOf(t, v) <= BinOf(t, w)
  {
    FirstAboveMonotone(t, v, w, 1);
  }
}
