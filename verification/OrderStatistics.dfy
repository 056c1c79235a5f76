/**
 Order statistics by counting: the r-th smallest element of a list, and how it moves when
 every element moves a little.
 */
module OrderStatistics {

  predicate Ascending(s: seq<real>) {
    forall i, j :: 0 <= i <= j < |s| ==> s[i] <= s[j]
  }

  function Insert(s: seq<real>, v: real): (r: seq<real>)
    ensures |r| == |s| + 1
  {
    if s == [] then [v]
    else if v <= s[0] then [v] + s
    else [s[0]] + Insert(s[1..], v)
  }

  function Sort(s: seq<real>): (r: seq<real>)
    ensures |r| == |s|
  {
    if s == [] then [] else Insert(Sort(s[1..]), s[0])
  }

  function CountLe(s: seq<real>, x: real): (n: nat)
    ensures n <= |s|
  {
    if s == [] then 0 else (if s[0] <= x then 1 else 0) + CountLe(s[1..], x)
  }

  function CountLt(s: seq<real>, x: real): (n: nat)
    ensures n <= |s|
  {
    if s == [] then 0 else (if s[0] < x then 1 else 0) + CountLt(s[1..], x)
  }

  lemma {:induction false} InsertSorts(s: seq<real>, v: real)
    requires Ascending(s)
    ensures Ascending(Insert(s, v))
    ensures Insert(s, v)[0] == v || (s != [] && Insert(s, v)[0] == s[0])
  {
    if s != [] && v > s[0] {
      InsertSorts(s[1..], v);
    }
  }

  lemma {:induction false} SortSorts(s: seq<real>)
    ensures Ascending(Sort(s))
  {
    if s != [] {
      SortSorts(s[1..]);
      InsertSorts(Sort(s[1..]), s[0]);
    }
  }

  lemma {:induction false} InsertCounts(s: seq<real>, v: real, x: real)
    ensures CountLe(Insert(s, v), x) == CountLe([v] + s, x)
    ensures CountLt(Insert(s, v), x) == CountLt([v] + s, x)
  {
    assert ([v] + s)[1..] == s;
    if s != [] && v > s[0] {
      InsertCounts(s[1..], v, x);
      assert ([v] + s[1..])[1..] == s[1..];
      assert Insert(s, v)[1..] == Insert(s[1..], v);
    }
  }

  lemma {:induction false} SortCounts(s: seq<real>, x: real)
    ensures CountLe(Sort(s), x) == CountLe(s, x)
    ensures CountLt(Sort(s), x) == CountLt(s, x)
  {
    if s != [] {
      SortCounts(s[1..], x);
      InsertCounts(Sort(s[1..]), s[0], x);
      assert ([s[0]] + Sort(s[1..]))[1..] == Sort(s[1..]);
    }
  }

  lemma {:induction false} NoneBelow(s: seq<real>, x: real)
    requires Ascending(s) && (s == [] || x <= s[0])
    ensures CountLt(s, x) == 0
    ensures s == [] || x < s[0] ==> CountLe(s, x) == 0
  {
    if s != [] {
      NoneBelow(s[1..], x);
    }
  }

  lemma {:induction false} AscendingRank(s: seq<real>, r: nat, x: real)
    requires Ascending(s) && r < |s|
    ensures s[r] <= x <==> CountLe(s, x) > r
    ensures s[r] < x <==> CountLt(s, x) > r
  {
    if s[0] > x {
      NoneBelow(s, x);
    } else if s[0] == x {
      NoneBelow(s, x);
      if r > 0 {
        AscendingRank(s[1..], r - 1, x);
      }
    } else if r > 0 {
      AscendingRank(s[1..], r - 1, x);
    }
  }

  /** The r-th smallest element (from 0) is at most `x` exactly when more than r elements are. */
  lemma Rank(s: seq<real>, r: nat, x: real)
    requires r < |s|
    ensures Sort(s)[r] <= x <==> CountLe(s, x) > r
    ensures Sort(s)[r] < x <==> CountLt(s, x) > r
  {
    SortSorts(s);
    SortCounts(s, x);
    AscendingRank(Sort(s), r, x);
  }

  lemma {:induction false} CountsAdd(a: seq<real>, b: seq<real>, x: real)
    ensures CountLe(a + b, x) == CountLe(a, x) + CountLe(b, x)
  {
    if a == [] {
      assert a + b == b;
    } else {
      assert (a + b)[1..] == a[1..] + b;
      CountsAdd(a[1..], b, x);
    }
  }

  /** Lists that count alike at every threshold have the same order statistics. */
  lemma SameCountsSameRank(a: seq<real>, b: seq<real>, r: nat)
    requires |a| == |b| && r < |a|
    requires forall x :: CountLe(a, x) == CountLe(b, x)
    ensures Sort(a)[r] == Sort(b)[r]
  {
    Rank(a, r, Sort(b)[r]);
    Rank(b, r, Sort(b)[r]);
    Rank(a, r, Sort(a)[r]);
    Rank(b, r, Sort(a)[r]);
  }

  lemma {:induction false} ImpliedCounts(a: seq<real>, b: seq<real>, z: real, y: real)
    requires |a| == |b|
    requires forall i :: 0 <= i < |a| && b[i] <= y ==> a[i] <= z
    ensures CountLe(a, z) >= CountLe(b, y)
  {
    if a != [] {
      forall i | 0 <= i < |a[1..]| && b[1..][i] <= y ensures a[1..][i] <= z {
        assert b[i + 1] <= y;
      }
      ImpliedCounts(a[1..], b[1..], z, y);
    }
  }

  /** If every element matching one up to b's r-th smallest is at most z, so is a's r-th smallest. */
  lemma RankAtMost(a: seq<real>, b: seq<real>, z: real, r: nat)
    requires |a| == |b| && r < |a|
    requires forall i :: 0 <= i < |a| && b[i] <= Sort(b)[r] ==> a[i] <= z
    ensures Sort(a)[r] <= z
  {
    Rank(b, r, Sort(b)[r]);
    ImpliedCounts(a, b, z, Sort(b)[r]);
    Rank(a, r, z);
  }

  ghost predicate Monotone(f: real -> real) {
    forall x, y :: x <= y ==> f(x) <= f(y)
  }

  /** Dominating every element through a monotone map dominates every order statistic. */
  lemma RankDominated(a: seq<real>, b: seq<real>, f: real -> real, r: nat)
    requires |a| == |b| && r < |a| && Monotone(f)
    requires forall i :: 0 <= i < |a| ==> a[i] <= f(b[i])
    ensures Sort(a)[r] <= f(Sort(b)[r])
  {
    var y := Sort(b)[r];
    forall i | 0 <= i < |a| && b[i] <= y ensures a[i] <= f(y) {
      assert f(b[i]) <= f(y);
    }
    RankAtMost(a, b, f(y), r);
  }

  /** Each of `x` and `y` is at most the other one grown by `grow`. */
  predicate Close(x: real, y: real, grow: real -> real) {
    x <= grow(y) && y <= grow(x)
  }

  /**
   Perturbation: if matching elements of two lists are close, so are their r-th smallest
   elements, for every r, whatever the two sorting permutations are.
   */
  lemma RankIsStable(a: seq<real>, b: seq<real>, grow: real -> real, r: nat)
    requires |a| == |b| && r < |a| && Monotone(grow)
    requires forall i :: 0 <= i < |a| ==> Close(a[i], b[i], grow)
    ensures Close(Sort(a)[r], Sort(b)[r], grow)
  {
    forall i | 0 <= i < |a| ensures a[i] <= grow(b[i]) && b[i] <= grow(a[i]) {
      assert Close(a[i], b[i], grow);
    }
    RankDominated(a, b, grow, r);
    RankDominated(b, a, grow, r);
  }
}
