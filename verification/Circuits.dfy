/**
 Per-target circuit breaker with exponential backoff (wiwi/core/recovery.py).

 `Breaker` is what the three dictionaries hold for one target; `CircuitBreaker` is the
 object that owns the dictionaries. The theorems are about whole histories of one target.
 */
module Circuits {
  import opened Prelude

  /** One target's entry: absent dictionary keys read as 0, None and false. */
  datatype Breaker = Breaker(streak: nat, until: Option<real>, dead: bool)

  const FRESH := Breaker(0, None, false)

  function Pow2(n: nat): (p: real)
    ensures p >= 1.0
  {
    if n == 0 then 1.0 else 2.0 * Pow2(n - 1)
  }

  lemma {:induction false} DoubledIsPow2(base: real, n: nat)
    ensures Doubled(base, n) == base * Pow2(n)
  {
    if n > 0 {
      DoubledIsPow2(base, n - 1);
    }
  }

  /** base * 2^n. */
  function Doubled(base: real, n: nat): (d: real)
    ensures base >= 0.0 ==> d >= base
  {
    if n == 0 then base else 2.0 * Doubled(base, n - 1)
  }

  /** The n-th consecutive trip's window. */
  function Window(base: real, cap: real, n: nat): real
    requires n >= 1
  {
    MinReal(cap, Doubled(base, n - 1))
  }

  function Tripped(b: Breaker, base: real, cap: real, now: real): Breaker {
    Breaker(b.streak + 1, Some(now + Window(base, cap, b.streak + 1)), b.dead)
  }

  predicate Blocked(b: Breaker, now: real) {
    b.dead || now < b.until.GetOr(0.0)
  }

  datatype Event = Trip(at: real) | Clear | MarkDead

  function Step(b: Breaker, base: real, cap: real, e: Event): Breaker {
    match e
    case Trip(at) => Tripped(b, base, cap, at)
    case Clear => FRESH
    case MarkDead => b.(dead := true)
  }

  function Run(base: real, cap: real, h: seq<Event>): Breaker {
    if h == [] then FRESH else Step(Run(base, cap, h[..|h| - 1]), base, cap, h[|h| - 1])
  }

  lemma RunSnoc(base: real, cap: real, h: seq<Event>, e: Event)
    ensures Run(base, cap, h + [e]) == Step(Run(base, cap, h), base, cap, e)
  {
    assert (h + [e])[..|h|] == h;
  }

  function TripTimes(h: seq<Event>): seq<real> {
    if h == [] then []
    else TripTimes(h[..|h| - 1]) + (if h[|h| - 1].Trip? then [h[|h| - 1].at] else [])
  }

  lemma {:induction false} WindowsNeverShrink(base: real, cap: real, n: nat, m: nat)
    requires base >= 0.0 && 1 <= n <= m
    ensures Window(base, cap, n) <= Window(base, cap, m)
    decreases m - n
  {
    if n < m {
      WindowsNeverShrink(base, cap, n, m - 1);
    }
  }

  /** A target whose only history is trips at the times `ts`, and maybe a death. */
  function AfterTrips(base: real, cap: real, ts: seq<real>, died: bool): Breaker {
    Breaker(|ts|, if ts == [] then None else Some(ts[|ts| - 1] + Window(base, cap, |ts|)), died)
  }

  lemma TripTimesSnoc(h: seq<Event>, e: Event)
    ensures TripTimes(h + [e]) == if e.Trip? then TripTimes(h) + [e.at] else TripTimes(h)
  {
    assert (h + [e])[..|h|] == h;
  }

  lemma AfterTripsStep(base: real, cap: real, ts: seq<real>, died: bool, e: Event)
    requires e != Clear
    ensures Step(AfterTrips(base, cap, ts, died), base, cap, e)
         == AfterTrips(base, cap, if e.Trip? then ts + [e.at] else ts, died || e == MarkDead)
  {
  }

  lemma {:induction false} RunAfterClear(base: real, cap: real, before: seq<Event>, since: seq<Event>)
    requires Run(base, cap, before) == FRESH
    requires Clear !in since
    ensures Run(base, cap, before + since) == AfterTrips(base, cap, TripTimes(since), MarkDead in since)
    decreases |since|
  {
    if since == [] {
      assert before + since == before;
    } else {
      var init, last := since[..|since| - 1], since[|since| - 1];
      assert since == init + [last] && last in since;
      assert before + since == (before + init) + [last];
      RunAfterClear(base, cap, before, init);
      RunSnoc(base, cap, before + init, last);
      TripTimesSnoc(init, last);
      AfterTripsStep(base, cap, TripTimes(init), MarkDead in init, last);
    }
  }

  /**
   A target is blocked at `t` exactly when it was declared dead, or its n-th trip, counted
   since the last clear, is less than min(cap, base * 2^(n-1)) old; and clears aside, no
   trip's window is shorter than an earlier trip's.
   */
  lemma BlockedExactly(base: real, cap: real, before: seq<Event>, since: seq<Event>, t: real)
    requires base >= 0.0 && t >= 0.0
    requires before == [] || before[|before| - 1] == Clear
    requires Clear !in since
    ensures var ts := TripTimes(since);
            && (Blocked(Run(base, cap, before + since), t) <==>
                || MarkDead in since
                || (ts != [] && t - ts[|ts| - 1] < cap && t - ts[|ts| - 1] < base * Pow2(|ts| - 1)))
            && (forall n :: 1 <= n <= |ts| ==> Window(base, cap, n) <= Window(base, cap, |ts|))
  {
    RunAfterClear(base, cap, before, since);
    var ts := TripTimes(since);
    if ts != [] {
      DoubledIsPow2(base, |ts| - 1);
    }
    forall n | 1 <= n <= |ts| ensures Window(base, cap, n) <= Window(base, cap, |ts|) {
      WindowsNeverShrink(base, cap, n, |ts|);
    }
  }

  /** The breaker object: every method touches its own target's entry only. */
  class CircuitBreaker<T(==, !new)> {
    const base: real
    const cap: real
    var streaks: map<T, nat>
    var untils: map<T, real>
    var deads: set<T>

    constructor (base: real, cap: real)
      ensures this.base == base && this.cap == cap
      ensures forall t :: View(t) == FRESH
    {
      this.base, this.cap := base, cap;
      streaks, untils, deads := map[], map[], {};
    }

    ghost function View(t: T): Breaker
      reads this
    {
      Breaker(if t in streaks then streaks[t] else 0,
              if t in untils then Some(untils[t]) else None,
              t in deads)
    }

    method Trip(target: T, now: real)
      modifies this
      ensures View(target) == Step(old(View(target)), base, cap, Event.Trip(now))
      ensures forall t :: t != target ==> View(t) == old(View(t))
    {
      var streak := (if target in streaks then streaks[target] else 0) + 1;
      streaks := streaks[target := streak];
      untils := untils[target := now + Window(base, cap, streak)];
    }

    method Clear(target: T)
      modifies this
      ensures View(target) == Step(old(View(target)), base, cap, Event.Clear)
      ensures forall t :: t != target ==> View(t) == old(View(t))
    {
      streaks, untils, deads := streaks - {target}, untils - {target}, deads - {target};
    }

    method MarkDead(target: T)
      modifies this
      ensures View(target) == Step(old(View(target)), base, cap, Event.MarkDead)
      ensures forall t :: t != target ==> View(t) == old(View(t))
    {
      deads := deads + {target};
    }

    method IsBlocked(target: T, now: real) returns (blocked: bool)
      ensures blocked <==> Blocked(View(target), now)
    {
      if target in deads {
        return true;
      }
      return now < (if target in untils then untils[target] else 0.0);
    }
  }
}
