/**
 Concurrent-request dedupe (wiwi/cache/singleflight.py) under any schedule of completions,
 errors and cancellations.

 A caller leads at most one flight, so its id also names the flight's future, whose outcome
 is the leader's own. Code between two awaits is one event.
 */
module SingleFlights {
  import opened Prelude

  datatype Outcome = Ok(result: int) | Err(error: int) | Cancelled

  datatype Phase =
    | AtHead
    | Leading
    | Bypassing
    | Waiting(on: int)
    | Done(outcome: Outcome, via: Option<int>)

  /** One call of `run`: `calls` counts invocations of its own factory, `own` what that gave. */
  datatype Caller = Caller(key: int, phase: Phase, joins: nat, calls: nat, own: Option<Outcome>)

  datatype Tables = Tables(flights: map<int, int>, waiters: map<int, int>)

  datatype State = State(maxFlights: nat, maxWaiters: nat, tables: Tables, callers: map<int, Caller>)

  datatype Event =
    | Call(c: int, key: int)
    | Head(c: int)
    | FactoryEnds(c: int, outcome: Outcome)
    | Wake(c: int)
    | WaiterCancelled(c: int)

  // ---- the two tables -------------------------------------------------------------------

  datatype Decision = Join(on: int) | Lead | Bypass

  function WaitersOf(t: Tables, key: int): int {
    if key in t.waiters then t.waiters[key] else 0
  }

  /** What a caller does at the head of its loop; after two lost leaders it runs alone. */
  function Decide(t: Tables, maxFlights: nat, maxWaiters: nat, key: int, joins: nat): Decision {
    if joins >= 2 then Bypass
    else if key in t.flights then (if WaitersOf(t, key) >= maxWaiters then Bypass else Join(t.flights[key]))
    else if |t.flights| >= maxFlights then Bypass
    else Lead
  }

  function Decided(t: Tables, c: int, key: int, d: Decision): Tables {
    match d
    case Join(_) => t.(waiters := t.waiters[key := WaitersOf(t, key) + 1])
    case Lead => Tables(t.flights[key := c], t.waiters[key := 0])
    case Bypass => t
  }

  /** A waiter's `finally`: the count is the key's, whichever flight it is for by now. */
  function Left(t: Tables, key: int): Tables {
    var n := (if key in t.waiters then t.waiters[key] else 1) - 1;
    t.(waiters := if n <= 0 then t.waiters - {key} else t.waiters[key := n])
  }

  /** A leader's `finally`. */
  function Landed(t: Tables, key: int): Tables {
    Tables(t.flights - {key}, t.waiters - {key})
  }

  class SingleFlight {
    const maxFlights: nat
    const maxWaiters: nat
    var flights: map<int, int>
    var waiters: map<int, int>
    var leaders: nat
    var bypassed: nat

    constructor (maxFlights: int, maxWaiters: int)
      ensures View() == Tables(map[], map[]) && this.maxFlights >= 1
    {
      this.maxFlights := if maxFlights < 1 then 1 else maxFlights;
      this.maxWaiters := if maxWaiters < 0 then 0 else maxWaiters;
      flights, waiters, leaders, bypassed := map[], map[], 0, 0;
    }

    function View(): Tables
      reads this
    {
      Tables(flights, waiters)
    }

    /** One turn of the loop, up to its await. */
    method Head(key: int, c: int, joins: nat) returns (d: Decision)
      modifies this
      ensures d == Decide(old(View()), maxFlights, maxWaiters, key, joins)
      ensures View() == Decided(old(View()), c, key, d)
      ensures leaders == old(leaders) + (if d == Lead then 1 else 0)
      ensures bypassed == old(bypassed) + (if d == Bypass then 1 else 0)
    {
      if joins >= 2 {
        bypassed := bypassed + 1;
        return Bypass;
      }
      if key in flights {
        var n := if key in waiters then waiters[key] else 0;
        if n >= maxWaiters {
          bypassed := bypassed + 1;
          return Bypass;
        }
        waiters := waiters[key := n + 1];
        return Join(flights[key]);
      }
      if |flights| >= maxFlights {
        bypassed := bypassed + 1;
        return Bypass;
      }
      flights, waiters, leaders := flights[key := c], waiters[key := 0], leaders + 1;
      return Lead;
    }

    method Leave(key: int)
      modifies this`waiters
      ensures View() == Left(old(View()), key)
    {
      var n := (if key in waiters then waiters[key] else 1) - 1;
      waiters := if n <= 0 then waiters - {key} else waiters[key := n];
    }

    method Land(key: int)
      modifies this`flights, this`waiters
      ensures View() == Landed(old(View()), key)
    {
      flights, waiters := flights - {key}, waiters - {key};
    }
  }

  // ---- interleavings --------------------------------------------------------------------

  predicate Finished(s: State, c: int) {
    c in s.callers && s.callers[c].phase.Done?
  }

  predicate Enabled(s: State, e: Event) {
    match e
    case Call(c, _) => c !in s.callers
    case Head(c) => c in s.callers && s.callers[c].phase == AtHead
    case FactoryEnds(c, _) => c in s.callers && (s.callers[c].phase == Leading || s.callers[c].phase == Bypassing)
    case Wake(c) => c in s.callers && s.callers[c].phase.Waiting? && Finished(s, s.callers[c].phase.on)
    case WaiterCancelled(c) => c in s.callers && s.callers[c].phase.Waiting?
  }

  /** A waiter leaves with its leader's outcome, or goes round again if the leader was cancelled. */
  function Woken(w: Caller, leader: int, outcome: Outcome): Caller {
    if outcome == Cancelled then w.(phase := AtHead, joins := w.joins + 1)
    else w.(phase := Done(outcome, Some(leader)))
  }

  function Next(s: State, e: Event): State
    requires Enabled(s, e)
  {
    match e
    case Call(c, key) => s.(callers := s.callers[c := Caller(key, AtHead, 0, 0, None)])
    case Head(c) =>
      var w := s.callers[c];
      var d := Decide(s.tables, s.maxFlights, s.maxWaiters, w.key, w.joins);
      var now := match d
        case Join(on) => w.(phase := Waiting(on))
        case Lead => w.(phase := Leading, calls := w.calls + 1)
        case Bypass => w.(phase := Bypassing, calls := w.calls + 1);
      s.(tables := Decided(s.tables, c, w.key, d), callers := s.callers[c := now])
    case FactoryEnds(c, outcome) =>
      var w := s.callers[c];
      s.(tables := if w.phase == Leading then Landed(s.tables, w.key) else s.tables,
         callers := s.callers[c := w.(phase := Done(outcome, None), own := Some(outcome))])
    case Wake(c) =>
      var w := s.callers[c];
      var outcome := s.callers[w.phase.on].phase.outcome;
      s.(tables := Left(s.tables, w.key), callers := s.callers[c := Woken(w, w.phase.on, outcome)])
    case WaiterCancelled(c) =>
      var w := s.callers[c];
      var lost := Finished(s, w.phase.on) && s.callers[w.phase.on].phase.outcome == Cancelled;
      s.(tables := Left(s.tables, w.key),
         callers := s.callers[c := if lost then Woken(w, w.phase.on, Cancelled)
                                   else w.(phase := Done(Cancelled, None))])
  }

  /** A caller arrives with nothing joined and nothing called. */
  lemma ArrivesExactly(s: State, c: int, key: int)
    requires Enabled(s, Call(c, key))
    ensures var n := Next(s, Call(c, key));
            n.callers == s.callers[c := Caller(key, AtHead, 0, 0, None)] && n.tables == s.tables
  {
  }

  /**
   At the head of its loop a caller that has lost fewer than two leaders joins the flight of
   its key if there is one with room for a waiter, and leads if there is none and room for a
   flight; only in joining does it not call its own factory.
   */
  lemma HeadExactly(s: State, c: int)
    requires Enabled(s, Head(c))
    ensures var w, n, t := s.callers[c], Next(s, Head(c)), s.tables;
            var room := (if w.key in t.waiters then t.waiters[w.key] else 0) < s.maxWaiters;
            if w.joins < 2 && w.key in t.flights && room then
              && n.callers[c] == w.(phase := Waiting(t.flights[w.key])) && n.tables.flights == t.flights
              && n.tables.waiters == t.waiters[w.key := (if w.key in t.waiters then t.waiters[w.key] else 0) + 1]
            else if w.joins < 2 && w.key !in t.flights && |t.flights| < s.maxFlights then
              && n.callers[c] == w.(phase := Leading, calls := w.calls + 1)
              && n.tables == Tables(t.flights[w.key := c], t.waiters[w.key := 0])
            else n.callers[c] == w.(phase := Bypassing, calls := w.calls + 1) && n.tables == t
  {
  }

  /** The waiters of a key once one has gone: one fewer, and no entry at none. */
  ghost predicate OneGone(before: map<int, int>, after: map<int, int>, key: int) {
    && (key in after <==> key in before && before[key] > 1)
    && (key in after ==> after[key] == before[key] - 1)
    && (forall k :: k != key ==> (k in after <==> k in before) && (k in after ==> after[k] == before[k]))
  }

  /**
   A waiter leaves with what its leader's factory gave, and goes round again exactly if that
   leader was cancelled; cancelled itself, it ends, unless the leader was cancelled first.
   */
  lemma WakeExactly(s: State, c: int)
    requires c in s.callers && s.callers[c].phase.Waiting?
    requires Enabled(s, Wake(c))
    ensures var w, n := s.callers[c], Next(s, Wake(c));
            var outcome := s.callers[w.phase.on].phase.outcome;
            && n.callers[c] == (if outcome == Cancelled then w.(phase := AtHead, joins := w.joins + 1)
                                else w.(phase := Done(outcome, Some(w.phase.on))))
            && n.tables.flights == s.tables.flights && OneGone(s.tables.waiters, n.tables.waiters, w.key)
  {
  }

  lemma WaiterCancelledExactly(s: State, c: int)
    requires Enabled(s, WaiterCancelled(c))
    ensures var w, n := s.callers[c], Next(s, WaiterCancelled(c));
            var l := w.phase.on;
            && n.callers[c] == (if l in s.callers && s.callers[l].phase.Done? && s.callers[l].phase.outcome == Cancelled
                                then w.(phase := AtHead, joins := w.joins + 1)
                                else w.(phase := Done(Cancelled, None)))
            && n.tables.flights == s.tables.flights && OneGone(s.tables.waiters, n.tables.waiters, w.key)
  {
  }

  // ---- what every run keeps -------------------------------------------------------------

  /** The registered flights are exactly the callers running as leaders, one per key. */
  ghost predicate FlightsAreLeaders(s: State) {
    && (forall k :: k in s.tables.flights ==> LeadsKey(s, s.tables.flights[k], k))
    && (forall c :: c in s.callers && s.callers[c].phase == Leading ==>
          s.callers[c].key in s.tables.flights && s.tables.flights[s.callers[c].key] == c)
    && |s.tables.flights| <= s.maxFlights
  }

  predicate LeadsKey(s: State, c: int, k: int) {
    c in s.callers && s.callers[c].phase == Leading && s.callers[c].key == k
  }

  /** `l` led a flight for `key`: it is still leading, or its own factory has ended. */
  predicate Led(s: State, l: int, key: int) {
    && l in s.callers && s.callers[l].key == key
    && (s.callers[l].phase == Leading
        || (s.callers[l].phase.Done? && s.callers[l].own == Some(s.callers[l].phase.outcome)))
  }

  /** One caller's bookkeeping is sound. */
  ghost predicate Sound(s: State, c: int)
    requires c in s.callers
  {
    var w := s.callers[c];
    match w.phase
    case AtHead => w.calls == 0 && w.own.None? && w.joins <= 2
    case Leading => w.calls == 1 && w.own.None? && w.joins <= 1
    case Bypassing => w.calls == 1 && w.own.None? && w.joins <= 2
    case Waiting(on) => w.calls == 0 && w.own.None? && w.joins <= 1 && Led(s, on, w.key)
    case Done(outcome, Some(l)) =>
      w.calls == 0 && w.own.None? && w.joins <= 1 && outcome != Cancelled && Led(s, l, w.key)
      && s.callers[l].own == Some(outcome)
    case Done(outcome, None) =>
      && w.joins <= 2
      && ((w.calls == 1 && w.own == Some(outcome)) || (w.calls == 0 && w.own.None? && outcome == Cancelled))
  }

  ghost predicate Inv(s: State) {
    FlightsAreLeaders(s) && (forall c :: c in s.callers ==> Sound(s, c))
  }

  /** A caller that is not leading does not own any registered flight. */
  lemma NotRegistered(s: State, c: int)
    requires FlightsAreLeaders(s) && (c in s.callers ==> s.callers[c].phase != Leading)
    ensures forall k :: k in s.tables.flights ==> s.tables.flights[k] != c
  {
    forall k | k in s.tables.flights ensures s.tables.flights[k] != c {
      assert LeadsKey(s, s.tables.flights[k], k);
    }
  }

  /** An event of a caller that neither becomes nor was a leader leaves the flights alone. */
  lemma QuietKeepsFlights(s: State, s': State, c: int)
    requires FlightsAreLeaders(s) && (c in s.callers ==> s.callers[c].phase != Leading)
    requires s'.tables.flights == s.tables.flights && s'.maxFlights == s.maxFlights
    requires c in s'.callers && s'.callers == s.callers[c := s'.callers[c]] && s'.callers[c].phase != Leading
    ensures FlightsAreLeaders(s')
  {
    NotRegistered(s, c);
    forall k | k in s'.tables.flights ensures LeadsKey(s', s'.tables.flights[k], k) {
      assert LeadsKey(s, s.tables.flights[k], k);
    }
  }

  lemma LeadKeepsFlights(s: State, c: int)
    requires FlightsAreLeaders(s) && Enabled(s, Head(c))
    requires Decide(s.tables, s.maxFlights, s.maxWaiters, s.callers[c].key, s.callers[c].joins) == Lead
    ensures FlightsAreLeaders(Next(s, Head(c)))
  {
    var s' := Next(s, Head(c));
    NotRegistered(s, c);
    forall k | k in s'.tables.flights ensures LeadsKey(s', s'.tables.flights[k], k) {
      if k != s.callers[c].key {
        assert LeadsKey(s, s.tables.flights[k], k);
      }
    }
  }

  /** A leader that ends removes its own flight, and no other. */
  lemma LandKeepsFlights(s: State, c: int, outcome: Outcome)
    requires FlightsAreLeaders(s) && Enabled(s, FactoryEnds(c, outcome)) && s.callers[c].phase == Leading
    ensures FlightsAreLeaders(Next(s, FactoryEnds(c, outcome)))
    ensures Next(s, FactoryEnds(c, outcome)).tables.flights == s.tables.flights - {s.callers[c].key}
    ensures s.callers[c].key in s.tables.flights && s.tables.flights[s.callers[c].key] == c
  {
    var s' := Next(s, FactoryEnds(c, outcome));
    forall k | k in s'.tables.flights ensures LeadsKey(s', s'.tables.flights[k], k) {
      assert LeadsKey(s, s.tables.flights[k], k);
    }
    Fewer(s.tables.flights, s.callers[c].key);
  }

  lemma KeepsFlights(s: State, e: Event)
    requires FlightsAreLeaders(s) && Enabled(s, e)
    ensures FlightsAreLeaders(Next(s, e))
  {
    match e
    case Call(c, _) => QuietKeepsFlights(s, Next(s, e), c);
    case Head(c) =>
      if Next(s, e).callers[c].phase == Leading {
        LeadKeepsFlights(s, c);
      } else {
        QuietKeepsFlights(s, Next(s, e), c);
      }
    case FactoryEnds(c, outcome) =>
      if s.callers[c].phase == Leading {
        LandKeepsFlights(s, c, outcome);
      } else {
        QuietKeepsFlights(s, Next(s, e), c);
      }
    case Wake(c) => QuietKeepsFlights(s, Next(s, e), c);
    case WaiterCancelled(c) => QuietKeepsFlights(s, Next(s, e), c);
  }

  lemma Fewer(m: map<int, int>, k: int)
    ensures |m - {k}| <= |m|
  {
    assert (m - {k}).Keys == m.Keys - {k};
    assert |m.Keys - {k}| <= |m.Keys|;
  }

  /** Once a flight has been led for a key, it stays led for it, and its outcome stays. */
  lemma LedStays(s: State, e: Event, l: int, key: int)
    requires Inv(s) && Enabled(s, e) && Led(s, l, key)
    ensures Led(Next(s, e), l, key)
    ensures s.callers[l].own.Some? ==> Next(s, e).callers[l].own == s.callers[l].own
  {
    assert Sound(s, l);
  }

  lemma KeepsSound(s: State, e: Event, c: int)
    requires Inv(s) && Enabled(s, e) && c in Next(s, e).callers
    ensures Sound(Next(s, e), c)
  {
    if c in s.callers {
      assert Sound(s, c);
      var w := s.callers[c];
      if w.phase.Waiting? {
        LedStays(s, e, w.phase.on, w.key);
      }
      if w.phase.Done? && w.phase.via.Some? {
        LedStays(s, e, w.phase.via.value, w.key);
      }
      if e == Head(c) {
        var d := Decide(s.tables, s.maxFlights, s.maxWaiters, w.key, w.joins);
        if d.Join? {
          assert LeadsKey(s, d.on, w.key);
        }
      }
    }
  }

  ghost predicate EnabledRun(s: State, es: seq<Event>)
    decreases |es|, 0
  {
    es == [] || (EnabledRun(s, es[..|es| - 1]) && Enabled(Run(s, es[..|es| - 1]), es[|es| - 1]))
  }

  ghost function Run(s: State, es: seq<Event>): State
    requires EnabledRun(s, es)
    decreases |es|, 1
  {
    if es == [] then s else Next(Run(s, es[..|es| - 1]), es[|es| - 1])
  }

  function Init(maxFlights: nat, maxWaiters: nat): State {
    State(maxFlights, maxWaiters, Tables(map[], map[]), map[])
  }

  lemma {:induction false} RunKeepsInv(maxFlights: nat, maxWaiters: nat, es: seq<Event>)
    requires EnabledRun(Init(maxFlights, maxWaiters), es)
    ensures Inv(Run(Init(maxFlights, maxWaiters), es))
  {
    if es != [] {
      var init, last := es[..|es| - 1], es[|es| - 1];
      RunKeepsInv(maxFlights, maxWaiters, init);
      var s := Run(Init(maxFlights, maxWaiters), init);
      KeepsFlights(s, last);
      forall c | c in Next(s, last).callers ensures Sound(Next(s, last), c) {
        KeepsSound(s, last, c);
      }
    }
  }

  /**
   Under any schedule: the registered flights are the running leaders, one per key and never
   too many; a caller invokes its own factory at most once and joins at most twice; one that
   was served by a leader got exactly what that leader's factory gave for the same key; any
   other got what its own factory gave, or was cancelled while waiting.
   */
  lemma SingleFlightIsFaithful(maxFlights: nat, maxWaiters: nat, es: seq<Event>, c: int)
    requires EnabledRun(Init(maxFlights, maxWaiters), es)
    requires c in Run(Init(maxFlights, maxWaiters), es).callers
    ensures var s := Run(Init(maxFlights, maxWaiters), es);
            var w := s.callers[c];
            && FlightsAreLeaders(s) && |s.tables.flights| <= maxFlights
            && w.calls <= 1 && w.joins <= 2
            && (w.phase.Done? && w.phase.via.Some? ==>
                  var l := w.phase.via.value;
                  && w.calls == 0 && l in s.callers && s.callers[l].key == w.key
                  && s.callers[l].own == Some(w.phase.outcome) && w.phase.outcome != Cancelled)
            && (w.phase.Done? && w.phase.via.None? ==>
                  w.own == Some(w.phase.outcome) || (w.calls == 0 && w.phase.outcome == Cancelled))
  {
    RunKeepsInv(maxFlights, maxWaiters, es);
    var s := Run(Init(maxFlights, maxWaiters), es);
    BoundsStay(Init(maxFlights, maxWaiters), es);
    assert Sound(s, c);
  }

  /**
   Duplicates share: in every reachable state a caller that arrives while another runs for its
   key, with room for a waiter, waits for that one without a call of its own.
   */
  lemma DuplicatesShare(maxFlights: nat, maxWaiters: nat, es: seq<Event>, l: int, c: int)
    requires EnabledRun(Init(maxFlights, maxWaiters), es)
    requires var s := Run(Init(maxFlights, maxWaiters), es);
             && l in s.callers && s.callers[l].phase == Leading
             && c in s.callers && s.callers[c].phase == AtHead && s.callers[c].joins < 2
             && s.callers[c].key == s.callers[l].key
    ensures var s := Run(Init(maxFlights, maxWaiters), es);
            var k := s.callers[c].key;
            (k in s.tables.waiters ==> s.tables.waiters[k] < maxWaiters) && maxWaiters > 0 ==>
              Next(s, Head(c)).callers[c] == s.callers[c].(phase := Waiting(l)) && s.callers[c].calls == 0
  {
    RunKeepsInv(maxFlights, maxWaiters, es);
    var s := Run(Init(maxFlights, maxWaiters), es);
    BoundsStay(Init(maxFlights, maxWaiters), es);
    assert Sound(s, c);
    HeadExactly(s, c);
  }

  lemma {:induction false} BoundsStay(s: State, es: seq<Event>)
    requires EnabledRun(s, es)
    ensures Run(s, es).maxFlights == s.maxFlights && Run(s, es).maxWaiters == s.maxWaiters
    decreases |es|
  {
    if es != [] {
      BoundsStay(s, es[..|es| - 1]);
    }
  }
}
