/**
 The budget ledger and its write-behind buffer (wiwi/auth/service.py, wiwi/auth/spend_buffer.py).

 Every SQL statement is one step. A request holds part of `live` from the accepted
 reservation until it is charged or released; how `live` splits over requests is left open.
 Keys only meet in a flush, so the state is one `Slot` per key.
 */
module SpendLedger {
  import opened Prelude

  type Key = int

  /** The synthetic key id of the master credential, which has no row. */
  const MASTER: Key := 0

  datatype Row = Row(spend: real, reserved: real, cap: Option<real>, disabled: bool)

  /** A key's aggregated charges; `over` adds up how far each charge exceeded its reservation. */
  datatype Batch = Batch(cost: real, reserved: real, requests: nat, over: real)

  /**
   The history of one key: spend at the start, everything charged since, reservations of
   requests still running, and the excess in settled and in thrown-away batches.
   */
  datatype Account = Account(opening: real, charged: real, live: real, settledOver: real, lostOver: real)

  /** One key: its row, its buffered charges, and its part of a flush that holds the lock. */
  datatype Slot = Slot(row: Row, acct: Account, pending: Option<Batch>, todo: Option<Batch>, failed: Option<Batch>)

  datatype State = State(slots: map<Key, Slot>, flushing: bool)

  datatype Event =
    | Reserve(k: Key, amount: real)
    | Release(k: Key, amount: real)
    | Charge(k: Key, cost: real, reserved: real)
    | TrueUp(k: Key, cost: real)
    | FlushBegin(only: Option<Key>)
    | Settle(k: Key, ok: bool)
    | FlushEnd
    | FlushCancelled

  // ---- batches --------------------------------------------------------------------------

  function Plus(a: Batch, b: Batch): Batch {
    Batch(a.cost + b.cost, a.reserved + b.reserved, a.requests + b.requests, a.over + b.over)
  }

  function Cost(b: Option<Batch>): real {
    if b.Some? then b.value.cost else 0.0
  }

  function Held(b: Option<Batch>): real {
    if b.Some? then b.value.reserved else 0.0
  }

  function Over(b: Option<Batch>): real {
    if b.Some? then b.value.over else 0.0
  }

  /** Everything charged to the key that no statement has written yet, and its reservations. */
  function Unwritten(sl: Slot): real {
    Cost(sl.pending) + Cost(sl.todo) + Cost(sl.failed)
  }

  function Unreleased(sl: Slot): real {
    Held(sl.pending) + Held(sl.todo) + Held(sl.failed)
  }

  /** A charge in excess of its reservation. */
  function Excess(cost: real, reserved: real): real {
    MaxReal(0.0, cost - MaxReal(0.0, reserved))
  }

  // ---- one key's part of each step ------------------------------------------------------

  /** The conditional UPDATE of `reserve_budget`. */
  predicate Accepts(r: Row, amount: real) {
    !r.disabled && (r.cap.None? || r.spend + r.reserved + amount <= r.cap.value)
  }

  predicate Ignored(cost: real, reserved: real) {
    cost <= 0.0 && reserved <= 0.0
  }

  function Reserved(sl: Slot, amount: real): Slot {
    if amount <= 0.0 || !Accepts(sl.row, amount) then sl
    else sl.(row := sl.row.(reserved := sl.row.reserved + amount), acct := sl.acct.(live := sl.acct.live + amount))
  }

  function Released(sl: Slot, amount: real): Slot {
    if amount <= 0.0 then sl
    else sl.(row := sl.row.(reserved := MaxReal(sl.row.reserved - amount, 0.0)),
             acct := sl.acct.(live := sl.acct.live - amount))
  }

  function Charged(sl: Slot, cost: real, reserved: real): Slot {
    if Ignored(cost, reserved) then sl
    else
      var b := Batch(cost, MaxReal(0.0, reserved), 1, Excess(cost, reserved));
      sl.(pending := Some(if sl.pending.None? then b else Plus(sl.pending.value, b)),
          acct := sl.acct.(charged := sl.acct.charged + cost, live := sl.acct.live - b.reserved))
  }

  function TruedUp(sl: Slot, cost: real): Slot {
    if cost <= 0.0 then sl
    else sl.(row := sl.row.(spend := sl.row.spend + cost),
             acct := sl.acct.(charged := sl.acct.charged + cost, settledOver := sl.acct.settledOver + cost))
  }

  function Taken(sl: Slot): Slot {
    sl.(pending := None, todo := sl.pending)
  }

  /** The unconditional UPDATE of `settle_spend`. */
  function Written(r: Row, b: Batch): Row {
    if Ignored(b.cost, b.reserved) then r
    else r.(spend := r.spend + MaxReal(0.0, b.cost), reserved := MaxReal(r.reserved - MaxReal(0.0, b.reserved), 0.0))
  }

  function Settled(sl: Slot, ok: bool): Slot
    requires sl.todo.Some?
  {
    var b := sl.todo.value;
    if ok then sl.(todo := None, row := Written(sl.row, b),
                   acct := sl.acct.(settledOver := sl.acct.settledOver + b.over))
    else sl.(todo := None, failed := Some(b))
  }

  /** A failed batch goes back under whatever was charged meanwhile. */
  function MergedBack(sl: Slot): Slot {
    if sl.failed.None? then sl
    else sl.(failed := None,
             pending := Some(if sl.pending.None? then sl.failed.value else Plus(sl.pending.value, sl.failed.value)))
  }

  function Dropped(sl: Slot): Slot {
    sl.(todo := None, failed := None,
        acct := sl.acct.(lostOver := sl.acct.lostOver + Over(sl.todo) + Over(sl.failed)))
  }

  // ---- the whole ledger -----------------------------------------------------------------

  predicate Enabled(s: State, e: Event) {
    match e
    case Reserve(k, _) => k == MASTER || k in s.slots
    case Release(k, amount) => k == MASTER || (k in s.slots && amount <= s.slots[k].acct.live)
    case Charge(k, _, reserved) => k == MASTER || (k in s.slots && MaxReal(0.0, reserved) <= s.slots[k].acct.live)
    case TrueUp(k, _) => k == MASTER || k in s.slots
    case FlushBegin(_) => !s.flushing
    case Settle(k, _) => s.flushing && k in s.slots && s.slots[k].todo.Some?
    case FlushEnd => s.flushing && forall k :: k in s.slots ==> s.slots[k].todo.None?
    case FlushCancelled => s.flushing  // also in the await that ends the last settle, after its commit
  }

  /** What a step does to the slot of `k`. */
  function Effect(s: State, e: Event, k: Key): Slot
    requires Enabled(s, e) && k in s.slots
  {
    var sl := s.slots[k];
    match e
    case Reserve(g, amount) => if g == k && k != MASTER then Reserved(sl, amount) else sl
    case Release(g, amount) => if g == k && k != MASTER then Released(sl, amount) else sl
    case Charge(g, cost, reserved) => if g == k && k != MASTER then Charged(sl, cost, reserved) else sl
    case TrueUp(g, cost) => if g == k && k != MASTER then TruedUp(sl, cost) else sl
    case FlushBegin(only) => if only.None? || only.value == k then Taken(sl) else sl
    case Settle(g, ok) => if g == k then Settled(sl, ok) else sl
    case FlushEnd => MergedBack(sl)
    case FlushCancelled => Dropped(sl)
  }

  /** A flush that finds nothing to take returns at once. */
  predicate TakesSomething(s: State, only: Option<Key>) {
    exists k :: k in s.slots && (only.None? || only.value == k) && s.slots[k].pending.Some?
  }

  function Next(s: State, e: Event): State
    requires Enabled(s, e)
  {
    State(map k | k in s.slots :: Effect(s, e, k),
          if e.FlushBegin? then TakesSomething(s, e.only)
          else s.flushing && !e.FlushEnd? && !e.FlushCancelled?)
  }

  predicate EnabledRun(s: State, es: seq<Event>)
    decreases |es|
  {
    es == [] || (Enabled(s, es[0]) && EnabledRun(Next(s, es[0]), es[1..]))
  }

  function Run(s: State, es: seq<Event>): (r: State)
    requires EnabledRun(s, es)
    ensures r.slots.Keys == s.slots.Keys
    decreases |es|
  {
    if es == [] then s else Run(Next(s, es[0]), es[1..])
  }

  // ---- the invariant --------------------------------------------------------------------

  /** What a batch costs beyond its reservations was counted when it was charged. */
  predicate Fair(b: Option<Batch>) {
    Held(b) >= 0.0 && Over(b) >= 0.0 && Cost(b) - Held(b) <= Over(b)
  }

  /** Written plus unwritten spend, beyond what was really charged. */
  function SpendDrift(sl: Slot): real {
    sl.row.spend + Unwritten(sl) - sl.acct.opening - sl.acct.charged
  }

  /** Reservations in the table that belong to no running request and no unwritten batch. */
  function ReservedDrift(sl: Slot): real {
    sl.row.reserved - sl.acct.live - Unreleased(sl)
  }

  /** The most that cap and starting point allow without any excess. */
  function Ceiling(sl: Slot): real
    requires sl.row.cap.Some?
  {
    MaxReal(sl.row.cap.value, sl.acct.opening)
  }

  /** How far the charges of the key went beyond their reservations, so far. */
  function Overrun(sl: Slot): real {
    sl.acct.settledOver + sl.acct.lostOver + Over(sl.pending) + Over(sl.todo) + Over(sl.failed)
  }

  predicate SlotOk(sl: Slot, flushing: bool) {
    && Fair(sl.pending) && Fair(sl.todo) && Fair(sl.failed)
    && (!flushing ==> sl.todo.None? && sl.failed.None?) && (sl.todo.Some? ==> sl.failed.None?)
    && sl.acct.live >= 0.0 && sl.acct.settledOver >= 0.0 && sl.acct.lostOver >= 0.0
    && ReservedDrift(sl) >= 0.0
    && 0.0 - SpendDrift(sl) - ReservedDrift(sl) <= sl.acct.lostOver
    && (sl.row.cap.Some? ==> sl.row.spend + sl.row.reserved <= Ceiling(sl) + sl.acct.settledOver)
  }

  predicate Inv(s: State) {
    MASTER !in s.slots && forall k :: k in s.slots ==> SlotOk(s.slots[k], s.flushing)
  }

  /** A process start: nothing buffered, reservations reclaimed, no history. */
  predicate Init(s: State) {
    && MASTER !in s.slots && !s.flushing
    && forall k :: k in s.slots ==>
         var sl := s.slots[k];
         && sl.pending.None? && sl.todo.None? && sl.failed.None? && sl.row.reserved == 0.0
         && sl.acct == Account(sl.row.spend, 0.0, 0.0, 0.0, 0.0)
  }

  lemma AdmissionKeepsSlot(sl: Slot, flushing: bool, amount: real)
    requires SlotOk(sl, flushing)
    ensures SlotOk(Reserved(sl, amount), flushing)
    ensures amount <= sl.acct.live ==> SlotOk(Released(sl, amount), flushing)
    ensures SlotOk(TruedUp(sl, amount), flushing)
  {
  }

  lemma ChargeKeepsSlot(sl: Slot, flushing: bool, cost: real, reserved: real)
    requires SlotOk(sl, flushing) && MaxReal(0.0, reserved) <= sl.acct.live
    ensures SlotOk(Charged(sl, cost, reserved), flushing)
  {
  }

  /** The clamp at zero in the settling UPDATE never discards anything. */
  lemma ClampIdle(sl: Slot)
    requires SlotOk(sl, true) && sl.todo.Some?
    ensures Written(sl.row, sl.todo.value).reserved == sl.row.reserved - sl.todo.value.reserved
  {
  }

  lemma SettleKeepsSlot(sl: Slot, ok: bool)
    requires SlotOk(sl, true) && sl.todo.Some?
    ensures SlotOk(Settled(sl, ok), true)
  {
    ClampIdle(sl);
  }

  lemma TakeKeepsSlot(sl: Slot)
    requires SlotOk(sl, false)
    ensures SlotOk(Taken(sl), true) && SlotOk(sl, true)
  {
  }

  lemma MergeKeepsSlot(sl: Slot)
    requires SlotOk(sl, true) && sl.todo.None?
    ensures SlotOk(MergedBack(sl), false)
  {
  }

  lemma DropKeepsSlot(sl: Slot)
    requires SlotOk(sl, true)
    ensures SlotOk(Dropped(sl), false)
  {
  }

  lemma EffectKeepsSlot(s: State, e: Event, k: Key)
    requires Inv(s) && Enabled(s, e) && k in s.slots
    ensures SlotOk(Effect(s, e, k), Next(s, e).flushing)
  {
    var sl := s.slots[k];
    assert SlotOk(sl, s.flushing);
    match e {
      case Reserve(_, amount) => AdmissionKeepsSlot(sl, s.flushing, amount);
      case Release(_, amount) => AdmissionKeepsSlot(sl, s.flushing, amount);
      case TrueUp(_, cost) => AdmissionKeepsSlot(sl, s.flushing, cost);
      case Charge(g, cost, reserved) =>
        if g == k {
          ChargeKeepsSlot(sl, s.flushing, cost, reserved);
        }
      case Settle(g, ok) =>
        if g == k {
          SettleKeepsSlot(sl, ok);
        }
      case FlushBegin(only) =>
        TakeKeepsSlot(sl);
        if !TakesSomething(s, only) && (only.None? || only.value == k) {
          assert sl.pending.None?;
        }
      case FlushEnd => MergeKeepsSlot(sl);
      case FlushCancelled => DropKeepsSlot(sl);
    }
  }

  lemma StepKeepsInv(s: State, e: Event)
    requires Inv(s) && Enabled(s, e)
    ensures Inv(Next(s, e))
  {
    forall k | k in s.slots ensures SlotOk(Next(s, e).slots[k], Next(s, e).flushing) {
      EffectKeepsSlot(s, e, k);
    }
  }

  lemma InitEstablishesInv(s: State)
    requires Init(s)
    ensures Inv(s)
  {
    forall k | k in s.slots ensures SlotOk(s.slots[k], s.flushing) {
    }
  }

  // ---- conservation ---------------------------------------------------------------------

  /** Money leaves the books: a flush killed with costs in hand, or a negative batch settled. */
  predicate MovesSpend(s: State, e: Event, k: Key)
    requires Enabled(s, e) && k in s.slots
  {
    var sl := s.slots[k];
    || (e.FlushCancelled? && Cost(sl.todo) + Cost(sl.failed) != 0.0)
    || (e.Settle? && e.k == k && e.ok && sl.todo.value.cost < 0.0)
  }

  predicate StrandsReservation(s: State, e: Event, k: Key)
    requires Enabled(s, e) && k in s.slots
  {
    e.FlushCancelled? && Held(s.slots[k].todo) + Held(s.slots[k].failed) != 0.0
  }

  lemma ConservationStep(s: State, e: Event, k: Key)
    requires Inv(s) && Enabled(s, e) && k in s.slots
    ensures SpendDrift(Effect(s, e, k)) == SpendDrift(s.slots[k]) <==> !MovesSpend(s, e, k)
    ensures ReservedDrift(Effect(s, e, k)) == ReservedDrift(s.slots[k]) <==> !StrandsReservation(s, e, k)
  {
    assert SlotOk(s.slots[k], s.flushing);
    if e.Settle? && e.k == k {
      ClampIdle(s.slots[k]);
    }
  }

  predicate EverMovesSpend(s: State, es: seq<Event>, k: Key)
    requires EnabledRun(s, es) && k in s.slots
    decreases |es|
  {
    es != [] && (MovesSpend(s, es[0], k) || EverMovesSpend(Next(s, es[0]), es[1..], k))
  }

  predicate EverStrandsReservation(s: State, es: seq<Event>, k: Key)
    requires EnabledRun(s, es) && k in s.slots
    decreases |es|
  {
    es != [] && (StrandsReservation(s, es[0], k) || EverStrandsReservation(Next(s, es[0]), es[1..], k))
  }

  /**
   At every point of every run: what was charged is what the table gained plus what is
   pending plus the batch in progress, and the table's reservations are those of running
   requests plus the unflushed ones; charges that arrive during a flush and settles that
   raise included.
   */
  lemma {:induction false} Conservation(s: State, es: seq<Event>, k: Key)
    requires Inv(s) && EnabledRun(s, es) && k in s.slots
    ensures Inv(Run(s, es))
    ensures !EverMovesSpend(s, es, k) ==> SpendDrift(Run(s, es).slots[k]) == SpendDrift(s.slots[k])
    ensures !EverStrandsReservation(s, es, k) ==> ReservedDrift(Run(s, es).slots[k]) == ReservedDrift(s.slots[k])
    decreases |es|
  {
    if es != [] {
      StepKeepsInv(s, es[0]);
      ConservationStep(s, es[0], k);
      Conservation(Next(s, es[0]), es[1..], k);
    }
  }

  /** One charge, and a flush cancelled with it in hand: the money is in no book any more. */
  lemma CancelledFlushLosesCharge(s: State, k: Key, cost: real)
    requires Init(s) && k in s.slots && cost > 0.0
    ensures exists es :: EnabledRun(s, es) && SpendDrift(Run(s, es).slots[k]) == 0.0 - cost
  {
    ThreeStepsLose(s, k, cost);
    ThreeSteps(s, Charge(k, cost, 0.0), FlushBegin(Some(k)), FlushCancelled);
  }

  lemma ThreeStepsLose(s: State, k: Key, cost: real)
    requires Init(s) && k in s.slots && cost > 0.0
    ensures Enabled(s, Charge(k, cost, 0.0))
    ensures var s1 := Next(s, Charge(k, cost, 0.0));
            var s2 := Next(s1, FlushBegin(Some(k)));
            s2.flushing && SpendDrift(Next(s2, FlushCancelled).slots[k]) == 0.0 - cost
  {
    var s1 := Next(s, Charge(k, cost, 0.0));
    assert s1.slots[k] == Charged(s.slots[k], cost, 0.0);
    assert TakesSomething(s1, Some(k));
    var s2 := Next(s1, FlushBegin(Some(k)));
    assert s2.slots[k] == Taken(s1.slots[k]);
    assert Next(s2, FlushCancelled).slots[k] == Dropped(s2.slots[k]);
  }

  lemma ThreeSteps(s: State, a: Event, b: Event, c: Event)
    requires Enabled(s, a) && Enabled(Next(s, a), b) && Enabled(Next(Next(s, a), b), c)
    ensures EnabledRun(s, [a, b, c]) && Run(s, [a, b, c]) == Next(Next(Next(s, a), b), c)
  {
    var s1 := Next(s, a);
    var s2 := Next(s1, b);
    OneStep(s2, c, []);
    OneStep(s1, b, [c]);
    OneStep(s, a, [b, c]);
    assert [a] + [b, c] == [a, b, c] && [b] + [c] == [b, c] && [c] + [] == [c];
  }

  lemma OneStep(s: State, e: Event, rest: seq<Event>)
    requires Enabled(s, e) && EnabledRun(Next(s, e), rest)
    ensures EnabledRun(s, [e] + rest) && Run(s, [e] + rest) == Run(Next(s, e), rest)
  {
    var es := [e] + rest;
    assert es[0] == e && es[1..] == rest;
  }

  // ---- the budget bound -----------------------------------------------------------------

  /** The excess of the charges and corrections a run makes to `k`. */
  function ExcessOf(es: seq<Event>, k: Key): (x: real)
    ensures x >= 0.0
  {
    if es == [] then 0.0
    else (match es[0]
          case Charge(g, cost, reserved) => if g == k then Excess(cost, reserved) else 0.0
          case TrueUp(g, cost) => if g == k then MaxReal(0.0, cost) else 0.0
          case _ => 0.0) + ExcessOf(es[1..], k)
  }

  lemma OverrunStep(s: State, e: Event, k: Key)
    requires Inv(s) && Enabled(s, e) && k in s.slots
    ensures Overrun(Effect(s, e, k)) == Overrun(s.slots[k]) + ExcessOf([e], k)
  {
    assert SlotOk(s.slots[k], s.flushing);
    assert [e][1..] == [];
  }

  lemma {:induction false} OverrunIsExcess(s: State, es: seq<Event>, k: Key)
    requires Inv(s) && EnabledRun(s, es) && k in s.slots
    ensures Overrun(Run(s, es).slots[k]) == Overrun(s.slots[k]) + ExcessOf(es, k)
    decreases |es|
  {
    if es != [] {
      StepKeepsInv(s, es[0]);
      OverrunStep(s, es[0], k);
      assert ExcessOf([es[0]][1..], k) == 0.0;
      OverrunIsExcess(Next(s, es[0]), es[1..], k);
    }
  }

  lemma {:induction false} CapsAreFixed(s: State, es: seq<Event>, k: Key)
    requires EnabledRun(s, es) && k in s.slots
    ensures var n := Run(s, es).slots[k];
            n.row.cap == s.slots[k].row.cap && n.acct.opening == s.slots[k].acct.opening
    decreases |es|
  {
    if es != [] {
      CapsAreFixed(Next(s, es[0]), es[1..], k);
    }
  }

  /**
   The quantitative bound, over every run from a start: neither what the table holds for a
   capped key, nor what was really charged plus what running requests still hold, exceeds
   cap (or opening spend) by more than the charges exceeded their own reservations.
   */
  lemma BudgetBound(s: State, es: seq<Event>, k: Key)
    requires Init(s) && EnabledRun(s, es) && k in s.slots && s.slots[k].row.cap.Some?
    ensures var n := Run(s, es).slots[k];
            var limit := Ceiling(s.slots[k]) + ExcessOf(es, k);
            n.row.spend + n.row.reserved <= limit && n.acct.opening + n.acct.charged + n.acct.live <= limit
  {
    SlotAfterRun(s, es, k);
  }

  // ---- the ledger that settles at once ----------------------------------------------------

  /** A ledger without a buffer: a charge is spend, and releases its reservation, immediately. */
  datatype Immediate = Immediate(spend: real, reserved: real)

  function ImmediateStep(m: Immediate, e: Event, k: Key, accepted: bool): Immediate {
    match e
    case Reserve(g, amount) =>
      if g == k && amount > 0.0 && accepted then m.(reserved := m.reserved + amount) else m
    case Release(g, amount) => if g == k && amount > 0.0 then m.(reserved := m.reserved - amount) else m
    case Charge(g, cost, reserved) =>
      if g == k && !Ignored(cost, reserved) then Immediate(m.spend + cost, m.reserved - MaxReal(0.0, reserved)) else m
    case TrueUp(g, cost) => if g == k && cost > 0.0 then m.(spend := m.spend + cost) else m
    case _ => m
  }

  /** The same run on the ledger without a buffer, reserving whatever the table accepted. */
  function ImmediateRun(s: State, es: seq<Event>, k: Key, m: Immediate): Immediate
    requires EnabledRun(s, es) && k in s.slots
    decreases |es|
  {
    if es == [] then m
    else
      var accepted := es[0].Reserve? ==> Accepts(s.slots[k].row, es[0].amount);
      ImmediateRun(Next(s, es[0]), es[1..], k, ImmediateStep(m, es[0], k, accepted))
  }

  function Shadow(sl: Slot): Immediate {
    Immediate(sl.acct.opening + sl.acct.charged, sl.acct.live)
  }

  lemma ShadowStep(s: State, e: Event, k: Key)
    requires Inv(s) && Enabled(s, e) && k in s.slots
    ensures Shadow(Effect(s, e, k))
         == ImmediateStep(Shadow(s.slots[k]), e, k, e.Reserve? ==> Accepts(s.slots[k].row, e.amount))
  {
    assert SlotOk(s.slots[k], s.flushing);
  }

  lemma {:induction false} ShadowIsImmediate(s: State, es: seq<Event>, k: Key)
    requires Inv(s) && EnabledRun(s, es) && k in s.slots
    ensures Shadow(Run(s, es).slots[k]) == ImmediateRun(s, es, k, Shadow(s.slots[k]))
    decreases |es|
  {
    if es != [] {
      StepKeepsInv(s, es[0]);
      ShadowStep(s, es[0], k);
      ShadowIsImmediate(Next(s, es[0]), es[1..], k);
    }
  }

  /**
   Buffering is conservative. After any run, a reservation the table accepts is one the
   unbuffered ledger, run on the same steps, would also have accepted with a cap raised by
   the excess so far; so when every charge stays within its reservation, the very same cap.
   */
  lemma BufferedSimulatesImmediate(s: State, es: seq<Event>, k: Key, amount: real)
    requires Init(s) && EnabledRun(s, es) && k in s.slots && s.slots[k].row.cap.Some?
    requires Accepts(Run(s, es).slots[k].row, amount)
    ensures var m := ImmediateRun(s, es, k, Immediate(s.slots[k].row.spend, 0.0));
            m.spend + m.reserved + amount <= s.slots[k].row.cap.value + ExcessOf(es, k)
  {
    InitEstablishesInv(s);
    FreshShadow(s, k);
    ShadowIsImmediate(s, es, k);
    var n := Run(s, es);
    SlotAfterRun(s, es, k);
    AcceptedInShadow(n.slots[k], n.flushing, amount);
  }

  lemma FreshShadow(s: State, k: Key)
    requires Init(s) && k in s.slots
    ensures Shadow(s.slots[k]) == Immediate(s.slots[k].row.spend, 0.0) && Overrun(s.slots[k]) == 0.0
  {
  }

  lemma SlotAfterRun(s: State, es: seq<Event>, k: Key)
    requires Init(s) && EnabledRun(s, es) && k in s.slots
    ensures var n := Run(s, es);
            && SlotOk(n.slots[k], n.flushing) && n.slots[k].row.cap == s.slots[k].row.cap
            && n.slots[k].acct.opening == s.slots[k].acct.opening && Overrun(n.slots[k]) == ExcessOf(es, k)
  {
    InitEstablishesInv(s);
    FreshShadow(s, k);
    Conservation(s, es, k);
    OverrunIsExcess(s, es, k);
    CapsAreFixed(s, es, k);
  }

  /** What the table accepts fits the shadow ledger under a cap raised by the slot's overrun. */
  lemma AcceptedInShadow(sl: Slot, flushing: bool, amount: real)
    requires SlotOk(sl, flushing) && sl.row.cap.Some? && Accepts(sl.row, amount)
    ensures Shadow(sl).spend + Shadow(sl).reserved + amount <= sl.row.cap.value + Overrun(sl)
  {
  }

  // ---- who gets a reservation ---------------------------------------------------------------

  /**
   In every state whatsoever: a positive reservation is granted exactly to an enabled key that
   has no cap or headroom for it under the cap; then it raises the reserved column by exactly
   the amount, otherwise it changes nothing, and in no case another key or the spend.
   */
  lemma ReservesExactly(s: State, k: Key, amount: real)
    requires k in s.slots && k != MASTER && amount > 0.0
    ensures var row, n := s.slots[k].row, Next(s, Reserve(k, amount));
            && (if !row.disabled && (row.cap.Some? ==> row.spend + row.reserved + amount <= row.cap.value) then
                  && n.slots[k].row == row.(reserved := row.reserved + amount)
                  && n.slots[k].acct == s.slots[k].acct.(live := s.slots[k].acct.live + amount)
                else n.slots[k] == s.slots[k])
            && (forall g :: g in s.slots && g != k ==> n.slots[g] == s.slots[g])
  {
  }

  /**
   The other steps of a key, to the cent. A charge moves its cost and its reservation into the
   pending batch; a release lowers the reserved column and a correction raises the spend by
   exactly the amount; a batch settles for exactly what was charged and held, in one statement.
   */
  lemma MovesExactly(s: State, k: Key, amount: real, cost: real, reserved: real)
    requires Inv(s) && k in s.slots
    ensures var sl, n := s.slots[k], Effect(s, TrueUp(k, cost), k);
            n == if cost > 0.0 then sl.(row := sl.row.(spend := sl.row.spend + cost), acct := n.acct) else sl
    ensures 0.0 < amount <= s.slots[k].acct.live ==>
              var sl, n := s.slots[k], Effect(s, Release(k, amount), k);
              && n == sl.(row := sl.row.(reserved := sl.row.reserved - amount), acct := n.acct)
              && n.acct.live == sl.acct.live - amount
    ensures Enabled(s, Charge(k, cost, reserved)) ==>
              var sl, n := s.slots[k], Effect(s, Charge(k, cost, reserved), k);
              var held := if reserved > 0.0 then reserved else 0.0;
              if cost > 0.0 || reserved > 0.0 then
                && n == sl.(pending := n.pending, acct := n.acct) && n.pending.Some?
                && n.pending.value.cost == cost + (if sl.pending.Some? then sl.pending.value.cost else 0.0)
                && n.pending.value.requests == 1 + (if sl.pending.Some? then sl.pending.value.requests else 0)
                && n.pending.value.reserved == held + (if sl.pending.Some? then sl.pending.value.reserved else 0.0)
                && n.pending.value.over == (if cost > held then cost - held else 0.0)
                                           + (if sl.pending.Some? then sl.pending.value.over else 0.0)
                && n.acct.charged == sl.acct.charged + cost && n.acct.live == sl.acct.live - held
              else n == sl
  {
    assert SlotOk(s.slots[k], s.flushing);
  }

  lemma SettlesExactly(s: State, k: Key)
    requires Inv(s) && Enabled(s, Settle(k, true))
    ensures var sl, b, n := s.slots[k], s.slots[k].todo.value, Effect(s, Settle(k, true), k);
            && n.todo.None? && n.pending == sl.pending && n.failed == sl.failed
            && n.row.spend == sl.row.spend + (if b.cost > 0.0 then b.cost else 0.0)
            && n.row.reserved == sl.row.reserved - b.reserved
            && n.row.cap == sl.row.cap && n.row.disabled == sl.row.disabled
  {
    assert SlotOk(s.slots[k], s.flushing);
    ClampIdle(s.slots[k]);
  }

  /** A key whose row is disabled gains no reservation over any run. */
  lemma {:induction false} DisabledStaysPut(s: State, es: seq<Event>, k: Key)
    requires EnabledRun(s, es) && k in s.slots && s.slots[k].row.disabled
    ensures Run(s, es).slots[k].row.disabled && Run(s, es).slots[k].acct.live <= s.slots[k].acct.live
    decreases |es|
  {
    if es != [] {
      DisabledStaysPut(Next(s, es[0]), es[1..], k);
    }
  }

  // ---- the cached figures -----------------------------------------------------------------

  /** The two figures of a credential that admission and `charge` read. */
  datatype Figures = Figures(spend: real, reserved: real)

  function Looked(r: Row): Figures {
    Figures(r.spend, r.reserved)
  }

  /**
   What a step does to the figures of a cached credential of `k`; `mine` says that a charge
   is made through this object and not through one that an earlier lookup returned.
   */
  function Cached(f: Figures, s: State, e: Event, k: Key, mine: bool): Figures
    requires k in s.slots
  {
    match e
    case Reserve(g, amount) =>
      if g == k && amount > 0.0 && Accepts(s.slots[k].row, amount) then f.(reserved := f.reserved + amount) else f
    case Release(g, amount) =>
      if g == k && amount > 0.0 then f.(reserved := MaxReal(f.reserved - amount, 0.0)) else f
    case Charge(g, cost, reserved) =>
      if g != k || !mine || Ignored(cost, reserved) then f
      else Figures(f.spend + cost, if reserved > 0.0 then MaxReal(0.0, f.reserved - reserved) else f.reserved)
    case TrueUp(g, cost) => if g == k && cost > 0.0 then f.(spend := f.spend + cost) else f
    case _ => f
  }

  function Moved(f: Figures, s: State, e: Event, k: Key): Figures
    requires k == MASTER || k in s.slots
  {
    if k == MASTER then f else Cached(f, s, e, k, true)
  }

  /** How far the cached figures are from what was spent and what running requests hold. */
  function SpendGap(f: Figures, sl: Slot): real {
    f.spend - sl.row.spend - Unwritten(sl)
  }

  function ReservedGap(f: Figures, sl: Slot): real {
    f.reserved - sl.row.reserved + Unreleased(sl)
  }

  /** What charges through other objects cost, and released. */
  function MissedCost(e: Event, k: Key, mine: bool): real {
    if e.Charge? && e.k == k && !mine && !Ignored(e.cost, e.reserved) then e.cost else 0.0
  }

  function MissedHeld(e: Event, k: Key, mine: bool): real {
    if e.Charge? && e.k == k && !mine then MaxReal(0.0, e.reserved) else 0.0
  }

  lemma CachedStep(f: Figures, s: State, e: Event, k: Key, mine: bool)
    requires Inv(s) && Enabled(s, e) && k in s.slots && ReservedGap(f, s.slots[k]) >= 0.0
    ensures var after, sl := Cached(f, s, e, k, mine), Effect(s, e, k);
            && (!MovesSpend(s, e, k) ==> SpendGap(after, sl) == SpendGap(f, s.slots[k]) - MissedCost(e, k, mine))
            && (!StrandsReservation(s, e, k) ==>
                  ReservedGap(after, sl) == ReservedGap(f, s.slots[k]) + MissedHeld(e, k, mine))
    ensures mine ==> MissedCost(e, k, mine) == 0.0 && MissedHeld(e, k, mine) == 0.0
  {
    assert SlotOk(s.slots[k], s.flushing);
    if e.Settle? && e.k == k {
      ClampIdle(s.slots[k]);
    }
  }

  function CachedAfter(f: Figures, s: State, es: seq<Event>, k: Key, mine: seq<bool>): Figures
    requires EnabledRun(s, es) && k in s.slots && |mine| == |es|
    decreases |es|
  {
    if es == [] then f else CachedAfter(Cached(f, s, es[0], k, mine[0]), Next(s, es[0]), es[1..], k, mine[1..])
  }

  function AllMissedCost(es: seq<Event>, k: Key, mine: seq<bool>): real
    requires |mine| == |es|
  {
    if es == [] then 0.0 else MissedCost(es[0], k, mine[0]) + AllMissedCost(es[1..], k, mine[1..])
  }

  function AllMissedHeld(es: seq<Event>, k: Key, mine: seq<bool>): real
    requires |mine| == |es|
  {
    if es == [] then 0.0 else MissedHeld(es[0], k, mine[0]) + AllMissedHeld(es[1..], k, mine[1..])
  }

  lemma {:induction false} GapsOverRuns(f: Figures, s: State, es: seq<Event>, k: Key, mine: seq<bool>)
    requires Inv(s) && EnabledRun(s, es) && k in s.slots && |mine| == |es| && ReservedGap(f, s.slots[k]) >= 0.0
    requires !EverMovesSpend(s, es, k) && !EverStrandsReservation(s, es, k)
    ensures var after, sl := CachedAfter(f, s, es, k, mine), Run(s, es).slots[k];
            && SpendGap(after, sl) == SpendGap(f, s.slots[k]) - AllMissedCost(es, k, mine)
            && ReservedGap(after, sl) == ReservedGap(f, s.slots[k]) + AllMissedHeld(es, k, mine)
    decreases |es|
  {
    if es != [] {
      StepKeepsInv(s, es[0]);
      CachedStep(f, s, es[0], k, mine[0]);
      GapsOverRuns(Cached(f, s, es[0], k, mine[0]), Next(s, es[0]), es[1..], k, mine[1..]);
    }
  }

  /**
   Zero lag, exactly. Over every run without a leak, the cached spend falls short of the
   money spent by what was still buffered when the credential was looked up and by what was
   charged through older objects; so it is exact if and only if these come to nothing. The
   cached reservations exceed those of running requests by the like.
   */
  lemma CachedSpendExactly(s: State, es: seq<Event>, k: Key, mine: seq<bool>)
    requires Inv(s) && EnabledRun(s, es) && k in s.slots && |mine| == |es|
    requires !EverMovesSpend(s, es, k) && !EverStrandsReservation(s, es, k)
    ensures var f, sl := CachedAfter(Looked(s.slots[k].row), s, es, k, mine), Run(s, es).slots[k];
            && (f.spend == sl.row.spend + Unwritten(sl) <==> Unwritten(s.slots[k]) + AllMissedCost(es, k, mine) == 0.0)
            && f.reserved == sl.row.reserved - Unreleased(sl) + Unreleased(s.slots[k]) + AllMissedHeld(es, k, mine)
  {
    assert SlotOk(s.slots[k], s.flushing);
    GapsOverRuns(Looked(s.slots[k].row), s, es, k, mine);
  }

  // ---- the buffer and the table behind it -------------------------------------------------

  /** A credential as a lookup returned it; one of each key is cached and adjusted in place. */
  class AuthInfo {
    const keyId: Key
    const cap: Option<real>
    var spendToDate: real
    var budgetReserved: real

    constructor (keyId: Key, cap: Option<real>, spend: real, reserved: real)
      ensures this.keyId == keyId && this.cap == cap && spendToDate == spend && budgetReserved == reserved
    {
      this.keyId, this.cap, spendToDate, budgetReserved := keyId, cap, spend, reserved;
    }

    function Now(): Figures
      reads this
    {
      Figures(spendToDate, budgetReserved)
    }
  }

  function Get<V>(m: map<Key, V>, k: Key): Option<V> {
    if k in m then Some(m[k]) else None
  }

  class SpendBuffer {
    var rows: map<Key, Row>
    var pending: map<Key, Batch>
    // The locals of a flush in progress: the batch still to settle, and what failed.
    var flushing: bool
    var todo: map<Key, Batch>
    var failed: map<Key, Batch>
    ghost var accounts: map<Key, Account>

    ghost predicate Valid()
      reads this
    {
      && accounts.Keys == rows.Keys && MASTER !in rows
      && pending.Keys <= rows.Keys && todo.Keys <= rows.Keys && failed.Keys <= rows.Keys
    }

    ghost function SlotAt(k: Key): Slot
      requires Valid() && k in rows
      reads this
    {
      Slot(rows[k], accounts[k], Get(pending, k), Get(todo, k), Get(failed, k))
    }

    ghost function Abs(): State
      requires Valid()
      reads this
    {
      State(map k | k in rows :: SlotAt(k), flushing)
    }

    constructor (rows: map<Key, Row>)
      requires MASTER !in rows && forall k :: k in rows ==> rows[k].reserved == 0.0
      ensures Valid() && Init(Abs())
    {
      this.rows, pending, todo, failed, flushing := rows, map[], map[], map[], false;
      accounts := map k | k in rows :: Account(rows[k].spend, 0.0, 0.0, 0.0, 0.0);
    }

    /** The key's cached credential, if any, moves along; after a refusal it is evicted. */
    method ReserveBudget(k: Key, amount: real, cached: AuthInfo?) returns (ok: bool, left: AuthInfo?)
      requires Valid() && Enabled(Abs(), Reserve(k, amount))
      modifies this, cached
      ensures Valid() && Abs() == Next(old(Abs()), Reserve(k, amount))
      ensures ok <==> || k == MASTER || amount <= 0.0
                      || (!old(rows)[k].disabled
                          && (old(rows)[k].cap.Some? ==>
                                old(rows)[k].spend + old(rows)[k].reserved + amount <= old(rows)[k].cap.value))
      ensures left == if ok then cached else null
      ensures cached != null ==> cached.Now() == Moved(old(cached.Now()), old(Abs()), Reserve(k, amount), k)
    {
      if k == MASTER || amount <= 0.0 {
        return true, cached;
      }
      ghost var s := Abs();
      var r := rows[k];
      if r.disabled || (r.cap.Some? && r.spend + r.reserved + amount > r.cap.value) {
        assert s.slots == Next(s, Reserve(k, amount)).slots;
        return false, null;
      }
      rows := rows[k := r.(reserved := r.reserved + amount)];
      accounts := accounts[k := accounts[k].(live := accounts[k].live + amount)];
      assert Abs().slots == Next(s, Reserve(k, amount)).slots;
      if cached != null {
        cached.budgetReserved := cached.budgetReserved + amount;
      }
      return true, cached;
    }

    method ReleaseBudgetReservation(k: Key, amount: real, cached: AuthInfo?)
      requires Valid() && Enabled(Abs(), Release(k, amount))
      modifies this, cached
      ensures Valid() && Abs() == Next(old(Abs()), Release(k, amount))
      ensures cached != null ==> cached.Now() == Moved(old(cached.Now()), old(Abs()), Release(k, amount), k)
    {
      if cached != null && k != MASTER && amount > 0.0 {
        cached.budgetReserved := MaxReal(cached.budgetReserved - amount, 0.0);
      }
      if k == MASTER || amount <= 0.0 {
        return;
      }
      rows := rows[k := rows[k].(reserved := MaxReal(rows[k].reserved - amount, 0.0))];
      accounts := accounts[k := accounts[k].(live := accounts[k].live - amount)];
    }

    method ApplySpendTrueup(k: Key, cost: real, cached: AuthInfo?)
      requires Valid() && Enabled(Abs(), TrueUp(k, cost))
      modifies this, cached
      ensures Valid() && Abs() == Next(old(Abs()), TrueUp(k, cost))
      ensures cached != null ==> cached.Now() == Moved(old(cached.Now()), old(Abs()), TrueUp(k, cost), k)
    {
      if cached != null && k != MASTER && cost > 0.0 {
        cached.spendToDate := cached.spendToDate + cost;
      }
      if k == MASTER || cost <= 0.0 {
        return;
      }
      rows := rows[k := rows[k].(spend := rows[k].spend + cost)];
      var a := accounts[k];
      accounts := accounts[k := a.(charged := a.charged + cost, settledOver := a.settledOver + cost)];
    }

    method ChargeKey(info: AuthInfo, cost: real, reserved: real) returns (recorded: bool)
      requires Valid() && Enabled(Abs(), Charge(info.keyId, cost, reserved))
      modifies this, info
      ensures Valid() && Abs() == Next(old(Abs()), Charge(info.keyId, cost, reserved))
      ensures info.keyId != MASTER && (cost > 0.0 || reserved > 0.0) ==>
                info.spendToDate == old(info.spendToDate) + cost
      ensures recorded <==> info.keyId == MASTER || Ignored(cost, reserved) || info.cap.None?
                            || old(info.spendToDate) + cost <= info.cap.value
      ensures info.Now() == Moved(old(info.Now()), old(Abs()), Charge(info.keyId, cost, reserved), info.keyId)
    {
      if info.keyId == MASTER {
        return true;
      }
      if cost <= 0.0 && reserved <= 0.0 {
        return true;
      }
      recorded := info.cap.None? || info.spendToDate + cost <= info.cap.value;
      info.spendToDate := info.spendToDate + cost;
      if reserved > 0.0 {
        info.budgetReserved := MaxReal(0.0, info.budgetReserved - reserved);
      }
      Bill(info.keyId, cost, reserved);
    }

    /** The ledger half of `charge`: the buffer entry. */
    method Bill(k: Key, cost: real, reserved: real)
      requires Valid() && k != MASTER && Enabled(Abs(), Charge(k, cost, reserved)) && !Ignored(cost, reserved)
      modifies this
      ensures Valid() && Abs() == Next(old(Abs()), Charge(k, cost, reserved))
    {
      var charge := Batch(cost, MaxReal(0.0, reserved), 1, Excess(cost, reserved));
      pending := pending[k := if k in pending then Plus(pending[k], charge) else charge];
      var a := accounts[k];
      accounts := accounts[k := a.(charged := a.charged + cost, live := a.live - charge.reserved)];
    }

    method BeginFlush(only: Option<Key>)
      requires Valid() && Inv(Abs()) && Enabled(Abs(), FlushBegin(only))
      modifies this
      ensures Valid() && Abs() == Next(old(Abs()), FlushBegin(only))
    {
      ghost var s := Abs();
      assert todo == map[] && failed == map[] by {
        forall k | k in rows ensures k !in todo && k !in failed {
          assert SlotOk(s.slots[k], false);
        }
      }
      var batch := map[];
      if only.Some? {
        if only.value in pending {
          batch := map[only.value := pending[only.value]];
          pending := pending - {only.value};
        }
      } else {
        batch := pending;
        pending := map[];
      }
      if batch != map[] {
        todo, flushing := batch, true;
        HasInt(batch.Keys);
        var k :| k in batch;
        assert s.slots[k].pending.Some?;
      } else {
        assert !TakesSomething(s, only);
      }
      assert Abs().slots == Next(s, FlushBegin(only)).slots;
    }

    method SettleSpend(k: Key, ok: bool)
      requires Valid() && Enabled(Abs(), Settle(k, ok))
      modifies this
      ensures Valid() && Abs() == Next(old(Abs()), Settle(k, ok))
    {
      ghost var s := Abs();
      var b := todo[k];
      todo := todo - {k};
      if !ok {
        failed := failed[k := b];
      } else {
        if !Ignored(b.cost, b.reserved) {
          var r := rows[k];
          rows := rows[k := r.(spend := r.spend + MaxReal(0.0, b.cost),
                               reserved := MaxReal(r.reserved - MaxReal(0.0, b.reserved), 0.0))];
        }
        accounts := accounts[k := accounts[k].(settledOver := accounts[k].settledOver + b.over)];
      }
      assert Abs().slots == Next(s, Settle(k, ok)).slots;
    }

    method EndFlush()
      requires Valid() && Enabled(Abs(), FlushEnd)
      modifies this
      ensures Valid() && Abs() == Next(old(Abs()), FlushEnd)
    {
      ghost var s := Abs();
      var left := failed.Keys;
      while left != {}
        invariant Valid() && rows == old(rows) && accounts == old(accounts)
        invariant todo == old(todo) && failed == old(failed) && flushing
        invariant left <= failed.Keys
        invariant forall k :: k in rows ==>
          Get(pending, k) == if k in left then s.slots[k].pending else MergedBack(s.slots[k]).pending
        decreases left
      {
        HasInt(left);
        var k :| k in left;
        pending := pending[k := if k in pending then Plus(pending[k], failed[k]) else failed[k]];
        left := left - {k};
      }
      failed, flushing := map[], false;
      assert todo == map[] by {
        forall k | k in rows ensures k !in todo {
          assert s.slots[k].todo.None?;
        }
      }
      assert Abs().slots == Next(s, FlushEnd).slots;
    }
  }
}
