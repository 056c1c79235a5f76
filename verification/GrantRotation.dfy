/**
 Rotation of a single-use OAuth grant (wiwi/providers/cline_auto_refresh.py), for one
 provider; all dictionaries of the source are keyed by provider name and never mix.

 Code between two awaits is atomic, so one `Event` is one such segment, one reply of the
 upstream, one commit of the settings table, or the death of a task. Any number of callers
 (sweeper, 401 hook, admin endpoint) may be waiting for the lock, in any order.
 An access-token fingerprint is represented by the token itself.
 */
module GrantRotation {
  import opened Prelude
  import opened Circuits

  type Grant = int
  type Token = int

  const REFRESH_LEAD_S := 300.0
  const CIRCUIT_BASE_S := 300.0
  const CIRCUIT_CAP_S := 14400.0

  /** The stored OAuth record: refresh token, parsed expiry, fingerprint it last issued. */
  datatype Record = Record(grant: Grant, expires: Option<real>, owner: Option<Token>)

  /** A completed rotation: its record, the new access token, the keys' previous fingerprint. */
  datatype Rotation = Rotation(record: Record, access: Token, owned: Option<Token>)

  datatype Reply = Rotated(grant: Grant, access: Token, expires: real) | Transient | Rejected

  datatype Ticket = Refresh(gen: nat, requireDue: bool, force: bool) | Flush

  /**
   Where the lock holder is suspended; `landed` says the table already has the write, `left`
   which keys the loop that hands the new token out has still to assign.
   */
  datatype Phase =
    | Reading
    | Flushing(landed: bool)
    | StoringFlushed(rot: Rotation, left: seq<nat>)
    | Calling(rec: Record)
    | Answered(rec: Record, reply: Reply)
    | Writing(rot: Rotation, landed: bool)
    | StoringNew(rot: Rotation, left: seq<nat>)
  {
    predicate Storing() {
      StoringFlushed? || StoringNew?
    }
  }

  datatype Holder = Holder(id: nat, ticket: Ticket, phase: Phase)

  /**
   A grant presented to the upstream, and whether it was the live, never consumed one; on
   whose behalf (only a due record for a sweeper), of a record with which expiry, and when.
   */
  datatype Call = Call(grant: Grant, good: bool, requireDue: bool, expires: Option<real>, at: real)

  datatype State = State(
    generation: nat, pending: Option<Rotation>, breaker: Breaker,
    holder: Option<Holder>, waiting: map<nat, Ticket>,
    store: Option<Record>, keys: seq<Token>,
    live: Grant, used: set<Grant>, revoked: bool,
    calls: seq<Call>, rotations: seq<nat>)
  {
    function At(): Phase
      requires holder.Some?
    {
      holder.value.phase
    }
  }

  datatype Event =
    | ArriveRefresh(id: nat, requireDue: bool, force: bool)
    | ArriveFlush(id: nat)
    | Acquire(id: nat, now: real)
    | ReadReturns(now: real)
    | ReadRaises
    | WriteLands
    | WriteReturns(ok: bool, now: real)
    | KeyReturns(raised: bool, now: real)
    | Serve(answer: Reply)
    | LoseReply(next: Grant)
    | ReplyArrives(now: real)
    | Revoke
    | Cancel
    | Abandon(id: nat)

  // ---- the keys a rotation may overwrite ------------------------------------------------

  predicate IsTarget(keys: seq<Token>, owned: Option<Token>, i: nat)
    requires i < |keys|
  {
    match owned
    case None => true
    case Some(t) => if t in keys then keys[i] == t else i == 0
  }

  predicate Ascending(s: seq<nat>) {
    forall j, k :: 0 <= j < k < |s| ==> s[j] < s[k]
  }

  function Positions(n: nat): (all: seq<nat>)
    ensures |all| == n && (forall i: nat :: i < n ==> all[i] == i)
    ensures forall i: nat :: i in all <==> i < n
  {
    if n == 0 then [] else Positions(n - 1) + [n - 1]
  }

  /** Those of the first `n` keys that hold `t`, in pool order. */
  function Matching(keys: seq<Token>, t: Token, n: nat): (matches: seq<nat>)
    requires n <= |keys|
    ensures forall i: nat :: i in matches <==> i < n && keys[i] == t
    ensures Ascending(matches)
  {
    if n == 0 then []
    else
      var init := Matching(keys, t, n - 1);
      assert forall j :: 0 <= j < |init| ==> init[j] in init;
      if keys[n - 1] == t then init + [n - 1] else init
  }

  /** The keys a rotation overwrites, in the order it does. */
  function Targets(keys: seq<Token>, owned: Option<Token>): (targets: seq<nat>)
    ensures forall i: nat :: i in targets <==> i < |keys| && IsTarget(keys, owned, i)
    ensures Ascending(targets) && (targets != [] ==> targets[0] < |keys|)
  {
    var all := Positions(|keys|);
    if owned.None? || keys == [] then all
    else
      var matches := Matching(keys, owned.value, |keys|);
      if matches != [] then
        assert matches[0] in matches;
        matches
      else
        assert forall i: nat :: i < |keys| ==> i !in matches;
        assert all[..1] == [0];
        all[..1]
  }

  /** The pool once every target has the new token. */
  function Stored(keys: seq<Token>, owned: Option<Token>, secret: Token): (r: seq<Token>)
    ensures |r| == |keys|
  {
    seq(|keys|, i requires 0 <= i < |keys| => if IsTarget(keys, owned, i) then secret else keys[i])
  }

  // ---- the segments ---------------------------------------------------------------------

  predicate WithinLead(expires: real, now: real) {
    expires - now <= REFRESH_LEAD_S
  }

  predicate Due(rec: Record, now: real) {
    rec.expires.Some? && WithinLead(rec.expires.value, now)
  }

  function Release(s: State): State {
    s.(holder := None)
  }

  function Hold(s: State, phase: Phase): State
    requires s.holder.Some?
  {
    s.(holder := Some(s.holder.value.(phase := phase)))
  }

  /** The due check and the call that end `_refresh_locked`. */
  function TryRefresh(s: State, rec: Record, now: real): State
    requires s.holder.Some? && s.holder.value.ticket.Refresh?
  {
    if s.holder.value.ticket.requireDue && !Due(rec, now) then Release(s)
    else
      var call := Call(rec.grant, rec.grant == s.live && rec.grant !in s.used,
                       s.holder.value.ticket.requireDue, rec.expires, now);
      Hold(s, Calling(rec)).(calls := s.calls + [call])
  }

  function Acquired(s: State, id: nat, now: real): State
    requires id in s.waiting
  {
    var t := s.waiting[id];
    var s1 := s.(waiting := s.waiting - {id});
    match t
    case Flush =>
      if s.pending.None? then s1 else s1.(holder := Some(Holder(id, t, Flushing(false))))
    case Refresh(gen, _, force) =>
      if !force && Blocked(s.breaker, now) then s1
      else if s.generation != gen then s1
      else s1.(holder := Some(Holder(id, t, Reading)))
  }

  function AfterRead(s: State, now: real): State
    requires s.holder.Some? && s.holder.value.ticket.Refresh?
  {
    if s.store.None? then Release(s)
    else if s.pending.Some? then Hold(s, Flushing(false))
    else TryRefresh(s, s.store.value, now)
  }

  /** What follows a hand-out: generation, circuit, and a refresh if the flushed record is due. */
  function HandedOut(s: State, now: real): State
    requires s.holder.Some? && s.At().Storing() && (s.At().StoringNew? ==> s.holder.value.ticket.Refresh?)
  {
    var rec := s.At().rot.record;
    var s1 := s.(generation := s.generation + 1, breaker := FRESH);
    if s.At().StoringNew? then Release(s1).(rotations := s.rotations + [s.holder.value.ticket.gen])
    else if s.holder.value.ticket.Flush? then Release(s1)
    else if rec.expires.Some? && !WithinLead(rec.expires.value, now) then Release(s1)
    else TryRefresh(s1, rec, now)
  }

  /** One turn of the hand-out: the next key is assigned, then persisted in the background. */
  function HandNext(s: State, now: real): State
    requires s.holder.Some? && s.At().Storing() && (s.At().StoringNew? ==> s.holder.value.ticket.Refresh?)
    requires s.At().left != [] ==> s.At().left[0] < |s.keys|
  {
    var left := s.At().left;
    if left == [] then HandedOut(s, now)
    else Hold(s.(keys := s.keys[left[0] := s.At().rot.access]), s.At().(left := left[1..]))
  }

  function AllTargets(s: State, rot: Rotation): seq<nat> {
    Targets(s.keys, rot.owned)
  }

  /** The record write returned: the first key is assigned before anything else is awaited. */
  function AfterWrite(s: State, ok: bool, now: real): State
    requires s.holder.Some? && (s.At().Flushing? || s.At().Writing?)
    requires s.At().Flushing? ==> s.pending.Some?
    requires s.At().Writing? ==> s.holder.value.ticket.Refresh?
  {
    match s.At()
    case Flushing(_) =>
      var rot := s.pending.value;
      if !ok then Release(s)
      else HandNext(Hold(s, StoringFlushed(rot, AllTargets(s, rot))).(pending := None), now)
    case Writing(rot, _) =>
      if !ok then Release(s).(pending := Some(rot))
      else HandNext(Hold(s, StoringNew(rot, AllTargets(s, rot))), now)
  }

  function AfterReply(s: State, now: real): State
    requires s.holder.Some? && s.At().Answered?
  {
    var rec := s.At().rec;
    match s.At().reply
    case Transient => Release(s).(breaker := Tripped(s.breaker, CIRCUIT_BASE_S, CIRCUIT_CAP_S, now))
    case Rejected => Release(s).(breaker := s.breaker.(dead := true))
    case Rotated(g, a, x) =>
      Hold(s, Writing(Rotation(Record(g, Some(x), Some(a)), a, rec.owner), false))
  }

  /** The upstream rotates only for its live grant; a replacement was never issued before. */
  predicate Rotates(s: State, next: Grant) {
    && s.holder.Some? && s.At().Calling?
    && !s.revoked && s.At().rec.grant == s.live
    && next !in s.used
  }

  predicate Enabled(s: State, e: Event) {
    match e
    case ArriveRefresh(id, _, _) => id !in s.waiting
    case ArriveFlush(id) => id !in s.waiting
    case Acquire(id, _) => s.holder.None? && id in s.waiting
    case ReadReturns(_) => s.holder.Some? && s.At().Reading? && s.holder.value.ticket.Refresh?
    case ReadRaises => s.holder.Some? && s.At().Reading?
    case WriteLands =>
      || (s.holder.Some? && s.At() == Flushing(false) && s.pending.Some?)
      || (s.holder.Some? && s.At().Writing? && !s.At().landed)
    case WriteReturns(ok, _) =>
      && s.holder.Some? && (s.At().Flushing? || s.At().Writing?) && (ok ==> s.At().landed)
      && (s.At().Flushing? ==> s.pending.Some?)
      && (s.At().Writing? ==> s.holder.value.ticket.Refresh?)
    case KeyReturns(_, _) =>
      && s.holder.Some? && s.At().Storing()
      && (s.At().StoringNew? ==> s.holder.value.ticket.Refresh?)
      && (s.At().left != [] ==> s.At().left[0] < |s.keys|)
    case Serve(answer) =>
      && s.holder.Some? && s.At().Calling?
      && (match answer
          case Rotated(g, a, _) => Rotates(s, g) && a !in s.keys
          case Transient => true
          case Rejected => s.revoked || s.At().rec.grant != s.live)
    case LoseReply(next) => Rotates(s, next) && next != s.live
    case ReplyArrives(_) => s.holder.Some? && s.At().Answered?
    case Revoke => true
    case Cancel => s.holder.Some?
    case Abandon(id) => id in s.waiting
  }

  /** The upstream hands out `next`, consuming the live grant when it really rotates. */
  function Consume(s: State, next: Grant): State {
    if next == s.live then s else s.(used := s.used + {s.live}, live := next)
  }

  function Next(s: State, e: Event): State
    requires Enabled(s, e)
  {
    match e
    case ArriveRefresh(id, due, force) => s.(waiting := s.waiting[id := Refresh(s.generation, due, force)])
    case ArriveFlush(id) => s.(waiting := s.waiting[id := Flush])
    case Acquire(id, now) => Acquired(s, id, now)
    case ReadReturns(now) => AfterRead(s, now)
    case ReadRaises => Release(s)
    case WriteLands =>
      (match s.At()
       case Flushing(_) => Hold(s, Flushing(true)).(store := Some(s.pending.value.record))
       case Writing(rot, _) => Hold(s, Writing(rot, true)).(store := Some(rot.record)))
    case WriteReturns(ok, now) => AfterWrite(s, ok, now)
    case KeyReturns(raised, now) => if raised then Release(s) else HandNext(s, now)
    case Serve(answer) =>
      var s1 := Hold(s, Answered(s.At().rec, answer));
      if answer.Rotated? then Consume(s1, answer.grant) else s1
    case LoseReply(next) => Consume(Hold(s, Answered(s.At().rec, Transient)), next)
    case ReplyArrives(now) => AfterReply(s, now)
    case Revoke => s.(revoked := true)
    case Cancel => Release(s)
    case Abandon(id) => s.(waiting := s.waiting - {id})
  }

  predicate EnabledRun(s: State, es: seq<Event>)
    decreases |es|
  {
    es == [] || (Enabled(s, es[0]) && EnabledRun(Next(s, es[0]), es[1..]))
  }

  function Run(s: State, es: seq<Event>): State
    requires EnabledRun(s, es)
    decreases |es|
  {
    if es == [] then s else Run(Next(s, es[0]), es[1..])
  }

  // ---- when a grant is presented ----------------------------------------------------------

  /**
   A caller gets past the gate exactly if nobody rotated since it arrived and, unless it is
   forced, the circuit is neither dead nor open.
   */
  lemma GateExactly(s: State, id: nat, now: real)
    requires Enabled(s, Acquire(id, now)) && s.waiting[id].Refresh? && now >= 0.0
    ensures var t, n := s.waiting[id], Next(s, Acquire(id, now));
            && (n.holder.Some? <==>
                  && t.gen == s.generation
                  && (t.force || (!s.breaker.dead && (s.breaker.until.Some? ==> s.breaker.until.value <= now))))
            && (n.holder.Some? ==> n.holder.value == Holder(id, t, Reading)) && id !in n.waiting
  {
  }

  /** A flush takes the lock exactly if a rotation is pending, and starts by writing its record. */
  lemma FlushGateExactly(s: State, id: nat, now: real)
    requires Enabled(s, Acquire(id, now)) && s.waiting[id].Flush?
    ensures var n := Next(s, Acquire(id, now));
            n.holder == (if s.pending.Some? then Some(Holder(id, Flush, Flushing(false))) else None) && id !in n.waiting
  {
  }

  /** A pending rotation is written before anything is presented; without a record nothing is. */
  lemma PendingComesFirst(s: State, now: real)
    requires Enabled(s, ReadReturns(now)) && (s.store.None? || s.pending.Some?)
    ensures var n := Next(s, ReadReturns(now));
            && n.calls == s.calls
            && n.holder == if s.store.None? then None else Some(s.holder.value.(phase := Flushing(false)))
  {
  }

  /** A rejection kills the provider; a new grant goes to the record write with its token and expiry. */
  lemma ReplyDecidesExactly(s: State, now: real)
    requires Enabled(s, ReplyArrives(now)) && !s.At().reply.Transient?
    ensures var n, rec := Next(s, ReplyArrives(now)), s.At().rec;
            match s.At().reply
            case Rejected => n.holder.None? && n.breaker == s.breaker.(dead := true)
            case Rotated(g, a, x) =>
              && n.breaker == s.breaker
              && n.holder == Some(s.holder.value.(
                   phase := Writing(Rotation(Record(g, Some(x), Some(a)), a, rec.owner), false)))
  {
  }

  /** The hand-out of a rotation is through: its last key is written, or it had none to write. */
  predicate EndsHandOut(s: State, e: Event)
    requires Enabled(s, e)
  {
    || (e.KeyReturns? && !e.raised && s.At().left == [])
    || (e.WriteReturns? && e.ok && s.keys == [])
  }

  /** The generation counts the hand-outs that came through; each of them closes the circuit. */
  lemma HandOutsAreCounted(s: State, e: Event)
    requires Enabled(s, e)
    ensures Next(s, e).generation == s.generation + (if EndsHandOut(s, e) then 1 else 0)
    ensures EndsHandOut(s, e) ==> Next(s, e).breaker == Breaker(0, None, false)
  {
    if e.WriteReturns? && e.ok {
      var rot := if s.At().Flushing? then s.pending.value else s.At().rot;
      TargetsOfPool(s.keys, rot.owned);
    }
  }

  lemma TargetsOfPool(keys: seq<Token>, owned: Option<Token>)
    ensures Targets(keys, owned) == [] <==> keys == []
  {
    if owned.Some? && owned.value in keys {
      var i :| 0 <= i < |keys| && keys[i] == owned.value;
      assert i in Targets(keys, owned);
    } else if keys != [] {
      assert 0 in Targets(keys, owned);
    }
  }

  /** A record write that lands puts the replacement into the table, and may then return well. */
  lemma LandedWriteMayReturn(s: State, now: real)
    requires Enabled(s, WriteLands) && s.holder.value.ticket.Refresh?
    ensures var n, rot := Next(s, WriteLands), if s.At().Flushing? then s.pending.value else s.At().rot;
            n.store == Some(rot.record) && n.pending == s.pending && Enabled(n, WriteReturns(true, now))
  {
  }

  /** What the upstream has consumed stays consumed. */
  lemma ConsumedStaysConsumed(s: State, e: Event)
    requires Enabled(s, e)
    ensures s.used <= Next(s, e).used && (Next(s, e).live != s.live ==> s.live in Next(s, e).used)
  {
  }

  /** After its n-th transient failure in a row a provider is left alone for min(4 h, 5 min * 2^(n-1)). */
  lemma BackoffExactly(s: State, now: real)
    requires Enabled(s, ReplyArrives(now)) && s.At().reply.Transient?
    ensures var b, wait := Next(s, ReplyArrives(now)).breaker, 300.0 * Pow2(s.breaker.streak);
            && b.streak == s.breaker.streak + 1 && b.dead == s.breaker.dead
            && b.until == Some(now + (if wait < 14400.0 then wait else 14400.0))
  {
    DoubledIsPow2(300.0, s.breaker.streak);
  }

  /**
   With a record in the table and none pending, the read ends in a call with that record's
   grant, or in nothing: a call exactly unless only a due record was wanted and this one does
   not expire within 300 s.
   */
  lemma ReadDecidesExactly(s: State, now: real)
    requires Enabled(s, ReadReturns(now)) && s.store.Some? && s.pending.None?
    ensures var n, rec, requireDue := Next(s, ReadReturns(now)), s.store.value, s.holder.value.ticket.requireDue;
            if !requireDue || (rec.expires.Some? && rec.expires.value - now <= 300.0) then
              && n.holder == Some(s.holder.value.(phase := Calling(rec)))
              && n.calls == s.calls + [Call(rec.grant, rec.grant == s.live && rec.grant !in s.used,
                                            requireDue, rec.expires, now)]
            else n.holder.None? && n.calls == s.calls
  {
  }

  /** The last key of a flushed rotation is written, or there was none to write. */
  predicate EndsFlush(s: State, e: Event)
    requires Enabled(s, e)
  {
    || (e.KeyReturns? && !e.raised && s.At().StoringFlushed? && s.At().left == [])
    || (e.WriteReturns? && e.ok && s.At().Flushing? && s.keys == [])
  }

  /**
   A flush on the way to a refresh ends in a call exactly if the flushed record expires within
   300 s, or states no expiry and a due one was not asked for; a mere flush never calls.
   */
  lemma FlushDecidesExactly(s: State, e: Event)
    requires Enabled(s, e) && EndsFlush(s, e)
    ensures var n, t := Next(s, e), s.holder.value.ticket;
            var rec := (if s.At().Flushing? then s.pending.value else s.At().rot).record;
            if t.Refresh? && (if rec.expires.Some? then rec.expires.value - e.now <= 300.0 else !t.requireDue) then
              && n.holder == Some(s.holder.value.(phase := Calling(rec)))
              && n.calls == s.calls + [Call(rec.grant, rec.grant == s.live && rec.grant !in s.used,
                                            t.requireDue, rec.expires, e.now)]
            else n.holder.None? && n.calls == s.calls
  {
    if e.WriteReturns? {
      assert AllTargets(s, s.pending.value) == [];
    }
  }

  /** What is presented on behalf of a sweeper expires within 300 s of that moment. */
  predicate SweptInTime(calls: seq<Call>) {
    forall c :: c in calls && c.requireDue ==> c.expires.Some? && c.expires.value - c.at <= 300.0
  }

  lemma StepSweepsInTime(s: State, e: Event)
    requires Enabled(s, e) && SweptInTime(s.calls)
    ensures SweptInTime(Next(s, e).calls)
  {
  }

  /** Over every run no sweep spends a grant before its time. */
  lemma {:induction false} SweepsAreInTime(s: State, es: seq<Event>)
    requires EnabledRun(s, es) && SweptInTime(s.calls)
    ensures SweptInTime(Run(s, es).calls)
    decreases |es|
  {
    if es != [] {
      StepSweepsInTime(s, es[0]);
      SweepsAreInTime(Next(s, es[0]), es[1..]);
    }
  }

  // ---- custody of the live grant --------------------------------------------------------

  function Current(s: State): Phase {
    if s.holder.None? then Reading else s.At()
  }

  /** How pending entry, stored record and suspended holder fit together, at every step. */
  predicate Shape(s: State) {
    && s.store.Some?
    && (!Current(s).Reading? && !Current(s).Flushing? ==> s.pending.None?)
    && (match Current(s)
        case Reading => true
        case Flushing(landed) => s.pending.Some? && (landed ==> s.store.value == s.pending.value.record)
        case StoringFlushed(rot, _) => s.store.value == rot.record
        case StoringNew(rot, _) => s.store.value == rot.record
        case Calling(rec) => s.store.value == rec
        case Answered(rec, _) => s.store.value == rec
        case Writing(rot, landed) => landed ==> s.store.value == rot.record)
  }

  /** The grant that will be presented next. */
  function NextGrant(s: State): Grant
    requires Shape(s)
  {
    match Current(s)
    case Reading => (if s.pending.Some? then s.pending.value.record else s.store.value).grant
    case Flushing(_) => s.pending.value.record.grant
    case StoringFlushed(rot, _) => rot.record.grant
    case StoringNew(rot, _) => rot.record.grant
    case Calling(rec) => rec.grant
    case Answered(rec, reply) => if reply.Rotated? then reply.grant else rec.grant
    case Writing(rot, _) => rot.record.grant
  }

  predicate Custody(s: State) {
    Shape(s) && NextGrant(s) == s.live
  }

  predicate Honest(s: State) {
    && s.live !in s.used
    && (forall c :: c in s.calls ==> c.good)
    && (s.breaker.dead ==> s.revoked)
    && (s.holder.Some? && s.At().Answered? && s.At().reply.Rejected? ==> s.revoked)
  }

  /** No two completed rotations were made on the strength of the same generation. */
  predicate Generations(s: State) {
    && (forall i :: 0 <= i < |s.rotations| ==> s.rotations[i] < s.generation)
    && (forall i, j :: 0 <= i < j < |s.rotations| ==> s.rotations[i] != s.rotations[j])
    && (forall id :: id in s.waiting && s.waiting[id].Refresh? ==> s.waiting[id].gen <= s.generation)
    && (s.holder.Some? && s.holder.value.ticket.Refresh? ==>
          s.holder.value.ticket.gen <= s.generation && s.holder.value.ticket.gen !in s.rotations)
    && (s.holder.Some? && s.holder.value.ticket.Flush? ==>
          s.At().Flushing? || s.At().StoringFlushed?)
  }

  ghost predicate Inv(s: State) {
    Custody(s) && Honest(s) && Generations(s)
  }

  /** A freshly started worker over a store that holds the live grant. */
  ghost predicate Init(s: State) {
    && s.generation == 0 && s.pending.None? && s.breaker == FRESH && s.holder.None? && s.waiting == map[]
    && s.store.Some? && s.store.value.grant == s.live && s.live !in s.used
    && s.calls == [] && s.rotations == []
  }

  /**
   The steps that throw the replacement away: a consumed grant whose reply is lost, or a
   holder killed after the upstream rotated and before the record reached the table.
   */
  predicate LosesGrant(s: State, e: Event)
    requires Enabled(s, e)
  {
    || e.LoseReply?
    || (e.Cancel? &&
        match s.At()
        case Answered(rec, reply) => reply.Rotated? && reply.grant != rec.grant
        case Writing(rot, landed) => !landed && s.store.Some? && s.store.value.grant != rot.record.grant
        case _ => false)
  }

  predicate EverLosesGrant(s: State, es: seq<Event>)
    requires EnabledRun(s, es)
    decreases |es|
  {
    es != [] && (LosesGrant(s, es[0]) || EverLosesGrant(Next(s, es[0]), es[1..]))
  }

  lemma CustodyInWrites(s: State, e: Event)
    requires Inv(s) && Enabled(s, e) && (e.WriteReturns? || e.KeyReturns?)
    ensures Custody(Next(s, e))
  {
  }

  lemma StepKeepsCustody(s: State, e: Event)
    requires Inv(s) && Enabled(s, e) && !LosesGrant(s, e)
    ensures Custody(Next(s, e))
  {
    if e.WriteReturns? || e.KeyReturns? {
      CustodyInWrites(s, e);
    }
  }

  lemma HonestInWrites(s: State, e: Event)
    requires Inv(s) && Enabled(s, e) && (e.WriteReturns? || e.KeyReturns?)
    ensures Honest(Next(s, e))
  {
  }

  lemma StepKeepsHonest(s: State, e: Event)
    requires Inv(s) && Enabled(s, e)
    ensures Honest(Next(s, e))
  {
    if e.WriteReturns? || e.KeyReturns? {
      HonestInWrites(s, e);
    }
  }

  /** The events that come before a caller holds the lock, or end its hold early. */
  predicate Outside(e: Event) {
    e.ArriveRefresh? || e.ArriveFlush? || e.Acquire? || e.ReadRaises? || e.Revoke? || e.Cancel? || e.Abandon?
  }

  lemma GenerationsOutside(s: State, e: Event)
    requires Generations(s) && Enabled(s, e) && Outside(e) && !e.Acquire?
    ensures Generations(Next(s, e))
  {
  }

  lemma GenerationsAcquired(s: State, id: nat, now: real)
    requires Generations(s) && Enabled(s, Acquire(id, now))
    ensures Generations(Next(s, Acquire(id, now)))
  {
  }

  lemma GenerationsInside(s: State, e: Event)
    requires Generations(s) && Enabled(s, e) && !Outside(e) && !e.WriteReturns? && !e.KeyReturns?
    ensures Generations(Next(s, e))
  {
  }

  lemma GenerationsStored(s: State, now: real)
    requires Generations(s) && s.holder.Some? && s.At().Storing()
    requires s.At().StoringNew? ==> s.holder.value.ticket.Refresh?
    requires s.At().left != [] ==> s.At().left[0] < |s.keys|
    ensures Generations(HandNext(s, now))
  {
  }

  lemma GenerationsWritten(s: State, ok: bool, now: real)
    requires Generations(s) && Enabled(s, WriteReturns(ok, now))
    ensures Generations(Next(s, WriteReturns(ok, now)))
  {
    if ok {
      match s.At()
      case Flushing(_) =>
        var rot := s.pending.value;
        GenerationsStored(Hold(s, StoringFlushed(rot, AllTargets(s, rot))).(pending := None), now);
      case Writing(rot, _) =>
        GenerationsStored(Hold(s, StoringNew(rot, AllTargets(s, rot))), now);
    }
  }

  lemma StepKeepsGenerations(s: State, e: Event)
    requires Generations(s) && Enabled(s, e)
    ensures Generations(Next(s, e))
  {
    if e.Acquire? {
      GenerationsAcquired(s, e.id, e.now);
    } else if Outside(e) {
      GenerationsOutside(s, e);
    } else if e.WriteReturns? {
      GenerationsWritten(s, e.ok, e.now);
    } else if e.KeyReturns? {
      if !e.raised {
        GenerationsStored(s, e.now);
      }
    } else {
      GenerationsInside(s, e);
    }
  }

  /** Nobody holds the live grant any more. */
  predicate Lost(s: State) {
    && (s.store.Some? ==> s.store.value.grant != s.live)
    && (s.pending.Some? ==> s.pending.value.record.grant != s.live)
    && (s.holder.Some? ==>
          match s.At()
          case Reading => true
          case Flushing(_) => true
          case StoringFlushed(rot, _) => rot.record.grant != s.live
          case StoringNew(rot, _) => rot.record.grant != s.live
          case Calling(rec) => rec.grant != s.live
          case Answered(rec, reply) => rec.grant != s.live && (reply.Rotated? ==> reply.grant != s.live)
          case Writing(rot, _) => rot.record.grant != s.live)
  }

  lemma LossLoses(s: State, e: Event)
    requires Inv(s) && Enabled(s, e) && LosesGrant(s, e)
    ensures Lost(Next(s, e))
  {
  }

  lemma LostOutside(s: State, e: Event)
    requires Lost(s) && Enabled(s, e) && Outside(e)
    ensures Lost(Next(s, e))
  {
  }

  lemma LostInside(s: State, e: Event)
    requires Lost(s) && Enabled(s, e) && !Outside(e) && !e.WriteReturns? && !e.KeyReturns?
    ensures Lost(Next(s, e))
  {
  }

  lemma LostInHandOut(s: State, now: real)
    requires Lost(s) && s.holder.Some? && s.At().Storing()
    requires s.At().StoringNew? ==> s.holder.value.ticket.Refresh?
    requires s.At().left != [] ==> s.At().left[0] < |s.keys|
    ensures Lost(HandNext(s, now))
  {
  }

  lemma LostInWrites(s: State, e: Event)
    requires Lost(s) && Enabled(s, e) && (e.WriteReturns? || e.KeyReturns?)
    ensures Lost(Next(s, e))
  {
    if e.KeyReturns? {
      if !e.raised {
        LostInHandOut(s, e.now);
      }
    } else if e.ok && s.At().Flushing? {
      var rot := s.pending.value;
      LostInHandOut(Hold(s, StoringFlushed(rot, AllTargets(s, rot))).(pending := None), e.now);
    } else if e.ok {
      var rot := s.At().rot;
      LostInHandOut(Hold(s, StoringNew(rot, AllTargets(s, rot))), e.now);
    }
  }

  lemma LostStaysLost(s: State, e: Event)
    requires Lost(s) && Enabled(s, e)
    ensures Lost(Next(s, e))
  {
    if Outside(e) {
      LostOutside(s, e);
    } else if e.WriteReturns? || e.KeyReturns? {
      LostInWrites(s, e);
    } else {
      LostInside(s, e);
    }
  }

  lemma {:induction false} LostForever(s: State, es: seq<Event>)
    requires Lost(s) && EnabledRun(s, es)
    ensures Lost(Run(s, es))
    decreases |es|
  {
    if es != [] {
      LostStaysLost(s, es[0]);
      LostForever(Next(s, es[0]), es[1..]);
    }
  }

  /**
   Over every run, the grant that will be presented next is the live one if and only if no
   step of the run threw the replacement away.
   */
  lemma {:induction false} CustodyExactly(s: State, es: seq<Event>)
    requires Inv(s) && EnabledRun(s, es)
    ensures Custody(Run(s, es)) <==> !EverLosesGrant(s, es)
    ensures !EverLosesGrant(s, es) ==> Inv(Run(s, es))
    decreases |es|
  {
    if es != [] {
      if LosesGrant(s, es[0]) {
        LossLoses(s, es[0]);
        LostForever(Next(s, es[0]), es[1..]);
      } else {
        StepKeepsCustody(s, es[0]);
        StepKeepsHonest(s, es[0]);
        StepKeepsGenerations(s, es[0]);
        CustodyExactly(Next(s, es[0]), es[1..]);
      }
    }
  }

  /**
   What the module exists for. Whatever the interleaving and whichever record writes fail
   (before or after they committed): no consumed grant is ever presented, only a genuine
   revocation kills the provider, and callers that captured the same generation complete at
   most one rotation between them.
   */
  lemma GrantSafety(s: State, es: seq<Event>)
    requires Init(s) && EnabledRun(s, es) && !EverLosesGrant(s, es)
    ensures forall c :: c in Run(s, es).calls ==> c.good
    ensures Run(s, es).breaker.dead ==> Run(s, es).revoked
    ensures var gens := Run(s, es).rotations;
            forall i, j :: 0 <= i < j < |gens| ==> gens[i] != gens[j]
  {
    CustodyExactly(s, es);
  }

  /**
   The excluded steps are not harmless: a 401 hook cancelled while its record write is
   outstanding leaves the consumed grant in the table, and the next tick kills a provider
   that nobody revoked.
   */
  lemma CancelledWriteKillsProvider(s: State, g: Grant, a: Token)
    requires Init(s) && !s.revoked && g !in s.used && g != s.live && a !in s.keys
    ensures exists es :: EnabledRun(s, es) && Run(s, es).breaker.dead && !Run(s, es).revoked
  {
    var s1 := Then(s, [], ArriveRefresh(0, false, false));
    var s2 := Then(s, s1, Acquire(0, 0.0));
    var s3 := Then(s, s2, ReadReturns(0.0));
    var s4 := Then(s, s3, Serve(Rotated(g, a, 0.0)));
    var s5 := Then(s, s4, ReplyArrives(0.0));
    var s6 := Then(s, s5, Cancel);
    assert Holding(Run(s, s6), s.store.value) && Run(s, s6).live == g;
    NextTickKills(s, s6);
  }

  /** Nobody holds the lock or waits for it, and the table has `rec`. */
  predicate Holding(s: State, rec: Record) {
    s.holder.None? && s.waiting == map[] && s.pending.None? && s.store == Some(rec) && s.breaker == FRESH && !s.revoked
  }

  /** With a consumed grant in the table, the next unconditional refresh is rejected. */
  lemma NextTickKills(s: State, s6: seq<Event>)
    requires EnabledRun(s, s6) && Run(s, s6).store.Some? && Holding(Run(s, s6), Run(s, s6).store.value)
    requires Run(s, s6).store.value.grant != Run(s, s6).live
    ensures exists es :: EnabledRun(s, es) && Run(s, es).breaker.dead && !Run(s, es).revoked
  {
    var s7 := Then(s, s6, ArriveRefresh(1, false, false));
    var s8 := Then(s, s7, Acquire(1, 60.0));
    var s9 := Then(s, s8, ReadReturns(60.0));
    var s10 := Then(s, s9, Serve(Rejected));
    var s11 := Then(s, s10, ReplyArrives(60.0));
  }

  /** The run `es` followed by one more step. */
  lemma {:induction false} Then(s: State, es: seq<Event>, e: Event) returns (more: seq<Event>)
    requires EnabledRun(s, es) && Enabled(Run(s, es), e)
    ensures more == es + [e]
    ensures EnabledRun(s, more) && Run(s, more) == Next(Run(s, es), e)
    decreases |es|
  {
    more := es + [e];
    if es != [] {
      var rest := Then(Next(s, es[0]), es[1..], e);
      assert more[1..] == rest;
    } else {
      assert more[1..] == [];
    }
  }

  // ---- which pool keys the provider owns --------------------------------------------------

  /** The fingerprint the next token hand-out will match keys against. */
  function Owner(s: State): Option<Token>
    requires Shape(s)
  {
    match Current(s)
    case Reading => if s.pending.Some? then s.pending.value.owned else s.store.value.owner
    case Flushing(_) => s.pending.value.owned
    case StoringFlushed(rot, _) => rot.owned
    case StoringNew(rot, _) => rot.owned
    case Calling(rec) => rec.owner
    case Answered(rec, _) => rec.owner
    case Writing(rot, _) => rot.owned
  }

  /** The token of a completed rotation that no key has been given yet, if there is one. */
  function Undelivered(s: State): Option<Token> {
    match Current(s)
    case Answered(_, reply) => if reply.Rotated? then Some(reply.access) else None
    case Writing(rot, _) => Some(rot.access)
    case _ => if s.pending.Some? then Some(s.pending.value.access) else None
  }

  predicate Stamped(rot: Rotation) {
    rot.record.owner == Some(rot.access)
  }

  predicate Matches(owner: Option<Token>, key: Token) {
    owner.None? || owner.value == key
  }

  /** The keys the hand-out under way has still to assign. */
  function Unwritten(s: State): set<nat> {
    if Current(s).Storing() then set i | i in Current(s).left else {}
  }

  /** In the middle of a hand-out: what is left of the group awaits the token the rest already has. */
  predicate HalfWritten(keys: seq<Token>, group: set<nat>, rot: Rotation, left: seq<nat>) {
    && Ascending(left)
    && (forall i :: i in left ==> i in group)
    && (exists i :: i in group && i !in left)
    && (forall i :: 0 <= i < |keys| ==> (keys[i] == rot.access <==> i in group && i !in left))
  }

  /** The keys in `group` are the provider's and no others. */
  predicate Owns(s: State, group: set<nat>) {
    && Shape(s) && group != {} && (forall i :: i in group ==> i < |s.keys|)
    && (if Current(s).Storing() then HalfWritten(s.keys, group, Current(s).rot, Current(s).left)
        else forall i :: 0 <= i < |s.keys| ==> (Matches(Owner(s), s.keys[i]) <==> i in group))
    && (Undelivered(s).Some? ==> Undelivered(s).value !in s.keys)
    && (s.pending.Some? ==> Stamped(s.pending.value))
    && (Current(s).Storing() || Current(s).Writing? ==> Stamped(Current(s).rot))
    && (Current(s).Writing? && !Current(s).landed ==> s.store.value.owner == Current(s).rot.owned)
  }

  /** The hand-out ends with keys unwritten: the record names a token they were not given. */
  predicate StrandsSome(s: State, e: Event)
    requires Enabled(s, e)
  {
    (e.Cancel? || (e.KeyReturns? && e.raised)) && s.At().Storing() && s.At().left != []
  }

  /** The holder dies between the commit of its record and the first key. */
  predicate StrandsAll(s: State, e: Event)
    requires Enabled(s, e)
  {
    e.Cancel? && s.At().Writing? && s.At().landed
  }

  /** The keys still recognised after a step. */
  function KeptBy(s: State, e: Event, group: set<nat>): set<nat>
    requires Enabled(s, e)
  {
    if StrandsSome(s, e) then group - Unwritten(s) else group
  }

  predicate SameOutside(a: seq<Token>, b: seq<Token>, group: set<nat>) {
    |a| == |b| && forall i :: 0 <= i < |a| && i !in group ==> a[i] == b[i]
  }

  /** The targets of a hand-out that is about to start are exactly the owned keys. */
  lemma TargetsAreOwned(s: State, rot: Rotation, group: set<nat>)
    requires Owns(s, group) && !Current(s).Storing() && Owner(s) == rot.owned
    ensures forall i: nat :: i in AllTargets(s, rot) <==> i in group
    ensures AllTargets(s, rot) != []
  {
    var member :| member in group;
    assert Matches(rot.owned, s.keys[member]);
    assert member in AllTargets(s, rot);
  }

  /** The first or next key is assigned. */
  lemma HandOutStep(keys: seq<Token>, group: set<nat>, rot: Rotation, left: seq<nat>)
    requires left != [] && Ascending(left)
    requires forall i :: i in left ==> i in group
    requires forall i :: i in group ==> i < |keys|
    requires forall i :: 0 <= i < |keys| ==> (keys[i] == rot.access <==> i in group && i !in left)
    ensures left[0] in group && HalfWritten(keys[left[0] := rot.access], group, rot, left[1..])
    ensures SameOutside(keys[left[0] := rot.access], keys, group)
  {
    assert left == [left[0]] + left[1..] && left[0] in left;
    assert left[0] !in left[1..];
  }

  lemma OwnsAfterHandOut(s: State, now: real, group: set<nat>)
    requires Owns(s, group) && s.holder.Some? && s.At().Storing() && s.pending.None?
    requires s.At().StoringNew? ==> s.holder.value.ticket.Refresh?
    requires s.At().left != [] ==> s.At().left[0] < |s.keys|
    ensures Owns(HandNext(s, now), group) && SameOutside(HandNext(s, now).keys, s.keys, group)
  {
    if s.At().left != [] {
      HandOutStep(s.keys, group, s.At().rot, s.At().left);
    }
  }

  lemma OwnershipInWrites(s: State, e: Event, group: set<nat>)
    requires Owns(s, group) && Enabled(s, e) && e.WriteReturns?
    ensures Owns(Next(s, e), group) && SameOutside(Next(s, e).keys, s.keys, group)
  {
    if e.ok {
      var rot := if s.At().Flushing? then s.pending.value else s.At().rot;
      TargetsAreOwned(s, rot, group);
      HandOutStep(s.keys, group, rot, AllTargets(s, rot));
    }
  }

  lemma OwnershipWhileWaiting(s: State, e: Event, group: set<nat>)
    requires Owns(s, group) && Enabled(s, e)
    requires e.ArriveRefresh? || e.ArriveFlush? || e.Acquire? || e.ReadReturns? || e.ReadRaises? || e.Revoke?
          || e.Abandon?
    ensures Owns(Next(s, e), group) && Next(s, e).keys == s.keys
  {
  }

  lemma OwnershipInReplies(s: State, e: Event, group: set<nat>)
    requires Owns(s, group) && Enabled(s, e)
    requires e.WriteLands? || e.Serve? || e.LoseReply? || e.ReplyArrives?
    ensures Owns(Next(s, e), group) && Next(s, e).keys == s.keys
  {
  }

  lemma OwnershipCutShort(s: State, e: Event, group: set<nat>)
    requires Owns(s, group) && Enabled(s, e) && (e.Cancel? || (e.KeyReturns? && e.raised))
    ensures Next(s, e).keys == s.keys
    ensures !StrandsAll(s, e) ==> Owns(Next(s, e), KeptBy(s, e, group))
    ensures StrandsAll(s, e) ==> forall g :: !Owns(Next(s, e), g)
  {
    if s.At().Storing() {
      var i :| i in group && i !in s.At().left;
      assert i in group - Unwritten(s);
    }
  }

  /**
   One step, exactly. Foreign keys never change. The owned keys stay the recognised ones,
   less those a broken-off hand-out had not reached; no key is recognised any more exactly
   when the holder dies between the commit of its record and the first key.
   */
  lemma OwnershipStep(s: State, e: Event, group: set<nat>)
    requires Owns(s, group) && Enabled(s, e)
    ensures Owns(Next(s, e), KeptBy(s, e, group)) <==> !StrandsAll(s, e)
    ensures Owns(Next(s, e), group) <==> !StrandsAll(s, e) && !StrandsSome(s, e)
    ensures StrandsAll(s, e) ==> forall g :: !Owns(Next(s, e), g)
    ensures SameOutside(Next(s, e).keys, s.keys, group)
  {
    if e.Cancel? || (e.KeyReturns? && e.raised) {
      OwnershipCutShort(s, e, group);
      if StrandsSome(s, e) {
        assert s.At().left[0] in Unwritten(s);
      }
    } else if e.KeyReturns? {
      OwnsAfterHandOut(s, e.now, group);
    } else if e.WriteReturns? {
      OwnershipInWrites(s, e, group);
    } else if e.WriteLands? || e.Serve? || e.LoseReply? || e.ReplyArrives? {
      OwnershipInReplies(s, e, group);
    } else {
      OwnershipWhileWaiting(s, e, group);
    }
  }

  predicate EverStrandsAll(s: State, es: seq<Event>)
    requires EnabledRun(s, es)
    decreases |es|
  {
    es != [] && (StrandsAll(s, es[0]) || EverStrandsAll(Next(s, es[0]), es[1..]))
  }

  /** The owned keys, less those that broken-off hand-outs had not reached. */
  function Kept(s: State, es: seq<Event>, group: set<nat>): set<nat>
    requires EnabledRun(s, es)
    decreases |es|
  {
    if es == [] then group else Kept(Next(s, es[0]), es[1..], KeptBy(s, es[0], group))
  }

  /**
   Over every run in which no holder dies between its commit and the first key, whatever else
   is cancelled: the keys recognised at the end are those recognised at the start less the
   stranded ones, at least one is left, and no other key was ever written.
   */
  lemma {:induction false} OwnershipOverRuns(s: State, es: seq<Event>, group: set<nat>)
    requires Owns(s, group) && EnabledRun(s, es) && !EverStrandsAll(s, es)
    ensures Owns(Run(s, es), Kept(s, es, group)) && {} < Kept(s, es, group) <= group
    ensures SameOutside(Run(s, es).keys, s.keys, group)
    decreases |es|
  {
    if es != [] {
      OwnershipStep(s, es[0], group);
      OwnershipOverRuns(Next(s, es[0]), es[1..], KeptBy(s, es[0], group));
    }
  }

  /**
   After such a death no key is recognised, so the next hand-out takes the pool for drifted
   and overwrites the first key, whosever it is.
   */
  lemma StrandedHandOutHitsFirstKey(s: State, group: set<nat>)
    requires Owns(s, group) && Enabled(s, Cancel) && StrandsAll(s, Cancel)
    ensures var after := Next(s, Cancel);
            Shape(after) && Owner(after).Some? && Targets(after.keys, Owner(after)) == [0]
  {
    var member :| member in group;
    var keys := s.keys;
    var t := s.At().rot.access;
    var matches := Matching(keys, t, |keys|);
    assert matches != [] ==> matches[0] in matches;
    assert Positions(|keys|)[..1] == [0];
  }

  // ---- what a hand-out writes -------------------------------------------------------------

  /** The pool once the hand-out under way, if any, has reached all its keys. */
  function Goal(s: State): seq<Token> {
    if Current(s).Storing() then Assigned(s.keys, Current(s).left, Current(s).rot.access) else s.keys
  }

  function Assigned(keys: seq<Token>, left: seq<nat>, secret: Token): seq<Token> {
    seq(|keys|, i requires 0 <= i < |keys| => if i in left then secret else keys[i])
  }

  lemma AssignNext(keys: seq<Token>, left: seq<nat>, secret: Token)
    requires left != [] && left[0] < |keys|
    ensures Assigned(keys[left[0] := secret], left[1..], secret) == Assigned(keys, left, secret)
  {
    assert left == [left[0]] + left[1..];
  }

  lemma GoalOfHandNext(s: State, now: real)
    requires s.holder.Some? && s.At().Storing()
    requires s.At().StoringNew? ==> s.holder.value.ticket.Refresh?
    requires s.At().left != [] ==> s.At().left[0] < |s.keys|
    ensures Goal(HandNext(s, now)) == Goal(s)
  {
    if s.At().left != [] {
      AssignNext(s.keys, s.At().left, s.At().rot.access);
    } else {
      assert Goal(s) == s.keys;
    }
  }

  /**
   Whatever other tasks do while one key after the other is written: a hand-out, started by
   the return of a record write, ends up having given the new token to exactly the matching
   keys, or to all, or to the first, unless it is broken off.
   */
  lemma HandOut(s: State, e: Event)
    requires Enabled(s, e)
    ensures Goal(Next(s, e)) ==
            if e.WriteReturns? && e.ok then
              var rot := if s.At().Flushing? then s.pending.value else s.At().rot;
              Stored(s.keys, rot.owned, rot.access)
            else if e.Cancel? || (e.KeyReturns? && e.raised) then s.keys
            else Goal(s)
  {
    if e.WriteReturns? && e.ok {
      var flushing := s.At().Flushing?;
      var rot := if flushing then s.pending.value else s.At().rot;
      var started := if flushing then Hold(s, StoringFlushed(rot, AllTargets(s, rot))).(pending := None)
                     else Hold(s, StoringNew(rot, AllTargets(s, rot)));
      assert Goal(started) == Stored(s.keys, rot.owned, rot.access);
      GoalOfHandNext(started, e.now);
    } else if e.KeyReturns? && !e.raised {
      GoalOfHandNext(s, e.now);
    }
  }

  // ---- the worker -------------------------------------------------------------------------

  /** The worker with its in-memory state, the settings row it writes and the key pool. */
  class ClineAutoRefresh {
    var generation: nat
    var pending: Option<Rotation>
    var breaker: Breaker
    var holder: Option<Holder>
    var waiting: map<nat, Ticket>
    var store: Option<Record>
    const secrets: array<Token>
    // What the upstream knows, and what it was asked; the worker never reads these.
    ghost var live: Grant
    ghost var used: set<Grant>
    ghost var revoked: bool
    ghost var calls: seq<Call>
    ghost var rotations: seq<nat>

    ghost function Abs(): State
      reads this, secrets
    {
      State(generation, pending, breaker, holder, waiting, store, secrets[..], live, used, revoked, calls, rotations)
    }

    constructor (record: Option<Record>, secrets: array<Token>, ghost live: Grant)
      ensures this.secrets == secrets
      ensures record.Some? && record.value.grant == live ==> Init(Abs())
    {
      generation, pending, breaker, holder, waiting := 0, None, FRESH, None, map[];
      store, this.secrets := record, secrets;
      this.live, used, revoked, calls, rotations := live, {}, false, [], [];
    }

    method RefreshLocked(id: nat, requireDue: bool, force: bool)
      requires Enabled(Abs(), ArriveRefresh(id, requireDue, force))
      modifies this
      ensures Abs() == Next(old(Abs()), ArriveRefresh(id, requireDue, force))
    {
      waiting := waiting[id := Refresh(generation, requireDue, force)];
    }

    method FlushPending(id: nat)
      requires Enabled(Abs(), ArriveFlush(id))
      modifies this
      ensures Abs() == Next(old(Abs()), ArriveFlush(id))
    {
      waiting := waiting[id := Flush];
    }

    method LockAcquired(id: nat, now: real)
      requires Enabled(Abs(), Acquire(id, now))
      modifies this
      ensures Abs() == Next(old(Abs()), Acquire(id, now))
    {
      var t := waiting[id];
      waiting := waiting - {id};
      match t {
        case Flush =>
          if pending.Some? {
            holder := Some(Holder(id, t, Flushing(false)));
          }
        case Refresh(captured, _, force) =>
          if !force && Blocked(breaker, now) {
            return;
          }
          if generation != captured {
            return;
          }
          holder := Some(Holder(id, t, Reading));
      }
    }

    /** The due check, then the call: the tail shared by both ways into a refresh. */
    method CallUpstream(rec: Record, now: real)
      requires holder.Some? && holder.value.ticket.Refresh?
      modifies this
      ensures Abs() == TryRefresh(old(Abs()), rec, now)
    {
      if holder.value.ticket.requireDue {
        if rec.expires.None? || !WithinLead(rec.expires.value, now) {
          holder := None;
          return;
        }
      }
      calls := calls + [Call(rec.grant, rec.grant == live && rec.grant !in used,
                             holder.value.ticket.requireDue, rec.expires, now)];
      holder := Some(holder.value.(phase := Calling(rec)));
    }

    method RecordRead(now: real)
      requires Enabled(Abs(), ReadReturns(now))
      modifies this
      ensures Abs() == Next(old(Abs()), ReadReturns(now))
    {
      if store.None? {
        holder := None;
        return;
      }
      if pending.Some? {
        holder := Some(holder.value.(phase := Flushing(false)));
        return;
      }
      CallUpstream(store.value, now);
    }

    /** The record write returned; on success the pending entry goes and the hand-out begins. */
    method RecordWritten(ok: bool, now: real)
      requires Enabled(Abs(), WriteReturns(ok, now))
      modifies this, secrets
      ensures Abs() == Next(old(Abs()), WriteReturns(ok, now))
    {
      match holder.value.phase {
        case Flushing(_) =>
          if !ok {
            holder := None;
            return;
          }
          var rot := pending.value;
          pending := None;
          var targets := OwnedKeys(rot.owned);
          assert targets != [] ==> targets[0] in targets;
          holder := Some(holder.value.(phase := StoringFlushed(rot, targets)));
          StoreNext(now);
        case Writing(rot, _) =>
          if !ok {
            pending := Some(rot);
            holder := None;
            return;
          }
          var targets := OwnedKeys(rot.owned);
          assert targets != [] ==> targets[0] in targets;
          holder := Some(holder.value.(phase := StoringNew(rot, targets)));
          StoreNext(now);
      }
    }

    method OwnedKeys(owned: Option<Token>) returns (targets: seq<nat>)
      ensures targets == Targets(secrets[..], owned)
    {
      var all: seq<nat>, matches: seq<nat> := [], [];
      var k := 0;
      while k < secrets.Length
        invariant k <= secrets.Length && all == Positions(k)
        invariant matches == if owned.None? then [] else Matching(secrets[..], owned.value, k)
      {
        if owned == Some(secrets[k]) {
          matches := matches + [k];
        }
        all := all + [k];
        k := k + 1;
      }
      if owned.None? || all == [] {
        return all;
      }
      return if matches != [] then matches else all[..1];
    }

    /** The hand-out up to its next await: one key, or, with none left, all that follows. */
    method StoreNext(now: real)
      requires holder.Some? && holder.value.phase.Storing()
      requires holder.value.phase.StoringNew? ==> holder.value.ticket.Refresh?
      requires holder.value.phase.left != [] ==> holder.value.phase.left[0] < secrets.Length
      modifies this, secrets
      ensures Abs() == HandNext(old(Abs()), now)
    {
      var h := holder.value;
      if h.phase.left != [] {
        secrets[h.phase.left[0]] := h.phase.rot.access;
        holder := Some(h.(phase := h.phase.(left := h.phase.left[1..])));
        return;
      }
      generation := generation + 1;
      breaker := FRESH;
      if h.phase.StoringNew? {
        rotations := rotations + [h.ticket.gen];
        holder := None;
        return;
      }
      var flushed := h.phase.rot.record;
      if h.ticket.Flush? || (flushed.expires.Some? && !WithinLead(flushed.expires.value, now)) {
        holder := None;
        return;
      }
      CallUpstream(flushed, now);
    }

    /** The write of one key returned, whether or not it succeeded; or an exception left the loop. */
    method KeyPersisted(raised: bool, now: real)
      requires Enabled(Abs(), KeyReturns(raised, now))
      modifies this, secrets
      ensures Abs() == Next(old(Abs()), KeyReturns(raised, now))
    {
      if raised {
        holder := None;
        return;
      }
      StoreNext(now);
    }

    method ReplyReceived(now: real)
      requires Enabled(Abs(), ReplyArrives(now))
      modifies this
      ensures Abs() == Next(old(Abs()), ReplyArrives(now))
    {
      var rec := holder.value.phase.rec;
      match holder.value.phase.reply {
        case Transient =>
          breaker := Tripped(breaker, CIRCUIT_BASE_S, CIRCUIT_CAP_S, now);
          holder := None;
        case Rejected =>
          breaker := breaker.(dead := true);
          holder := None;
        case Rotated(g, a, x) =>
          var owned := rec.owner;
          var record := rec.(grant := g, expires := Some(x), owner := Some(a));
          holder := Some(holder.value.(phase := Writing(Rotation(record, a, owned), false)));
      }
    }
  }
}
