/**
 The health healer (wiwi/core/recovery.py): what a probe's verdict does to the key and the
 deployment it was made with, and what it takes for a target to be restored.
 */
module Healer {
  import opened Prelude
  import Circuits

  datatype Verdict = Healthy | AliveThrottled | CredsValidModelBad | CredsRejected | Unreachable

  datatype Status = Active | Cooling | Invalid | Probation | Disabled

  datatype Settings = Settings(probesToRestore: int, base: real, cap: real)

  /** What a probe came back with; `envelope` says the body is an error object. */
  datatype Answer = NoAnswer | Http(status: int, envelope: bool, retryAfter: Option<real>)

  const CLEAN := 200

  function ProbeVerdict(a: Answer): Verdict {
    if a.NoAnswer? then Unreachable
    else if a.status == CLEAN then (if a.envelope then Unreachable else Healthy)
    else if a.status == 429 then AliveThrottled
    else if a.status == 401 || a.status == 403 then CredsRejected
    else if a.status == 400 || a.status == 404 then CredsValidModelBad
    else Unreachable
  }

  /** Only an error status carries its `retry-after` along. */
  function Patience(a: Answer): Option<real> {
    if a.NoAnswer? || a.status == CLEAN then None else a.retryAfter
  }

  // ---- cooling windows ------------------------------------------------------------------

  /** The end of the window a throttled probe leaves; a missing or zero `retry_after` means 30 s. */
  function ExtendedUntil(until: real, retryAfter: Option<real>, now: real): real {
    var asked := retryAfter.GetOr(0.0);
    var wanted := MinReal(MaxReal(if asked == 0.0 then 30.0 else asked, 1.0), 300.0);
    now + MaxReal(MaxReal(0.0, until - now), wanted)
  }

  /** A throttled probe never shortens a window, lasts 1 s at least and adds 300 s at most. */
  lemma CoolingNeverShortens(until: real, retryAfter: Option<real>, now: real)
    ensures var e := ExtendedUntil(until, retryAfter, now);
            && e >= until && e >= now + 1.0 && e <= MaxReal(until, now + 300.0)
            && (retryAfter.Some? && 1.0 <= retryAfter.value <= 300.0 ==> e == MaxReal(until, now + retryAfter.value))
            && (retryAfter.None? || retryAfter.value == 0.0 ==> e == MaxReal(until, now + 30.0))
  {
  }

  // ---- one key, one deployment ----------------------------------------------------------

  datatype KeyTarget = KeyTarget(streak: nat, status: Status, until: real, circuit: Circuits.Breaker)

  datatype DepTarget = DepTarget(streak: nat, probation: bool, until: real, circuit: Circuits.Breaker)

  predicate Sick(s: Status) {
    s == Cooling || s == Invalid
  }

  predicate RestoresKey(c: Settings, k: KeyTarget, v: Verdict) {
    v == Healthy && k.streak + 1 >= c.probesToRestore && Sick(k.status)
  }

  function KeyAfter(c: Settings, k: KeyTarget, v: Verdict, retryAfter: Option<real>, now: real): KeyTarget {
    match v
    case Healthy =>
      if RestoresKey(c, k, v) then KeyTarget(0, Probation, 0.0, Circuits.FRESH) else k.(streak := k.streak + 1)
    case AliveThrottled => k.(status := Cooling, until := ExtendedUntil(k.until, retryAfter, now))
    case CredsRejected => k.(streak := 0, circuit := Circuits.Tripped(k.circuit, c.base, c.cap, now))
    case _ => k.(streak := 0)
  }

  predicate RestoresDep(c: Settings, d: DepTarget, v: Verdict, credit: bool, now: real) {
    v == Healthy && d.streak + (if credit then 1 else 0) >= c.probesToRestore && now < d.until
  }

  function DepAfter(c: Settings, d: DepTarget, v: Verdict, credit: bool, now: real): DepTarget {
    match v
    case AliveThrottled => d
    case Healthy =>
      if RestoresDep(c, d, v, credit, now) then DepTarget(0, true, 0.0, Circuits.FRESH)
      else if credit then d.(streak := d.streak + 1)
      else d
    case _ =>
      if !credit then d
      else if v == CredsRejected then d.(streak := 0)
      else d.(streak := 0, circuit := Circuits.Tripped(d.circuit, c.base, c.cap, now))
  }

  /**
   Whom a probe blames: rejected credentials trip the key's circuit and no other verdict does;
   a bad model or a silent upstream trips the deployment's, if the probe counts for it; both
   are closed exactly by a restore, and a throttled probe touches neither.
   */
  lemma BlameExactly(c: Settings, k: KeyTarget, d: DepTarget, v: Verdict, ra: Option<real>, credit: bool, now: real)
    ensures KeyAfter(c, k, v, ra, now).circuit
         == if v == CredsRejected then Circuits.Tripped(k.circuit, c.base, c.cap, now)
            else if v == Healthy && k.streak + 1 >= c.probesToRestore && (k.status == Cooling || k.status == Invalid)
            then Circuits.Breaker(0, None, false)
            else k.circuit
    ensures DepAfter(c, d, v, credit, now).circuit
         == if credit && (v == CredsValidModelBad || v == Unreachable)
            then Circuits.Tripped(d.circuit, c.base, c.cap, now)
            else if v == Healthy && d.streak + (if credit then 1 else 0) >= c.probesToRestore && now < d.until
            then Circuits.Breaker(0, None, false)
            else d.circuit
    ensures KeyAfter(c, k, v, ra, now).status == Probation <==>
              || (v == Healthy && k.streak + 1 >= c.probesToRestore && (k.status == Cooling || k.status == Invalid))
              || (k.status == Probation && v != AliveThrottled)
    ensures KeyAfter(c, k, v, ra, now).status == Cooling <==>
              || v == AliveThrottled
              || (k.status == Cooling && (v == Healthy ==> k.streak + 1 < c.probesToRestore))
  {
  }

  /** A restore starts over on probation, with no window, no streak and a closed circuit. */
  lemma RestoreStartsOver(c: Settings, k: KeyTarget, d: DepTarget, ra: Option<real>, credit: bool, now: real)
    ensures RestoresKey(c, k, Healthy) ==>
              KeyAfter(c, k, Healthy, ra, now) == KeyTarget(0, Probation, 0.0, Circuits.Breaker(0, None, false))
    ensures RestoresDep(c, d, Healthy, credit, now) ==>
              DepAfter(c, d, Healthy, credit, now) == DepTarget(0, true, 0.0, Circuits.Breaker(0, None, false))
  {
  }

  /**
   The same in terms of HTTP: a 401 or 403 trips the key's circuit and nothing else does;
   silence, an error object under a 200 and every status but 200, 429, 401 and 403 trip the
   deployment's, if the probe counts for it.
   */
  lemma AnswersBlame(c: Settings, k: KeyTarget, d: DepTarget, a: Answer, credit: bool, now: real)
    ensures KeyAfter(c, k, ProbeVerdict(a), Patience(a), now).circuit.streak == k.circuit.streak + 1 <==>
              a.Http? && (a.status == 401 || a.status == 403)
    ensures DepAfter(c, d, ProbeVerdict(a), credit, now).circuit.streak == d.circuit.streak + 1 <==>
              && credit
              && (a.Http? && a.status == 200 ==> a.envelope)
              && (a.Http? ==> a.status != 429 && a.status != 401 && a.status != 403)
  {
  }

  // ---- histories ------------------------------------------------------------------------

  /** What happens to a key: a probe comes back, or traffic or an operator changes its state. */
  datatype KeyEvent =
    | Probed(verdict: Verdict, retryAfter: Option<real>, now: real)
    | Changed(status: Status, until: real)

  function Returned(a: Answer, now: real): KeyEvent {
    Probed(ProbeVerdict(a), Patience(a), now)
  }

  function KeyStep(c: Settings, k: KeyTarget, e: KeyEvent): KeyTarget {
    match e
    case Probed(v, ra, now) => KeyAfter(c, k, v, ra, now)
    case Changed(status, until) => k.(status := status, until := until)
  }

  function KeyRun(c: Settings, k: KeyTarget, h: seq<KeyEvent>): KeyTarget {
    if h == [] then k else KeyStep(c, KeyRun(c, k, h[..|h| - 1]), h[|h| - 1])
  }

  /** Whether the event after history `h` restores the key. */
  predicate RestoredBy(c: Settings, k: KeyTarget, h: seq<KeyEvent>, e: KeyEvent) {
    e.Probed? && RestoresKey(c, KeyRun(c, k, h), e.verdict)
  }

  /** A verdict that breaks a run of healthy ones. */
  predicate Breaks(e: KeyEvent) {
    e.Probed? && e.verdict != Healthy && e.verdict != AliveThrottled
  }

  function HealthyIn(h: seq<KeyEvent>): nat {
    if h == [] then 0
    else HealthyIn(h[..|h| - 1]) + (if h[|h| - 1].Probed? && h[|h| - 1].verdict == Healthy then 1 else 0)
  }

  /** Where the current run of healthy verdicts began: after the last restore or bad verdict. */
  function RunStart(c: Settings, k: KeyTarget, h: seq<KeyEvent>): (i: nat)
    ensures i <= |h|
  {
    if h == [] then 0
    else
      var init, last := h[..|h| - 1], h[|h| - 1];
      if Breaks(last) || RestoredBy(c, k, init, last) then |h| else RunStart(c, k, init)
  }

  lemma {:induction false} StreakCountsRun(c: Settings, k: KeyTarget, h: seq<KeyEvent>)
    requires k.streak == 0
    ensures KeyRun(c, k, h).streak == HealthyIn(h[RunStart(c, k, h)..])
  {
    if h != [] {
      var init, last := h[..|h| - 1], h[|h| - 1];
      StreakCountsRun(c, k, init);
      var i := RunStart(c, k, init);
      if Breaks(last) || RestoredBy(c, k, init, last) {
        assert h[|h|..] == [];
      } else {
        assert h[i..][..|h[i..]| - 1] == init[i..];
      }
    }
  }

  lemma {:induction false} RunIsUnbroken(c: Settings, k: KeyTarget, h: seq<KeyEvent>, i: nat)
    requires RunStart(c, k, h) <= i < |h|
    ensures !Breaks(h[i]) && !RestoredBy(c, k, h[..i], h[i])
  {
    if i < |h| - 1 {
      RunIsUnbroken(c, k, h[..|h| - 1], i);
      assert h[..|h| - 1][..i] == h[..i];
    }
  }

  function AlsoHealthy(e: KeyEvent): nat {
    if e.Probed? && e.verdict == Healthy then 1 else 0
  }

  lemma HealthySnoc(h: seq<KeyEvent>, e: KeyEvent)
    ensures HealthyIn(h + [e]) == HealthyIn(h) + AlsoHealthy(e)
  {
    assert (h + [e])[..|h|] == h;
  }

  /**
   The healer restores a key exactly when a probe finds it sick and healthy again, and with
   this probe there have been enough healthy verdicts in the current run.
   */
  lemma RestoresExactly(c: Settings, k: KeyTarget, h: seq<KeyEvent>, e: KeyEvent)
    requires k.streak == 0
    ensures RestoredBy(c, k, h, e) <==>
            && e.Probed? && e.verdict == Healthy && Sick(KeyRun(c, k, h).status)
            && HealthyIn(h[RunStart(c, k, h)..] + [e]) >= c.probesToRestore
  {
    StreakCountsRun(c, k, h);
    HealthySnoc(h[RunStart(c, k, h)..], e);
  }

  /**
   In terms of answers: only a 200 that is not an error object restores, and no other status
   counts towards it; a 429 leaves the run as it is and every other answer ends it.
   */
  lemma CleanAnswersRestoreExactly(c: Settings, k: KeyTarget, h: seq<KeyEvent>, a: Answer, now: real)
    requires k.streak == 0
    ensures RestoredBy(c, k, h, Returned(a, now)) <==>
            && a.Http? && a.status == 200 && !a.envelope && Sick(KeyRun(c, k, h).status)
            && HealthyIn(h[RunStart(c, k, h)..]) + 1 >= c.probesToRestore
    ensures var more := h + [Returned(a, now)];
            && (a.Http? && a.status == 429 ==> RunStart(c, k, more) == RunStart(c, k, h))
            && (Breaks(Returned(a, now)) <==> a.NoAnswer? || (a.status != 429 && (a.status == 200 ==> a.envelope)))
            && (Breaks(Returned(a, now)) ==> RunStart(c, k, more) == |more|)
    ensures a.Http? && a.status == 429 ==>
              var was := KeyRun(c, k, h);
              KeyRun(c, k, h + [Returned(a, now)])
              == was.(status := Cooling, until := ExtendedUntil(was.until, a.retryAfter, now))
  {
    RestoresExactly(c, k, h, Returned(a, now));
    HealthySnoc(h[RunStart(c, k, h)..], Returned(a, now));
    assert (h + [Returned(a, now)])[..|h|] == h;
  }

  /** That run reaches back to the last restore or bad verdict, and holds neither. */
  lemma RunIsSinceLastRestore(c: Settings, k: KeyTarget, h: seq<KeyEvent>)
    ensures var start := RunStart(c, k, h);
            && (forall i :: start <= i < |h| ==> !Breaks(h[i]) && !RestoredBy(c, k, h[..i], h[i]))
            && (start == 0 || Breaks(h[start - 1]) || RestoredBy(c, k, h[..start - 1], h[start - 1]))
  {
    forall i | RunStart(c, k, h) <= i < |h| ensures !Breaks(h[i]) && !RestoredBy(c, k, h[..i], h[i]) {
      RunIsUnbroken(c, k, h, i);
    }
    RunStartBreaks(c, k, h);
  }

  lemma {:induction false} RunStartBreaks(c: Settings, k: KeyTarget, h: seq<KeyEvent>)
    ensures var s := RunStart(c, k, h);
            s == 0 || Breaks(h[s - 1]) || RestoredBy(c, k, h[..s - 1], h[s - 1])
  {
    if h != [] {
      var init, s := h[..|h| - 1], RunStart(c, k, h);
      RunStartBreaks(c, k, init);
      if s < |h| && s > 0 {
        assert init[..s - 1] == h[..s - 1];
      }
    }
  }

  /** Deployments: the same, counting only the probes that carry the sweep's credit. */
  datatype DepEvent = DepProbed(verdict: Verdict, credit: bool, now: real) | DepChanged(probation: bool, until: real)

  function DepStep(c: Settings, d: DepTarget, e: DepEvent): DepTarget {
    match e
    case DepProbed(v, credit, now) => DepAfter(c, d, v, credit, now)
    case DepChanged(probation, until) => d.(probation := probation, until := until)
  }

  function DepRun(c: Settings, d: DepTarget, h: seq<DepEvent>): DepTarget {
    if h == [] then d else DepStep(c, DepRun(c, d, h[..|h| - 1]), h[|h| - 1])
  }

  predicate DepRestoredBy(c: Settings, d: DepTarget, h: seq<DepEvent>, e: DepEvent) {
    e.DepProbed? && RestoresDep(c, DepRun(c, d, h), e.verdict, e.credit, e.now)
  }

  predicate DepBreaks(e: DepEvent) {
    e.DepProbed? && e.credit && e.verdict != Healthy && e.verdict != AliveThrottled
  }

  function CreditedIn(h: seq<DepEvent>): nat {
    if h == [] then 0
    else
      var last := h[|h| - 1];
      CreditedIn(h[..|h| - 1]) + (if last.DepProbed? && last.credit && last.verdict == Healthy then 1 else 0)
  }

  function DepRunStart(c: Settings, d: DepTarget, h: seq<DepEvent>): (i: nat)
    ensures i <= |h|
  {
    if h == [] then 0
    else
      var init, last := h[..|h| - 1], h[|h| - 1];
      if DepBreaks(last) || DepRestoredBy(c, d, init, last) then |h| else DepRunStart(c, d, init)
  }

  lemma {:induction false} DepStreakCounts(c: Settings, d: DepTarget, h: seq<DepEvent>)
    requires d.streak == 0
    ensures DepRun(c, d, h).streak == CreditedIn(h[DepRunStart(c, d, h)..])
  {
    if h != [] {
      var init, last := h[..|h| - 1], h[|h| - 1];
      DepStreakCounts(c, d, init);
      var i := DepRunStart(c, d, init);
      if DepBreaks(last) || DepRestoredBy(c, d, init, last) {
        assert h[|h|..] == [];
      } else {
        assert h[i..][..|h[i..]| - 1] == init[i..];
      }
    }
  }

  /** A deployment is restored exactly by a healthy probe of a cooled one with enough credited ones. */
  lemma DepRestoresExactly(c: Settings, d: DepTarget, h: seq<DepEvent>, e: DepEvent)
    requires d.streak == 0
    ensures DepRestoredBy(c, d, h, e) <==>
            && e.DepProbed? && e.verdict == Healthy && e.now < DepRun(c, d, h).until
            && CreditedIn(h[DepRunStart(c, d, h)..] + [e]) >= c.probesToRestore
  {
    DepStreakCounts(c, d, h);
    CreditedSnoc(h[DepRunStart(c, d, h)..], e);
  }

  lemma CreditedSnoc(h: seq<DepEvent>, e: DepEvent)
    ensures CreditedIn(h + [e])
         == CreditedIn(h) + (if e.DepProbed? && e.credit && e.verdict == Healthy then 1 else 0)
  {
    assert (h + [e])[..|h|] == h;
  }

  /** Only the entry of `id` may differ. */
  ghost predicate OthersKept(before: map<int, nat>, after: map<int, nat>, id: int) {
    forall i :: i != id ==> (i in after <==> i in before) && (i in after ==> after[i] == before[i])
  }

  // ---- the object -----------------------------------------------------------------------

  class ProviderKey {
    const id: int
    var status: Status
    var cooldownUntil: real

    constructor (id: int)
      ensures this.id == id && status == Active && cooldownUntil == 0.0
    {
      this.id, status, cooldownUntil := id, Active, 0.0;
    }
  }

  class Deployment {
    const id: int
    var probation: bool
    var cooldownUntil: real

    constructor (id: int)
      ensures this.id == id && !probation && cooldownUntil == 0.0
    {
      this.id, probation, cooldownUntil := id, false, 0.0;
    }
  }

  class HealthHealer {
    const settings: Settings
    const keyCircuit: Circuits.CircuitBreaker<int>
    const depCircuit: Circuits.CircuitBreaker<int>
    var keyStreaks: map<int, nat>
    var depStreaks: map<int, nat>

    constructor (c: Settings)
      ensures Valid() && settings == c && keyStreaks == map[] && depStreaks == map[]
    {
      settings, keyStreaks, depStreaks := c, map[], map[];
      keyCircuit := new Circuits.CircuitBreaker<int>(c.base, c.cap);
      depCircuit := new Circuits.CircuitBreaker<int>(c.base, c.cap);
    }

    ghost predicate Valid()
      reads this
    {
      && keyCircuit != depCircuit
      && keyCircuit.base == depCircuit.base == settings.base && keyCircuit.cap == depCircuit.cap == settings.cap
    }

    ghost function KeyView(key: ProviderKey): KeyTarget
      reads this, key, keyCircuit
    {
      KeyTarget(if key.id in keyStreaks then keyStreaks[key.id] else 0, key.status, key.cooldownUntil,
                keyCircuit.View(key.id))
    }

    ghost function DepView(dep: Deployment): DepTarget
      reads this, dep, depCircuit
    {
      DepTarget(if dep.id in depStreaks then depStreaks[dep.id] else 0, dep.probation, dep.cooldownUntil,
                depCircuit.View(dep.id))
    }

    /** `_probe_pair`, from the moment the probe has come back. */
    method ProbePair(dep: Deployment, key: ProviderKey, answer: Answer, now: real, creditDep: bool)
      requires Valid()
      modifies this, dep, key, keyCircuit, depCircuit
      ensures KeyView(key) == KeyStep(settings, old(KeyView(key)), Returned(answer, now))
      ensures DepView(dep) == DepAfter(settings, old(DepView(dep)), ProbeVerdict(answer), creditDep, now)
      ensures OthersKept(old(keyStreaks), keyStreaks, key.id) && OthersKept(old(depStreaks), depStreaks, dep.id)
      ensures forall i :: i != key.id ==> keyCircuit.View(i) == old(keyCircuit.View(i))
      ensures forall i :: i != dep.id ==> depCircuit.View(i) == old(depCircuit.View(i))
    {
      var verdict := ProbeVerdict(answer);
      if verdict == AliveThrottled {
        ExtendCooling(key, Patience(answer), now);
        return;
      }
      if verdict == Healthy {
        CountHealthy(dep.id, key.id, creditDep);
        MaybeRestoreKey(key);
        MaybeRestoreDep(dep, now);
        return;
      }
      keyStreaks := keyStreaks[key.id := 0];
      if creditDep {
        depStreaks := depStreaks[dep.id := 0];
      }
      if verdict == CredsRejected {
        keyCircuit.Trip(key.id, now);
      } else if creditDep {
        depCircuit.Trip(dep.id, now);
      }
    }

    method CountHealthy(dep: int, key: int, creditDep: bool)
      modifies this`keyStreaks, this`depStreaks
      ensures keyStreaks == old(keyStreaks)[key := (if key in old(keyStreaks) then old(keyStreaks)[key] else 0) + 1]
      ensures depStreaks == if !creditDep then old(depStreaks)
        else old(depStreaks)[dep := (if dep in old(depStreaks) then old(depStreaks)[dep] else 0) + 1]
    {
      keyStreaks := keyStreaks[key := (if key in keyStreaks then keyStreaks[key] else 0) + 1];
      if creditDep {
        depStreaks := depStreaks[dep := (if dep in depStreaks then depStreaks[dep] else 0) + 1];
      }
    }

    method MaybeRestoreKey(key: ProviderKey)
      modifies this`keyStreaks, key, keyCircuit
      ensures KeyView(key) == if old(KeyView(key)).streak >= settings.probesToRestore && Sick(old(key.status))
        then KeyTarget(0, Probation, 0.0, Circuits.FRESH) else old(KeyView(key))
      ensures OthersKept(old(keyStreaks), keyStreaks, key.id)
      ensures forall i :: i != key.id ==> keyCircuit.View(i) == old(keyCircuit.View(i))
    {
      var streak := if key.id in keyStreaks then keyStreaks[key.id] else 0;
      if streak < settings.probesToRestore || !Sick(key.status) {
        return;
      }
      key.status, key.cooldownUntil := Probation, 0.0;
      keyCircuit.Clear(key.id);
      keyStreaks := keyStreaks[key.id := 0];
    }

    method MaybeRestoreDep(dep: Deployment, now: real)
      modifies this`depStreaks, dep, depCircuit
      ensures DepView(dep) == if old(DepView(dep)).streak >= settings.probesToRestore && now < old(dep.cooldownUntil)
        then DepTarget(0, true, 0.0, Circuits.FRESH) else old(DepView(dep))
      ensures OthersKept(old(depStreaks), depStreaks, dep.id)
      ensures forall i :: i != dep.id ==> depCircuit.View(i) == old(depCircuit.View(i))
    {
      var streak := if dep.id in depStreaks then depStreaks[dep.id] else 0;
      if streak < settings.probesToRestore || now >= dep.cooldownUntil {
        return;
      }
      dep.probation, dep.cooldownUntil := true, 0.0;
      depCircuit.Clear(dep.id);
      depStreaks := depStreaks[dep.id := 0];
    }

    static method ExtendCooling(key: ProviderKey, retryAfter: Option<real>, now: real)
      modifies key
      ensures key.status == Cooling && key.cooldownUntil == ExtendedUntil(old(key.cooldownUntil), retryAfter, now)
    {
      var remaining := MaxReal(0.0, key.cooldownUntil - now);
      var asked := if retryAfter.Some? && retryAfter.value != 0.0 then retryAfter.value else 30.0;
      var window := MaxReal(remaining, MinReal(MaxReal(asked, 1.0), 300.0));
      key.status, key.cooldownUntil := Cooling, now + window;
    }
  }
}
