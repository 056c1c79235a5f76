/**
 Usage of a resumed stream (wiwi/core/gateway.py): what the client is shown
 (`accumulated_stream_usage`) against what is billed and logged (`merge_resume_context`).

 Contexts and usage records are objects, as in the source: folding may share a resumed
 attempt's record with the originating context. Every attempt has a context of its own,
 which starts empty and is priced any number of times; each pricing may be cut short by a
 fault. An upstream attempt record is represented by a number.
 */
module ResumeUsage {
  import opened Prelude

  datatype Tokens = Tokens(prompt: int, completion: int, cached: int, reasoning: int, cacheCreation: int)

  const NO_TOKENS := Tokens(0, 0, 0, 0, 0)

  function Plus(a: Tokens, b: Tokens): Tokens {
    Tokens(a.prompt + b.prompt, a.completion + b.completion, a.cached + b.cached,
           a.reasoning + b.reasoning, a.cacheCreation + b.cacheCreation)
  }

  /** A usage record as a value; `cachedInPrompt` says how the adapter counts cached tokens. */
  datatype Priced = Priced(tokens: Tokens, estimated: bool, cachedInPrompt: Option<bool>)

  /** A usage frame. */
  datatype UsageFinal = UsageFinal(tokens: Tokens, estimated: bool, cost: real, cachedInPrompt: Option<bool>)

  function Record(u: UsageFinal): Priced {
    Priced(u.tokens, u.estimated, u.cachedInPrompt)
  }

  /** One attempt's context: usage record and frame (if priced), money, and its upstream attempts. */
  datatype Attempt = Attempt(usage: Option<Priced>, frame: Option<UsageFinal>,
                             cost: real, savings: real, cacheHit: bool, records: seq<int>)

  const FRESH := Attempt(None, None, 0.0, 0.0, false, [])

  /** How far one pricing gets before it faults: settling or pricing, then the savings. */
  datatype Reach = FaultsBeforeCost | FaultsAfterCost | Completes

  /** One call of `_price_stream`: the adapter's or estimator's counts, and what they come to. */
  datatype Pricing = Pricing(usage: Priced, cost: real, savings: real, reach: Reach)
  {
    /** No adapter puts a cost into its frame. */
    function Frame(): UsageFinal {
      UsageFinal(usage.tokens, usage.estimated, 0.0, usage.cachedInPrompt)
    }
  }

  datatype Step = Price(p: Pricing) | Note(id: int)

  function Stepped(a: Attempt, step: Step): Attempt {
    match step
    case Note(id) => a.(records := a.records + [id])
    case Price(p) =>
      var published := a.(usage := Some(p.usage), frame := Some(p.Frame()));
      if p.reach.FaultsBeforeCost? then published
      else
        var costed := published.(cost := p.cost, cacheHit := p.usage.tokens.cached > 0);
        if p.reach.FaultsAfterCost? then costed else costed.(savings := p.savings)
  }

  /** The context of an attempt after any steps of its life. */
  function Lived(steps: seq<Step>): Attempt {
    if steps == [] then FRESH else Stepped(Lived(steps[..|steps| - 1]), steps[|steps| - 1])
  }

  /** Usage and frame are published together, before any money. */
  predicate Consistent(a: Attempt) {
    && (a.usage.None? <==> a.frame.None?)
    && (a.usage.Some? ==> Record(a.frame.value) == a.usage.value && a.frame.value.cost == 0.0)
    && (a.usage.None? ==> a.cost == 0.0 && a.savings == 0.0 && !a.cacheHit)
  }

  /** Whatever an attempt lived through, and wherever a pricing faulted, no cost is without usage. */
  lemma {:induction false} LivesAreConsistent(steps: seq<Step>)
    ensures Consistent(Lived(steps))
  {
    if steps != [] {
      LivesAreConsistent(steps[..|steps| - 1]);
    }
  }

  /**
   The pricing that counts is the last one: its usage and frame as soon as it is published,
   its cost and hit unless it faulted before them, its savings if it came through.
   */
  lemma {:induction false} LastPricingCounts(before: seq<Step>, p: Pricing, notes: seq<Step>)
    requires forall i :: 0 <= i < |notes| ==> notes[i].Note?
    ensures var a := Lived(before + [Price(p)] + notes);
            && a.usage == Some(p.usage) && a.frame.Some? && Record(a.frame.value) == p.usage
            && (!p.reach.FaultsBeforeCost? ==> a.cost == p.cost && (a.cacheHit <==> p.usage.tokens.cached > 0))
            && (p.reach.Completes? ==> a.savings == p.savings)
            && (p.reach.FaultsBeforeCost? ==> a.cost == Lived(before).cost)
  {
    var all := before + [Price(p)] + notes;
    if notes == [] {
      assert all[..|all| - 1] == before;
    } else {
      assert all[..|all| - 1] == before + [Price(p)] + notes[..|notes| - 1];
      LastPricingCounts(before, p, notes[..|notes| - 1]);
    }
  }

  class Usage {
    var promptTokens: int
    var completionTokens: int
    var cachedTokens: int
    var reasoningTokens: int
    var cacheCreationTokens: int
    var estimated: bool
    const cachedInPrompt: Option<bool>

    constructor (p: Priced)
      ensures View() == p
    {
      promptTokens, completionTokens, cachedTokens := p.tokens.prompt, p.tokens.completion, p.tokens.cached;
      reasoningTokens, cacheCreationTokens := p.tokens.reasoning, p.tokens.cacheCreation;
      estimated, cachedInPrompt := p.estimated, p.cachedInPrompt;
    }

    method Add(other: Usage)
      requires other != this
      modifies this
      ensures Some(View()) == MergedUsage(Some(old(View())), Some(other.View()))
    {
      promptTokens := promptTokens + other.promptTokens;
      completionTokens := completionTokens + other.completionTokens;
      cachedTokens := cachedTokens + other.cachedTokens;
      reasoningTokens := reasoningTokens + other.reasoningTokens;
      cacheCreationTokens := cacheCreationTokens + other.cacheCreationTokens;
      estimated := estimated || other.estimated;
    }

    function View(): Priced
      reads this
    {
      Priced(Tokens(promptTokens, completionTokens, cachedTokens, reasoningTokens, cacheCreationTokens),
             estimated, cachedInPrompt)
    }
  }

  class Context {
    var usage: Usage?
    var streamUsage: Option<UsageFinal>
    var cost: real
    var cacheSavings: real
    var cacheHit: bool
    var attempts: seq<int>

    constructor ()
      ensures View() == FRESH && usage == null
    {
      usage, streamUsage, cost, cacheSavings, cacheHit, attempts := null, None, 0.0, 0.0, false, [];
    }

    function View(): Attempt
      reads this, usage
    {
      Attempt(if usage == null then None else Some(usage.View()),
              streamUsage, cost, cacheSavings, cacheHit, attempts)
    }

    method PriceStream(p: Pricing) returns (raised: bool)
      modifies this
      ensures View() == Stepped(old(View()), Price(p)) && usage != null && fresh(usage)
      ensures raised <==> !p.reach.Completes?
    {
      streamUsage := Some(p.Frame());
      usage := new Usage(p.usage);
      if p.reach.FaultsBeforeCost? {
        return true;
      }
      cost := p.cost;
      cacheHit := p.usage.tokens.cached > 0;
      if p.reach.FaultsAfterCost? {
        return true;
      }
      cacheSavings := p.savings;
      return false;
    }

    method NoteAttempt(id: int)
      modifies this
      ensures View() == Stepped(old(View()), Note(id)) && usage == old(usage)
    {
      attempts := attempts + [id];
    }

    method MergeUsage(ru: Usage?)
      requires usage == null || usage != ru
      modifies this`usage, usage
      ensures View().usage == MergedUsage(old(View()).usage, if ru == null then None else Some(old(ru.View())))
      ensures usage == if old(usage) == null then ru else old(usage)
      ensures ru != null ==> ru.View() == old(ru.View())
    {
      if ru != null {
        if usage == null {
          usage := ru;
        } else {
          usage.Add(ru);
        }
      }
    }

    method MergeFrame(su: Option<UsageFinal>)
      modifies this`streamUsage
      ensures streamUsage == MergedFrame(old(streamUsage), su)
    {
      if su.Some? {
        if streamUsage.None? {
          streamUsage := su;
        } else {
          streamUsage := Some(Total(streamUsage.value, su.value));
        }
      }
    }

    /** `merge_resume_context`. */
    method MergeResume(resumed: Context)
      requires resumed != this && (usage == null || usage != resumed.usage)
      modifies this, usage
      ensures View() == Merged(old(View()), old(resumed.View()))
      ensures resumed.View() == old(resumed.View())
      ensures usage == if old(usage) == null then resumed.usage else old(usage)
    {
      attempts := attempts + resumed.attempts;
      MergeUsage(resumed.usage);
      cost := cost + resumed.cost;
      cacheHit := cacheHit || resumed.cacheHit;
      MergeFrame(resumed.streamUsage);
      if resumed.cacheSavings != 0.0 {
        cacheSavings := cacheSavings + resumed.cacheSavings;
      }
    }
  }

  // ---- billed and logged ------------------------------------------------------------------

  /** The sum of two frames: the first stated convention is inherited. */
  function Total(a: UsageFinal, b: UsageFinal): UsageFinal {
    UsageFinal(Plus(a.tokens, b.tokens), a.estimated || b.estimated, a.cost + b.cost,
               if a.cachedInPrompt.Some? then a.cachedInPrompt else b.cachedInPrompt)
  }

  function MergedUsage(a: Option<Priced>, b: Option<Priced>): Option<Priced> {
    if b.None? then a
    else if a.None? then b
    else Some(Priced(Plus(a.value.tokens, b.value.tokens), a.value.estimated || b.value.estimated,
                     a.value.cachedInPrompt))
  }

  function MergedFrame(a: Option<UsageFinal>, b: Option<UsageFinal>): Option<UsageFinal> {
    if b.None? then a else if a.None? then b else Some(Total(a.value, b.value))
  }

  function Merged(origin: Attempt, resumed: Attempt): Attempt {
    Attempt(MergedUsage(origin.usage, resumed.usage), MergedFrame(origin.frame, resumed.frame),
            origin.cost + resumed.cost, origin.savings + resumed.savings,
            origin.cacheHit || resumed.cacheHit, origin.records + resumed.records)
  }

  /** The originating context after every resumed attempt has been folded in. */
  function Billed(origin: Attempt, pending: seq<Attempt>): Attempt {
    if pending == [] then origin
    else Merged(Billed(origin, pending[..|pending| - 1]), pending[|pending| - 1])
  }

  // ---- shown ----------------------------------------------------------------------------

  /** The frame an attempt contributes: its record under its context's cost. */
  function Share(u: Priced, cost: real): UsageFinal {
    UsageFinal(u.tokens, u.estimated, cost, u.cachedInPrompt)
  }

  method AccumulatedStreamUsage(origin: Attempt, pending: seq<Attempt>) returns (total: Option<UsageFinal>)
    ensures total == Shown([origin] + pending)
  {
    total := None;
    var sources := [origin] + pending;
    for i := 0 to |sources|
      invariant total == Shown(sources[..i])
    {
      assert sources[..i + 1][..i] == sources[..i];
      var source := sources[i];
      if source.usage.Some? {
        var u := Share(source.usage.value, source.cost);
        total := Some(if total.None? then u else Total(total.value, u));
      }
    }
    assert sources[..|sources|] == sources;
  }

  function Shown(sources: seq<Attempt>): Option<UsageFinal> {
    if sources == [] then None
    else
      var before, last := Shown(sources[..|sources| - 1]), sources[|sources| - 1];
      if last.usage.None? then before
      else MergedFrame(before, Some(Share(last.usage.value, last.cost)))
  }

  datatype Counter = Prompt | Completion | CachedTokens | Reasoning | CacheCreation

  function At(t: Tokens, c: Counter): int {
    match c
    case Prompt => t.prompt
    case Completion => t.completion
    case CachedTokens => t.cached
    case Reasoning => t.reasoning
    case CacheCreation => t.cacheCreation
  }

  function SumOf(sources: seq<Attempt>, c: Counter): int {
    if sources == [] then 0
    else (if sources[0].usage.Some? then At(sources[0].usage.value.tokens, c) else 0) + SumOf(sources[1..], c)
  }

  function CostOf(sources: seq<Attempt>): real {
    if sources == [] then 0.0
    else (if sources[0].usage.Some? then sources[0].cost else 0.0) + CostOf(sources[1..])
  }

  lemma {:induction false} SumOfMore(sources: seq<Attempt>, last: Attempt, c: Counter)
    ensures SumOf(sources + [last], c)
         == SumOf(sources, c) + (if last.usage.Some? then At(last.usage.value.tokens, c) else 0)
    ensures CostOf(sources + [last]) == CostOf(sources) + (if last.usage.Some? then last.cost else 0.0)
  {
    if sources == [] {
      assert [last][1..] == [] && sources + [last] == [last];
    } else {
      assert (sources + [last])[1..] == sources[1..] + [last];
      SumOfMore(sources[1..], last, c);
    }
  }

  /** Each shown count is the sum over the priced attempts, and so is the cost; any estimate shows. */
  lemma {:induction false} ShownIsTheSum(sources: seq<Attempt>, c: Counter)
    ensures Shown(sources).Some? <==> exists a :: a in sources && a.usage.Some?
    ensures Shown(sources).Some? ==>
              && At(Shown(sources).value.tokens, c) == SumOf(sources, c)
              && Shown(sources).value.cost == CostOf(sources)
              && (Shown(sources).value.estimated <==>
                    exists a :: a in sources && a.usage.Some? && a.usage.value.estimated)
    ensures Shown(sources).None? ==> SumOf(sources, c) == 0 && CostOf(sources) == 0.0
  {
    if sources != [] {
      var before, last := sources[..|sources| - 1], sources[|sources| - 1];
      assert sources == before + [last] && last in sources;
      ShownIsTheSum(before, c);
      SumOfMore(before, last, c);
    }
  }

  predicate AllConsistent(sources: seq<Attempt>) {
    forall i :: 0 <= i < |sources| ==> Consistent(sources[i])
  }

  lemma {:induction false} ConsistentAgree(origin: Attempt, pending: seq<Attempt>)
    requires AllConsistent([origin] + pending)
    ensures var shown, billed := Shown([origin] + pending), Billed(origin, pending);
            && (shown.None? <==> billed.usage.None?) && (shown.None? <==> billed.frame.None?)
            && (shown.None? ==> billed.cost == 0.0)
            && (shown.Some? ==>
                  && shown.value == Share(Record(billed.frame.value), billed.cost)
                  && shown.value.tokens == billed.usage.value.tokens
                  && shown.value.estimated == billed.usage.value.estimated)
  {
    var sources := [origin] + pending;
    assert sources[..|sources| - 1] == if pending == [] then [] else [origin] + pending[..|pending| - 1];
    if pending == [] {
      assert Shown([]) == None && Consistent(sources[0]);
    } else {
      assert Consistent(sources[|sources| - 1]);
      var before := [origin] + pending[..|pending| - 1];
      forall i | 0 <= i < |before| ensures Consistent(before[i]) {
        assert Consistent(sources[i]);
      }
      ConsistentAgree(origin, pending[..|pending| - 1]);
    }
  }

  /** The contexts of attempts that lived through `lives`. */
  function Contexts(lives: seq<seq<Step>>): (r: seq<Attempt>)
    ensures |r| == |lives|
  {
    seq(|lives|, i requires 0 <= i < |lives| => Lived(lives[i]))
  }

  /**
   However often the originating and the resumed attempts were priced, and wherever a pricing
   faulted, the client is shown what is billed: the same tokens, flag and cost, or nothing
   and a cost of 0. The folded frame carries the shown tokens, flag and convention.
   */
  lemma ShownEqualsBilled(first: seq<Step>, lives: seq<seq<Step>>)
    ensures var origin, pending := Lived(first), Contexts(lives);
            var shown, billed := Shown([origin] + pending), Billed(origin, pending);
            && (shown.None? <==> billed.usage.None?)
            && (shown.None? ==> billed.cost == 0.0 && billed.frame.None?)
            && (shown.Some? ==>
                  && shown.value.tokens == billed.usage.value.tokens
                  && shown.value.estimated == billed.usage.value.estimated
                  && shown.value.cost == billed.cost
                  && billed.frame.Some? && Record(shown.value) == Record(billed.frame.value))
  {
    var origin, pending := Lived(first), Contexts(lives);
    var sources := [origin] + pending;
    LivesAreConsistent(first);
    forall i | 0 <= i < |sources| ensures Consistent(sources[i]) {
      if i > 0 {
        LivesAreConsistent(lives[i - 1]);
      }
    }
    ConsistentAgree(origin, pending);
  }

  // ---- the convention of the folded record ------------------------------------------------

  /** The first attempt that was priced. */
  function FirstPriced(sources: seq<Attempt>): Option<Priced> {
    if sources == [] then None
    else if sources[0].usage.Some? then sources[0].usage
    else FirstPriced(sources[1..])
  }

  predicate NoneStated(sources: seq<Attempt>) {
    forall a :: a in sources && a.usage.Some? ==> a.usage.value.cachedInPrompt.None?
  }

  lemma {:induction false} FirstPricedOfMore(sources: seq<Attempt>, last: Attempt)
    ensures FirstPriced(sources + [last]) == if FirstPriced(sources).Some? then FirstPriced(sources) else last.usage
  {
    if sources == [] {
      assert [last][1..] == [];
    } else {
      assert (sources + [last])[1..] == sources[1..] + [last];
      FirstPricedOfMore(sources[1..], last);
    }
  }

  lemma NoneStatedOfMore(sources: seq<Attempt>, last: Attempt)
    ensures NoneStated(sources + [last]) <==>
            NoneStated(sources) && (last.usage.Some? ==> last.usage.value.cachedInPrompt.None?)
  {
    assert last in sources + [last];
    assert forall a :: a in sources + [last] <==> a in sources || a == last;
  }

  /** The three accounts of a convention: folded record, shown frame, first priced attempt. */
  predicate ConventionsFit(start: Option<Priced>, billed: Option<Priced>, shown: Option<UsageFinal>, unstated: bool) {
    && (start.None? <==> shown.None?) && (start.None? <==> billed.None?)
    && (start.None? ==> unstated)
    && (start.Some? ==>
          && billed.value.cachedInPrompt == start.value.cachedInPrompt
          && (start.value.cachedInPrompt.Some? ==> shown.value.cachedInPrompt == start.value.cachedInPrompt)
          && (shown.value.cachedInPrompt.None? <==> unstated))
  }

  lemma OneMoreFits(start: Option<Priced>, billed: Option<Priced>, shown: Option<UsageFinal>, unstated: bool,
                    u: Priced, cost: real)
    requires ConventionsFit(start, billed, shown, unstated)
    ensures ConventionsFit(if start.Some? then start else Some(u), MergedUsage(billed, Some(u)),
                           MergedFrame(shown, Some(Share(u, cost))), unstated && u.cachedInPrompt.None?)
  {
  }

  /** The folded record has the first priced attempt's convention, the shown frame the first stated one. */
  lemma {:induction false} Conventions(origin: Attempt, pending: seq<Attempt>)
    ensures var sources := [origin] + pending;
            ConventionsFit(FirstPriced(sources), Billed(origin, pending).usage, Shown(sources), NoneStated(sources))
  {
    var sources := [origin] + pending;
    if pending == [] {
      assert sources == [] + [origin];
      FirstPricedOfMore([], origin);
      NoneStatedOfMore([], origin);
      assert sources[..0] == [] && Shown([]) == None;
    } else {
      var before, last := [origin] + pending[..|pending| - 1], pending[|pending| - 1];
      assert sources == before + [last] && sources[..|sources| - 1] == before;
      Conventions(origin, pending[..|pending| - 1]);
      FirstPricedOfMore(before, last);
      NoneStatedOfMore(before, last);
      if last.usage.Some? {
        var billed := Billed(origin, pending[..|pending| - 1]).usage;
        OneMoreFits(FirstPriced(before), billed, Shown(before), NoneStated(before), last.usage.value, last.cost);
      }
    }
  }

  /**
   The folded usage record and the shown frame count cached tokens by the same convention
   exactly when the first priced attempt stated one, or no priced attempt did.
   */
  lemma ConventionsAgreeExactly(origin: Attempt, pending: seq<Attempt>)
    requires Shown([origin] + pending).Some?
    ensures var sources := [origin] + pending;
            && FirstPriced(sources).Some? && Billed(origin, pending).usage.Some?
            && (Shown(sources).value.cachedInPrompt == Billed(origin, pending).usage.value.cachedInPrompt
                <==> FirstPriced(sources).value.cachedInPrompt.Some? || NoneStated(sources))
  {
    Conventions(origin, pending);
  }

  // ---- the other folded fields --------------------------------------------------------------

  function Flat(sources: seq<Attempt>): seq<int> {
    if sources == [] then [] else sources[0].records + Flat(sources[1..])
  }

  lemma {:induction false} FlatOfMore(sources: seq<Attempt>, last: Attempt)
    ensures Flat(sources + [last]) == Flat(sources) + last.records
  {
    if sources == [] {
      assert [last][1..] == [] && Flat([last]) == last.records;
    } else {
      assert (sources + [last])[1..] == sources[1..] + [last];
      FlatOfMore(sources[1..], last);
    }
  }

  function SavingsOf(sources: seq<Attempt>): real {
    if sources == [] then 0.0 else SavingsOf(sources[..|sources| - 1]) + sources[|sources| - 1].savings
  }

  /** Every upstream attempt is logged in order, savings add up, and a cache hit of any is a hit. */
  lemma {:induction false} FoldedLog(origin: Attempt, pending: seq<Attempt>)
    ensures Billed(origin, pending).records == Flat([origin] + pending)
    ensures Billed(origin, pending).savings == SavingsOf([origin] + pending)
    ensures Billed(origin, pending).cacheHit <==> exists a :: a in [origin] + pending && a.cacheHit
  {
    if pending == [] {
      assert ([origin] + pending)[1..] == [] && origin in [origin] + pending;
      assert ([origin] + pending)[..0] == [];
    } else {
      var before, last := [origin] + pending[..|pending| - 1], pending[|pending| - 1];
      assert [origin] + pending == before + [last];
      FoldedLog(origin, pending[..|pending| - 1]);
      assert ([origin] + pending)[..|pending|] == before;
      FlatOfMore(before, last);
    }
  }

  // ---- prompt capture -----------------------------------------------------------------------

  /** Prompt capture overwrites the originating frame with the one that was shown. */
  function Captured(origin: Attempt, pending: seq<Attempt>): Attempt {
    origin.(frame := Shown([origin] + pending))
  }

  function FrameTokens(a: Attempt): Tokens {
    if a.frame.Some? then a.frame.value.tokens else NO_TOKENS
  }

  function ResumedTokens(pending: seq<Attempt>): Tokens {
    if pending == [] then NO_TOKENS
    else Plus(ResumedTokens(pending[..|pending| - 1]), FrameTokens(pending[|pending| - 1]))
  }

  lemma MergeAddsFrame(a: Attempt, b: Attempt)
    requires a.frame.Some?
    ensures Merged(a, b).frame.Some? && FrameTokens(Merged(a, b)) == Plus(FrameTokens(a), FrameTokens(b))
  {
  }

  lemma PlusAssociates(a: Tokens, b: Tokens, c: Tokens)
    ensures Plus(Plus(a, b), c) == Plus(a, Plus(b, c)) && Plus(a, NO_TOKENS) == a
  {
  }

  lemma {:induction false} FoldedFrame(origin: Attempt, pending: seq<Attempt>)
    requires origin.frame.Some?
    ensures Billed(origin, pending).frame.Some?
    ensures FrameTokens(Billed(origin, pending)) == Plus(FrameTokens(origin), ResumedTokens(pending))
  {
    if pending == [] {
      PlusAssociates(FrameTokens(origin), NO_TOKENS, NO_TOKENS);
    } else {
      var before, last := pending[..|pending| - 1], pending[|pending| - 1];
      FoldedFrame(origin, before);
      MergeAddsFrame(Billed(origin, before), last);
      PlusAssociates(FrameTokens(origin), ResumedTokens(before), FrameTokens(last));
    }
  }

  /**
   With prompt capture on, the fold adds the resumed attempts to a frame that already holds
   them: the captured usage is the shown one exactly when the resumed tokens are all 0.
   */
  lemma CaptureAgreesExactly(origin: Attempt, pending: seq<Attempt>)
    requires Shown([origin] + pending).Some?
    ensures var shown, captured := Shown([origin] + pending).value, Billed(Captured(origin, pending), pending).frame;
            && captured.Some?
            && captured.value.tokens == Plus(shown.tokens, ResumedTokens(pending))
            && (captured.value.tokens == shown.tokens <==> ResumedTokens(pending) == NO_TOKENS)
  {
    FoldedFrame(Captured(origin, pending), pending);
  }

  /** Two priced attempts: the sum is shown, and the second one is captured twice. */
  lemma CaptureCountsTwice(p: Pricing, q: Pricing)
    ensures var origin, resumed := Lived([Price(p)]), Lived([Price(q)]);
            var shown, captured := Shown([origin, resumed]), Billed(Captured(origin, [resumed]), [resumed]).frame;
            && shown.Some? && shown.value.tokens == Plus(p.usage.tokens, q.usage.tokens)
            && captured.Some? && captured.value.tokens == Plus(shown.value.tokens, q.usage.tokens)
  {
    var origin, resumed := Lived([Price(p)]), Lived([Price(q)]);
    PricedOnce(p);
    PricedOnce(q);
    assert [origin, resumed] == [origin] + [resumed] && [origin, resumed][..1] == [origin] && [origin][..0] == [];
    assert Shown([origin]) == Some(Share(origin.usage.value, origin.cost));
    CaptureAgreesExactly(origin, [resumed]);
    assert [resumed][..0] == [] && ResumedTokens([resumed]) == Plus(NO_TOKENS, q.usage.tokens);
  }

  lemma PricedOnce(p: Pricing)
    ensures var a := Lived([Price(p)]); a.usage == Some(p.usage) && a.frame == Some(p.Frame())
  {
    assert [Price(p)][..0] == [];
  }

  // ---- the fold over objects ------------------------------------------------------------

  /** No two of the contexts, and no two of their usage records, are the same object. */
  ghost predicate Separate(origin: Context, pending: seq<Context>)
    reads origin, pending
  {
    && origin !in pending
    && (forall i, j :: 0 <= i < j < |pending| ==> pending[i] != pending[j])
    && (forall i :: 0 <= i < |pending| ==> DistinctUsage(origin, pending[i]))
    && (forall i, j :: 0 <= i < j < |pending| ==> DistinctUsage(pending[i], pending[j]))
  }

  ghost predicate DistinctUsage(a: Context, b: Context)
    reads a, b
  {
    a.usage == null || a.usage != b.usage
  }

  /**
   Folds every resumed attempt into the originating context. An origin without usage adopts
   the first resumed record and later folds write through it; what is billed is unaffected.
   */
  method FoldPending(origin: Context, pending: seq<Context>, ghost views: seq<Attempt>)
    requires Separate(origin, pending) && |views| == |pending|
    requires forall i :: 0 <= i < |pending| ==> pending[i].View() == views[i]
    modifies origin, origin.usage, set i | 0 <= i < |pending| :: pending[i].usage
    ensures origin.View() == Billed(old(origin.View()), views)
  {
    ghost var first := origin.View();
    assert views[..0] == [];
    for i := 0 to |pending|
      invariant origin.View() == Billed(first, views[..i])
      invariant forall j :: i <= j < |pending| ==> pending[j].View() == views[j] && DistinctUsage(origin, pending[j])
      invariant forall j :: 0 <= j < |pending| ==> pending[j].usage == old(pending[j].usage)
      invariant origin.usage == old(origin.usage) || exists j :: 0 <= j < i && origin.usage == pending[j].usage
    {
      assert views[..i + 1][..i] == views[..i];
      origin.MergeResume(pending[i]);
    }
    assert views[..|views|] == views;
  }
}
