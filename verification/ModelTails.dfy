/**
 Which price applies to which model (wiwi/cost/pricing.py, and the tail rule of
 wiwi/logging_core/db_sink.py). A "/"-separated name is the sequence of its segments.
 */
module ModelTails {
  import opened Prelude

  type Path = seq<int>

  /** Every suffix of a name that starts at a segment, the whole included. */
  function SlashTails(p: Path): set<Path> {
    set i | 0 <= i < |p| :: p[i..]
  }

  predicate SharesModelTail(a: Path, b: Path) {
    a in SlashTails(b) || b in SlashTails(a)
  }

  predicate IsTail(a: Path, b: Path) {
    0 < |a| <= |b| && b[|b| - |a|..] == a
  }

  lemma TailIsSuffix(a: Path, b: Path)
    ensures a in SlashTails(b) <==> IsTail(a, b)
  {
    if IsTail(a, b) {
      var i := |b| - |a|;
      assert b[i..] == a;
    }
  }

  /** Two names match exactly when one ends with the other, segment by segment. */
  lemma SharedTailExactly(a: Path, b: Path)
    ensures SharesModelTail(a, b) <==> IsTail(a, b) || IsTail(b, a)
    ensures |a| == |b| ==> (SharesModelTail(a, b) <==> a == b && a != [])
  {
    TailIsSuffix(a, b);
    TailIsSuffix(b, a);
  }

  // ---- rates ----------------------------------------------------------------------------

  /** The rates of one scope, any of which may be missing. */
  datatype Rates = Rates(input: Option<real>, output: Option<real>, cached: Option<real>, creation: Option<real>)

  /** A registered price: base rates, and overrides by provider account or type. */
  datatype Entry = Entry(base: Rates, scopes: map<int, Rates>)

  function Overlay<T>(base: Option<T>, scoped: Option<T>): Option<T> {
    if scoped.Some? then scoped else base
  }

  function Overlaid(base: Rates, scoped: Rates): Rates {
    Rates(Overlay(base.input, scoped.input), Overlay(base.output, scoped.output),
          Overlay(base.cached, scoped.cached), Overlay(base.creation, scoped.creation))
  }

  predicate Usable(r: Rates) {
    r.input.Some? && r.output.Some?
  }

  /** The account's override wins over the type's, which wins over none. */
  function Scoped(e: Entry, providerType: Option<int>, providerName: Option<int>): Rates {
    if providerName.Some? && providerName.value in e.scopes then Overlaid(e.base, e.scopes[providerName.value])
    else if providerType.Some? && providerType.value in e.scopes then Overlaid(e.base, e.scopes[providerType.value])
    else e.base
  }

  function MergeScoped(e: Entry, providerType: Option<int>, providerName: Option<int>): Option<Rates> {
    var r := Scoped(e, providerType, providerName);
    if Usable(r) then Some(r) else None
  }

  /** The override that applies: the account's, else the type's, if any. */
  function ScopeOf(e: Entry, providerType: Option<int>, providerName: Option<int>): Rates {
    if providerName.Some? && providerName.value in e.scopes then e.scopes[providerName.value]
    else if providerType.Some? && providerType.value in e.scopes then e.scopes[providerType.value]
    else Rates(None, None, None, None)
  }

  /** Each rate is the override's where it states one, else the base rate; without input or output, none. */
  lemma MergeScopedExactly(e: Entry, providerType: Option<int>, providerName: Option<int>)
    ensures var o, r := ScopeOf(e, providerType, providerName), MergeScoped(e, providerType, providerName);
            && (r.Some? <==> (o.input.Some? || e.base.input.Some?) && (o.output.Some? || e.base.output.Some?))
            && (r.Some? ==>
                  && (if o.input.Some? then r.value.input == o.input else r.value.input == e.base.input)
                  && (if o.output.Some? then r.value.output == o.output else r.value.output == e.base.output)
                  && (if o.cached.Some? then r.value.cached == o.cached else r.value.cached == e.base.cached)
                  && (if o.creation.Some? then r.value.creation == o.creation
                      else r.value.creation == e.base.creation))
  {
  }

  predicate Prices(prices: map<Path, Entry>, key: Path, providerType: Option<int>, providerName: Option<int>) {
    key in prices && MergeScoped(prices[key], providerType, providerName).Some?
  }

  /** The i-th tail of a name has a price, and no longer one does. */
  ghost predicate LongestPriced(prices: map<Path, Entry>, name: Path, providerType: Option<int>,
                                providerName: Option<int>, i: nat)
  {
    && i < |name| && Prices(prices, name[i..], providerType, providerName)
    && (forall j :: 0 <= j < i ==> !Prices(prices, name[j..], providerType, providerName))
  }

  /** The rates of the longest tail of the model id that has usable ones for this provider. */
  method Lookup(prices: map<Path, Entry>, modelId: Path, providerType: Option<int>, providerName: Option<int>)
    returns (rates: Option<Rates>)
    ensures rates.None? <==> forall i :: 0 <= i < |modelId| && modelId[i..] in prices ==>
              MergeScoped(prices[modelId[i..]], providerType, providerName).None?
    ensures rates.Some? ==> exists i: nat ::
              LongestPriced(prices, modelId, providerType, providerName, i)
              && rates == MergeScoped(prices[modelId[i..]], providerType, providerName)
  {
    for i := 0 to |modelId|
      invariant forall j :: 0 <= j < i ==> !Prices(prices, modelId[j..], providerType, providerName)
    {
      var key := modelId[i..];
      if key in prices {
        var merged := MergeScoped(prices[key], providerType, providerName);
        if merged.Some? {
          assert LongestPriced(prices, modelId, providerType, providerName, i);
          return merged;
        }
      }
    }
    return None;
  }

  /**
   Live lookups and repricing agree on what a price covers: every key a lookup of
   "type/model" may use shares a tail with the model, and with no model it would not price.
   */
  lemma LiveKeysShareTail(prefix: Path, model: Path, at: nat)
    requires model != [] && at < |prefix + model|
    ensures SharesModelTail((prefix + model)[at..], model)
  {
    var key := (prefix + model)[at..];
    if at < |prefix| {
      assert key == prefix[at..] + model;
      assert key[|prefix| - at..] == model;
    } else {
      assert key == model[at - |prefix|..];
    }
    TailIsSuffix(key, model);
    TailIsSuffix(model, key);
  }

  /** And the other way: a key sharing the model's tail is used for some provider prefix. */
  lemma SharedTailIsLive(key: Path, model: Path)
    requires model != [] && SharesModelTail(key, model)
    ensures exists prefix: Path, at: nat :: at < |prefix + model| && (prefix + model)[at..] == key
  {
    TailIsSuffix(key, model);
    TailIsSuffix(model, key);
    if IsTail(key, model) {
      assert [] + model == model;
      assert ([] + model)[|model| - |key|..] == key;
    } else {
      var prefix := key[..|key| - |model|];
      assert prefix + model == key;
      assert (prefix + model)[0..] == key;
    }
  }

  // ---- cost -----------------------------------------------------------------------------

  datatype Tokens = Tokens(prompt: int, cached: int, creation: int, output: int)

  function Clamp(n: int): (c: nat) {
    if n < 0 then 0 else n
  }

  function CostOf(r: Rates, t: Tokens, includesCached: bool): real
    requires Usable(r)
  {
    var uncached := if includesCached then Clamp(t.prompt - t.cached) else t.prompt;
    (uncached as real) * r.input.value + (t.cached as real) * r.cached.GetOr(r.input.value)
    + (t.creation as real) * r.creation.GetOr(r.input.value) + (t.output as real) * r.output.value
  }

  /**
   Every token is billed once, at the rate of its own class: one more output, cached or created
   token costs that rate, the input rate where it is not stated, and so does one more prompt
   token; where prompts include cached ones, a cached token is taken off the uncached ones.
   */
  lemma MarginalCost(r: Rates, t: Tokens, includesCached: bool)
    requires Usable(r)
    ensures var cost := CostOf(r, t, includesCached);
            && CostOf(r, t.(output := t.output + 1), includesCached) == cost + r.output.value
            && CostOf(r, t.(creation := t.creation + 1), includesCached)
               == cost + (if r.creation.Some? then r.creation.value else r.input.value)
            && ((includesCached ==> t.prompt >= t.cached) ==>
                  CostOf(r, t.(prompt := t.prompt + 1), includesCached) == cost + r.input.value)
            && CostOf(r, t.(cached := t.cached + 1), includesCached)
               == cost + (if r.cached.Some? then r.cached.value else r.input.value)
                  - (if includesCached && t.prompt > t.cached then r.input.value else 0.0)
    ensures CostOf(r, Tokens(0, 0, 0, 0), includesCached) == 0.0
  {
  }

  function Clamped(t: Tokens): Tokens {
    Tokens(Clamp(t.prompt), Clamp(t.cached), Clamp(t.creation), Clamp(t.output))
  }

  predicate NonNegative(r: Rates) {
    && r.input.GetOr(0.0) >= 0.0 && r.output.GetOr(0.0) >= 0.0
    && r.cached.GetOr(0.0) >= 0.0 && r.creation.GetOr(0.0) >= 0.0
  }

  lemma ProductNonNegative(n: nat, x: real)
    requires x >= 0.0
    ensures (n as real) * x >= 0.0
  {
  }

  /** No usage report, however negative its counts, can turn a charge into a credit. */
  lemma NeverACredit(r: Rates, t: Tokens, includesCached: bool)
    requires Usable(r) && NonNegative(r)
    ensures CostOf(r, Clamped(t), includesCached) >= 0.0
  {
    var c := Clamped(t);
    ProductNonNegative(if includesCached then Clamp(c.prompt - c.cached) else c.prompt, r.input.value);
    ProductNonNegative(c.cached, r.cached.GetOr(r.input.value));
    ProductNonNegative(c.creation, r.creation.GetOr(r.input.value));
    ProductNonNegative(c.output, r.output.value);
  }
}
