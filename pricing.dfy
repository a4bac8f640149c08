/** The pricing table (app/Sources/CCostLib/Pricing.swift): per-model rates,
    the exact → substring → fallback lookup with its record of unknown model
    names, and the cost of a set of token counts. Rates and costs are `real`.
    The shared singleton and its lock are not modelled; the contents of the
    pricing cache file are a constructor argument (None when the file is
    missing or does not decode). Dictionary iteration order is unspecified, so
    the loops over the table pick their next key nondeterministically. */
module Pricing {
  import opened Strings
  import opened Wrappers
  import opened Models

  const SonnetKey: string := "claude-sonnet-4-6"

  /** The claude-sonnet-4-6 rates, the fallback for every unresolved model. */
  const SonnetRates: ModelPricing := ModelPricing(3.0, 15.0, 3.75, 0.3)

  const OpusRates: ModelPricing := ModelPricing(5.0, 25.0, 6.25, 0.5)

  const HaikuRates: ModelPricing := ModelPricing(1.0, 5.0, 1.25, 0.1)

  /** The built-in table. */
  function Builtin(): map<string, ModelPricing> {
    map[
      "claude-opus-4-6" := OpusRates,
      "claude-opus-4-5-20251101" := OpusRates,
      SonnetKey := SonnetRates,
      "claude-sonnet-4-5-20250929" := SonnetRates,
      "claude-haiku-4-5-20251001" := HaikuRates]
  }

  /** A table key the model name resolves to by substring, in either
      direction. An empty name or an empty key takes part in no substring
      match. */
  predicate Matches(model: string, key: string) {
    FoundationContains(model, key) || FoundationContains(key, model)
  }

  predicate HasFuzzyMatch(table: map<string, ModelPricing>, model: string) {
    exists k :: k in table && Matches(model, k)
  }

  /** `p` is a rate set the lookup of `model` may return: the exact entry;
      else the entry of some matching key; else the built-in sonnet rates. */
  ghost predicate Resolves(table: map<string, ModelPricing>, model: string, p: ModelPricing) {
    if model in table then p == table[model]
    else if HasFuzzyMatch(table, model) then exists k :: k in table && Matches(model, k) && p == table[k]
    else p == Builtin()[SonnetKey]
  }

  /** The unknown-model set after looking up `model`: it grows only when the
      lookup falls back and the name starts with "claude-". */
  function UnknownAfter(table: map<string, ModelPricing>, unknown: set<string>, model: string): (r: set<string>)
    ensures unknown <= r && r - unknown <= {model}
    ensures model in r - unknown <==>
      model !in unknown && model !in table && !HasFuzzyMatch(table, model) && HasPrefix(model, "claude-")
  {
    if model !in table && !HasFuzzyMatch(table, model) && HasPrefix(model, "claude-") then unknown + {model}
    else unknown
  }

  /** Σ tokens × rate / 1,000,000 over the four token categories. */
  function Cost(p: ModelPricing, inputTokens: int, outputTokens: int,
                cacheCreationInputTokens: int, cacheReadInputTokens: int): (r: real)
    ensures (inputTokens == 0 && outputTokens == 0 && cacheCreationInputTokens == 0
             && cacheReadInputTokens == 0) ==> r == 0.0
    ensures (p.inputPerMillion >= 0.0 && p.outputPerMillion >= 0.0
             && p.cacheCreatePerMillion >= 0.0 && p.cacheReadPerMillion >= 0.0
             && inputTokens >= 0 && outputTokens >= 0 && cacheCreationInputTokens >= 0
             && cacheReadInputTokens >= 0) ==> r >= 0.0
  {
    (inputTokens as real) * p.inputPerMillion / 1000000.0
    + (outputTokens as real) * p.outputPerMillion / 1000000.0
    + (cacheCreationInputTokens as real) * p.cacheCreatePerMillion / 1000000.0
    + (cacheReadInputTokens as real) * p.cacheReadPerMillion / 1000000.0
  }

  /** `order` lists the keys of `table`, each once. */
  ghost predicate IsKeyOrder(order: seq<string>, table: map<string, ModelPricing>) {
    NoDuplicates(order) && forall k :: k in order <==> k in table
  }

  /** The first key in `order` that `model` matches. */
  function FirstMatch(order: seq<string>, model: string): (r: Option<string>)
    ensures r.Some? ==> r.value in order && Matches(model, r.value)
    ensures r.None? <==> forall k :: k in order ==> !Matches(model, k)
    ensures r.Some? ==>
      exists j :: 0 <= j < |order| && order[j] == r.value && forall i :: 0 <= i < j ==> !Matches(model, order[i])
    decreases |order|
  {
    if order == [] then None
    else if Matches(model, order[0]) then Some(order[0])
    else
      assert forall k :: k in order ==> k == order[0] || k in order[1..];
      var t := FirstMatch(order[1..], model);
      if t.Some? then
        var j :| 0 <= j < |order[1..]| && order[1..][j] == t.value
          && forall i :: 0 <= i < j ==> !Matches(model, order[1..][i]);
        assert order[j + 1] == t.value;
        assert forall i :: 0 <= i < j + 1 ==> !Matches(model, order[i]) by {
          forall i | 0 <= i < j + 1 ensures !Matches(model, order[i]) {
            if i > 0 { assert order[i] == order[1..][i - 1]; }
          }
        }
        t
      else t
  }

  /** The rates the lookup returns when the table iterates in `order`. */
  function PriceOf(table: map<string, ModelPricing>, order: seq<string>, model: string): (r: ModelPricing)
    requires IsKeyOrder(order, table)
    ensures model in table ==> r == table[model]
    ensures model !in table && HasFuzzyMatch(table, model) ==>
      exists j :: 0 <= j < |order| && Matches(model, order[j]) && r == table[order[j]]
                  && forall i :: 0 <= i < j ==> !Matches(model, order[i])
    ensures model !in table && !HasFuzzyMatch(table, model) ==> r == SonnetRates
  {
    if model in table then table[model]
    else match FirstMatch(order, model)
      case Some(k) => table[k]
      case None => Builtin()[SonnetKey]
  }

  /** Putting a key keeps the order a key order when a new key goes last. */
  lemma KeyOrderPut(order: seq<string>, table: map<string, ModelPricing>, k: string, v: ModelPricing)
    requires IsKeyOrder(order, table)
    ensures IsKeyOrder(if k in table then order else order + [k], table[k := v])
  {
    if k !in table {
      var o := order + [k];
      assert forall i :: 0 <= i < |order| ==> o[i] == order[i];
    }
  }

  class PricingTable {
    /** The effective table: built-in rates overridden by the cache file. */
    var pricing: map<string, ModelPricing>
    /** The table's iteration order (unspecified by the source, fixed here). */
    var keyOrder: seq<string>
    /** Model names the lookup fell back on. */
    var unknownModels: set<string>

    ghost predicate Valid()
      reads this
    {
      IsKeyOrder(keyOrder, pricing)
    }

    /** Starts from the built-in table and merges the cached overrides. */
    constructor(cached: Option<map<string, ModelPricing>>)
      ensures Valid()
      ensures pricing == Builtin() + (if cached.Some? then cached.value else map[])
      ensures unknownModels == {}
    {
      pricing := Builtin();
      keyOrder := ["claude-opus-4-6", "claude-opus-4-5-20251101", SonnetKey,
                   "claude-sonnet-4-5-20250929", "claude-haiku-4-5-20251001"];
      unknownModels := {};
      new;
      if cached.Some? {
        LoadCachedPricing(cached.value);
      } else {
        assert Builtin() + map[] == Builtin();
      }
    }

    /** Overwrites the table's entries with the cached ones. */
    method LoadCachedPricing(cached: map<string, ModelPricing>)
      requires Valid()
      modifies this
      ensures Valid()
      ensures pricing == old(pricing) + cached
      ensures unknownModels == old(unknownModels)
    {
      var rest := cached.Keys;
      while rest != {}
        invariant rest <= cached.Keys
        invariant Valid()
        invariant pricing.Keys == old(pricing).Keys + (cached.Keys - rest)
        invariant forall k :: k in pricing ==> pricing[k] == if k in cached.Keys - rest then cached[k] else old(pricing)[k]
        invariant unknownModels == old(unknownModels)
        decreases rest
      {
        var model :| model in rest;
        KeyOrderPut(keyOrder, pricing, model, cached[model]);
        if model !in pricing {
          keyOrder := keyOrder + [model];
        }
        pricing := pricing[model := cached[model]];
        rest := rest - {model};
      }
      MapsEqual(pricing, old(pricing) + cached);
    }

    /** The rates for `model`: exact key, then the first key in iteration
        order that contains or is contained in `model`, then the built-in
        sonnet rates (recording a "claude-" name as unknown). */
    method GetPricing(model: string) returns (r: ModelPricing)
      requires Valid()
      modifies this
      ensures pricing == old(pricing) && keyOrder == old(keyOrder)
      ensures r == PriceOf(pricing, keyOrder, model)
      ensures unknownModels == UnknownAfter(pricing, old(unknownModels), model)
    {
      if model in pricing {
        return pricing[model];
      }
      for i := 0 to |keyOrder|
        invariant forall j :: 0 <= j < i ==> !Matches(model, keyOrder[j])
      {
        var key := keyOrder[i];
        if FoundationContains(model, key) || FoundationContains(key, model) {
          FirstMatchAt(keyOrder, model, i);
          return pricing[key];
        }
      }
      assert forall k :: k in keyOrder ==> !Matches(model, k);
      assert !HasFuzzyMatch(pricing, model);
      if HasPrefix(model, "claude-") {
        unknownModels := unknownModels + {model};
      }
      return Builtin()[SonnetKey];
    }

    /** The cost of the token counts at the rates `model` resolves to. */
    method CalculateCost(model: string, inputTokens: int, outputTokens: int,
                         cacheCreationInputTokens: int, cacheReadInputTokens: int) returns (cost: real)
      requires Valid()
      modifies this
      ensures pricing == old(pricing) && keyOrder == old(keyOrder)
      ensures unknownModels == UnknownAfter(pricing, old(unknownModels), model)
      ensures cost == Cost(PriceOf(pricing, keyOrder, model),
        inputTokens, outputTokens, cacheCreationInputTokens, cacheReadInputTokens)
    {
      var p := GetPricing(model);
      cost := Cost(p, inputTokens, outputTokens, cacheCreationInputTokens, cacheReadInputTokens);
    }

    /** `Array(_unknownModels)`: each unknown name once, in some order. */
    method UnknownModelList() returns (r: seq<string>)
      ensures NoDuplicates(r)
      ensures forall m :: m in r <==> m in unknownModels
    {
      r := [];
      var rest := unknownModels;
      while rest != {}
        invariant rest <= unknownModels
        invariant NoDuplicates(r)
        invariant forall m :: m in r <==> m in unknownModels - rest
        decreases rest
      {
        var m :| m in rest;
        assert m !in r;
        r := r + [m];
        rest := rest - {m};
      }
    }

    method ResetUnknownModels()
      modifies this
      ensures unknownModels == {}
      ensures pricing == old(pricing) && keyOrder == old(keyOrder)
    {
      unknownModels := {};
    }
  }

  // ---------------------------------------------------------------------
  // Properties of the lookup.

  /** The key at `i` is the first match when no earlier key matches. */
  lemma {:induction false} FirstMatchAt(order: seq<string>, model: string, i: nat)
    requires i < |order| && Matches(model, order[i])
    requires forall j :: 0 <= j < i ==> !Matches(model, order[j])
    ensures FirstMatch(order, model) == Some(order[i])
    decreases i
  {
    if i > 0 {
      FirstMatchAt(order[1..], model, i - 1);
    }
  }

  /** Whatever the iteration order, the lookup returns a rate set the
      exact → substring → fallback rule allows. */
  lemma PriceOfResolves(table: map<string, ModelPricing>, order: seq<string>, model: string)
    requires IsKeyOrder(order, table)
    ensures Resolves(table, model, PriceOf(table, order, model))
  {
    if model !in table {
      var m := FirstMatch(order, model);
      if m.Some? {
        assert m.value in table && Matches(model, m.value);
      } else {
        assert !HasFuzzyMatch(table, model);
      }
    }
  }

  /** The built-in sonnet entry holds 3 / 15 / 3.75 / 0.3. */
  lemma BuiltinSonnet()
    ensures SonnetKey in Builtin() && Builtin()[SonnetKey] == SonnetRates
  {
  }

  /** The merged table is the built-in one updated by the overrides. */
  lemma MergeOverrides(overrides: map<string, ModelPricing>, k: string)
    ensures k in Builtin() + overrides <==> k in Builtin() || k in overrides
    ensures k in overrides ==> (Builtin() + overrides)[k] == overrides[k]
    ensures k in Builtin() && k !in overrides ==> (Builtin() + overrides)[k] == Builtin()[k]
  {
  }

  /** An exact key wins over every substring match. */
  lemma ExactKeyWins(table: map<string, ModelPricing>, model: string, p: ModelPricing)
    requires model in table && Resolves(table, model, p)
    ensures p == table[model]
    ensures UnknownAfter(table, {}, model) == {}
  {
  }

  /** An empty name matches no key and an empty key matches no name, so an
      empty model name absent from the table falls back to the sonnet rates. */
  lemma EmptyNeverMatches(table: map<string, ModelPricing>, order: seq<string>, name: string)
    requires IsKeyOrder(order, table)
    ensures !Matches("", name) && !Matches(name, "")
    ensures "" !in table ==> !HasFuzzyMatch(table, "") && PriceOf(table, order, "") == SonnetRates
    ensures "" !in table ==> UnknownAfter(table, {}, "") == {}
  {
  }

  lemma ContainsFirst(s: string, sub: string)
    requires Contains(s, sub) && |sub| > 0
    ensures sub[0] in s
  {
    var i :| 0 <= i <= |s| - |sub| && OccursAt(s, sub, i);
    assert s[i] == sub[0];
  }

  lemma NotContainsLonger(s: string, sub: string)
    requires |sub| > |s|
    ensures !Contains(s, sub)
  {
  }

  /** A name sharing no key's letters falls back to the built-in sonnet rates
      even when the cache overrode the sonnet entry, and is not recorded as
      unknown because it does not start with "claude-". */
  lemma FallbackIgnoresOverride(p: ModelPricing)
    requires Resolves(Builtin()[SonnetKey := ModelPricing(1.0, 1.0, 1.0, 1.0)], "gpt", p)
    ensures p == SonnetRates
    ensures p != (Builtin()[SonnetKey := ModelPricing(1.0, 1.0, 1.0, 1.0)])[SonnetKey]
    ensures UnknownAfter(Builtin()[SonnetKey := ModelPricing(1.0, 1.0, 1.0, 1.0)], {}, "gpt") == {}
  {
    var table := Builtin()[SonnetKey := ModelPricing(1.0, 1.0, 1.0, 1.0)];
    assert table.Keys == Builtin().Keys;
    forall k | k in table ensures !Matches("gpt", k) {
      NotContainsLonger("gpt", k);
      assert 'g' !in k;
      if Contains(k, "gpt") {
        ContainsFirst(k, "gpt");
      }
    }
  }

  /** An unresolved "claude-" name is recorded; a resolved one is not. */
  lemma UnknownOnlyClaude(table: map<string, ModelPricing>, unknown: set<string>, model: string)
    ensures model !in unknown && HasPrefix(model, "claude-") && model !in table && !HasFuzzyMatch(table, model)
      ==> UnknownAfter(table, unknown, model) == unknown + {model}
    ensures !HasPrefix(model, "claude-") ==> UnknownAfter(table, unknown, model) == unknown
  {
  }

  // ---------------------------------------------------------------------
  // Properties of the cost.

  /** claude-sonnet-4-6 with 1000 input and 500 output tokens costs 0.0105. */
  lemma CostExample()
    ensures Cost(Builtin()[SonnetKey], 1000, 500, 0, 0) == 0.0105
  {
  }

  /** Cost is additive in the token counts. */
  lemma CostAdditive(p: ModelPricing, i1: int, o1: int, w1: int, r1: int, i2: int, o2: int, w2: int, r2: int)
    ensures Cost(p, i1 + i2, o1 + o2, w1 + w2, r1 + r2) == Cost(p, i1, o1, w1, r1) + Cost(p, i2, o2, w2, r2)
  {
  }

  /** Scaling every token count by `c` scales the cost by `c`. */
  lemma {:induction false} CostScale(p: ModelPricing, c: nat, i: int, o: int, w: int, r: int)
    ensures Cost(p, c * i, c * o, c * w, c * r) == (c as real) * Cost(p, i, o, w, r)
    decreases c
  {
    if c > 0 {
      CostScale(p, c - 1, i, o, w, r);
      CostAdditive(p, (c - 1) * i, (c - 1) * o, (c - 1) * w, (c - 1) * r, i, o, w, r);
      assert (c - 1) * i + i == c * i && (c - 1) * o + o == c * o;
      assert (c - 1) * w + w == c * w && (c - 1) * r + r == c * r;
    }
  }

  /** Doubling every token count doubles the cost. */
  lemma CostDouble(p: ModelPricing, i: int, o: int, w: int, r: int)
    ensures Cost(p, 2 * i, 2 * o, 2 * w, 2 * r) == 2.0 * Cost(p, i, o, w, r)
  {
    CostScale(p, 2, i, o, w, r);
  }
}
