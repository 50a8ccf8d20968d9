/**
 * The context policy of a model, layered from defaults, catalogue, environment and model row, and
 * the admission decision it drives: which requests pass as they are, which are compacted first, and
 * whether anything at or above the hard limit can get through.
 */
module ContextPolicy {
  import opened Wrappers

  /** A field of zero or less means "inherit". */
  datatype Policy = Policy(window: int, compactTokens: int, hardTokens: int, compactBytes: int, hardBytes: int,
                           keepItems: int)

  datatype Model = Model(id: string, policy: Policy)

  const UNSET := Policy(0, 0, 0, 0, 0, 0)
  const DEFAULT_COMPACT_TOKENS := 180000
  const DEFAULT_HARD_TOKENS := 255000
  const DEFAULT_COMPACT_BYTES := 1000000
  const DEFAULT_HARD_BYTES := 1900000
  const DEFAULT_KEEP_ITEMS := 8

  const CATALOGUE: map<string, int> :=
    map["gpt-5.6-sol" := 1050000, "gpt-5.6-terra" := 1050000, "gpt-5.6-luna" := 1050000, "gpt-5.5" := 1050000]

  // ---------- the layers ----------

  function MinPositive(a: int, b: int): int {
    if a <= 0 then b else if b <= 0 || a < b then a else b
  }

  /** The percentages of a window, or fixed limits for a large one. */
  function RecommendedForWindow(window: int): Policy {
    if window <= 0 then UNSET else
    var compact, hard := if window >= 400000 then 260000 else window * 65 / 100,
                         if window >= 400000 then 380000 else window * 95 / 100;
    Policy(window, compact, hard, MinPositive(compact * 4, 1000000), hard * 5, 8)
  }

  /** `RecommendedGatewayContextPolicyForModel`. */
  function Recommended(modelId: string): Policy {
    RecommendedForWindow(if modelId in CATALOGUE then CATALOGUE[modelId] else 0)
  }

  /**
   * What is recommended for a window: fixed limits from 400 000 tokens on, below that 65 and 95
   * percent of it, rounded down, with four and five bytes a token and compaction at a million at most.
   */
  lemma RecommendedIs(window: int)
    ensures window <= 0 ==> RecommendedForWindow(window) == Policy(0, 0, 0, 0, 0, 0)
    ensures window >= 400000 ==> RecommendedForWindow(window) == Policy(window, 260000, 380000, 1000000, 1900000, 8)
    ensures var p := RecommendedForWindow(window);
            0 < window < 400000 ==>
              && p.window == window && p.keepItems == 8 && p.hardBytes == p.hardTokens * 5
              && p.compactTokens * 100 <= window * 65 < (p.compactTokens + 1) * 100
              && p.hardTokens * 100 <= window * 95 < (p.hardTokens + 1) * 100
              && p.compactBytes == if 0 < p.compactTokens < 250000 then p.compactTokens * 4 else 1000000
  {
  }

  function Pick(over: int, under: int): int {
    if over > 0 then over else under
  }

  /** Field by field, the upper layer where it is set and else the lower one. */
  function Layer(over: Policy, under: Policy): Policy {
    Policy(Pick(over.window, under.window), Pick(over.compactTokens, under.compactTokens),
           Pick(over.hardTokens, under.hardTokens), Pick(over.compactBytes, under.compactBytes),
           Pick(over.hardBytes, under.hardBytes), Pick(over.keepItems, under.keepItems))
  }

  /** The window comes from the catalogue before it comes from the environment. */
  function Layered(model: Option<Model>, fallback: Policy): Policy {
    var recommended := Recommended(if model.Some? then model.value.id else "");
    var base := Layer(fallback, recommended);
    var base := base.(window := Pick(recommended.window, base.window));
    if model.Some? then Layer(model.value.policy, base) else base
  }

  /** The assignments that let one layer overwrite what it sets. */
  method Override(under: Policy, over: Policy) returns (out: Policy)
    ensures out == Layer(over, under)
  {
    out := under;
    if over.window > 0 { out := out.(window := over.window); }
    if over.compactTokens > 0 { out := out.(compactTokens := over.compactTokens); }
    if over.hardTokens > 0 { out := out.(hardTokens := over.hardTokens); }
    if over.compactBytes > 0 { out := out.(compactBytes := over.compactBytes); }
    if over.hardBytes > 0 { out := out.(hardBytes := over.hardBytes); }
    if over.keepItems > 0 { out := out.(keepItems := over.keepItems); }
  }

  /** `EffectiveGatewayModelContextPolicy`. */
  method EffectivePolicy(model: Option<Model>, fallback: Policy) returns (out: Policy)
    ensures out == Layered(model, fallback)
  {
    hide Layer, Recommended;
    var modelId := "";
    if model.Some? { modelId := model.value.id; }
    var recommended := Recommended(modelId);
    out := Override(recommended, fallback);
    if recommended.window > 0 { out := out.(window := recommended.window); }
    if model.None? { return; }
    out := Override(out, model.value.policy);
  }

  const DEFAULTS := Policy(0, DEFAULT_COMPACT_TOKENS, DEFAULT_HARD_TOKENS, DEFAULT_COMPACT_BYTES, DEFAULT_HARD_BYTES,
                           DEFAULT_KEEP_ITEMS)

  /** `normalizeGatewayContextPolicy`. */
  function Normalize(p: Policy): Policy {
    var q := Layer(p, DEFAULTS).(window := p.window);
    if q.keepItems < 2 then q.(keepItems := 2) else q
  }

  /** The policy a request is judged by. */
  function Effective(model: Option<Model>, fallback: Policy): Policy {
    Normalize(Layered(model, fallback))
  }

  /** The first positive of the values, or zero. */
  function FirstPositive(values: seq<int>): int {
    if values == [] then 0 else if values[0] > 0 then values[0] else FirstPositive(values[1..])
  }

  lemma FirstPositiveOfFour(a: int, b: int, d: int, e: int)
    ensures FirstPositive([a, b, d, e])
         == if a > 0 then a else if b > 0 then b else if d > 0 then d else if e > 0 then e else 0
  {
    assert [a, b, d, e][1..] == [b, d, e] && [b, d, e][1..] == [d, e] && [d, e][1..] == [e] && [e][1..] == [];
    assert FirstPositive([e]) == (if e > 0 then e else 0);
    assert FirstPositive([d, e]) == (if d > 0 then d else if e > 0 then e else 0);
  }

  /** What the catalogue says of a model id: nothing for an unknown one. */
  function CatalogueRow(modelId: string): Policy {
    if modelId in CATALOGUE then Policy(1050000, 260000, 380000, 1000000, 1900000, 8) else Policy(0, 0, 0, 0, 0, 0)
  }

  /**
   * Every field in use is the first positive one of model row, environment, catalogue and default;
   * only for the window the catalogue comes before the environment, and at least two items are kept.
   */
  lemma EffectiveFields(model: Option<Model>, fallback: Policy)
    ensures var own := if model.Some? then model.value.policy else Policy(0, 0, 0, 0, 0, 0);
            var row := CatalogueRow(if model.Some? then model.value.id else "");
            var keep := FirstPositive([own.keepItems, fallback.keepItems, row.keepItems, 8]);
            Effective(model, fallback)
            == Policy(FirstPositive([own.window, row.window, fallback.window, 0]),
                      FirstPositive([own.compactTokens, fallback.compactTokens, row.compactTokens, 180000]),
                      FirstPositive([own.hardTokens, fallback.hardTokens, row.hardTokens, 255000]),
                      FirstPositive([own.compactBytes, fallback.compactBytes, row.compactBytes, 1000000]),
                      FirstPositive([own.hardBytes, fallback.hardBytes, row.hardBytes, 1900000]),
                      if keep < 2 then 2 else keep)
  {
    hide FirstPositive;
    var own := if model.Some? then model.value.policy else Policy(0, 0, 0, 0, 0, 0);
    var row := CatalogueRow(if model.Some? then model.value.id else "");
    FirstPositiveOfFour(own.window, row.window, fallback.window, 0);
    FirstPositiveOfFour(own.compactTokens, fallback.compactTokens, row.compactTokens, 180000);
    FirstPositiveOfFour(own.hardTokens, fallback.hardTokens, row.hardTokens, 255000);
    FirstPositiveOfFour(own.compactBytes, fallback.compactBytes, row.compactBytes, 1000000);
    FirstPositiveOfFour(own.hardBytes, fallback.hardBytes, row.hardBytes, 1900000);
    FirstPositiveOfFour(own.keepItems, fallback.keepItems, row.keepItems, 8);
  }

  // ---------- admission ----------

  datatype Size = Size(bytes: nat, tokens: nat)

  predicate NeedsCompaction(s: Size, p: Policy) {
    s.bytes >= p.compactBytes || s.tokens >= p.compactTokens
  }

  predicate ExceedsHard(s: Size, p: Policy) {
    s.bytes >= p.hardBytes || s.tokens >= p.hardTokens
  }

  datatype Outcome<Body> = ParseFailed | NotCompactable | Compacted(body: Body)

  datatype Reason = Passthrough | WithinBudget | Unparsable | Incompressible | Preflight

  /** What a request becomes: the body that goes on, whether it goes on, and why. */
  datatype Preparation<Body> = Preparation(body: Body, admitted: bool, reason: Reason)

  /** `prepareGatewayContext`, given how bodies are sized and what compacting one yields. */
  method PrepareContext<Body>(p: Policy, passthrough: bool, body: Body, sizeOf: Body -> Size,
                              compact: Body -> Outcome<Body>)
    returns (r: Preparation<Body>)
    ensures passthrough ==> r.admitted && r.body == body
    ensures !passthrough && r.admitted && r.body != body ==>
              compact(body) == Compacted(r.body) && NeedsCompaction(sizeOf(body), p)
    ensures !passthrough && !NeedsCompaction(sizeOf(body), p) ==> r == Preparation(body, true, WithinBudget)
    ensures !passthrough && NeedsCompaction(sizeOf(body), p) ==>
              (r.admitted <==> compact(body).Compacted? && !ExceedsHard(sizeOf(compact(body).body), p))
    ensures !passthrough && NeedsCompaction(sizeOf(body), p) ==>
              r.body == if compact(body).Compacted? then compact(body).body else body
    ensures !passthrough && r.admitted && SafeThresholds(p) ==> !ExceedsHard(sizeOf(r.body), p)
  {
    if passthrough {
      return Preparation(body, true, Passthrough);
    }
    if !NeedsCompaction(sizeOf(body), p) {
      return Preparation(body, true, WithinBudget);
    }
    var outcome := compact(body);
    match outcome
    case ParseFailed =>
      r := Preparation(body, false, Unparsable);
    case NotCompactable =>
      r := Preparation(body, false, Incompressible);
    case Compacted(next) =>
      if ExceedsHard(sizeOf(next), p) {
        return Preparation(next, false, Preflight);
      }
      r := Preparation(next, true, Preflight);
  }

  /** Compaction starts no later than the hard limit, in bytes and in tokens. */
  predicate SafeThresholds(p: Policy) {
    p.compactBytes <= p.hardBytes && p.compactTokens <= p.hardTokens
  }

  predicate Ordered(p: Policy) {
    p.compactBytes < p.hardBytes && p.compactTokens < p.hardTokens
  }

  predicate AllSet(p: Policy) {
    p.compactTokens > 0 && p.hardTokens > 0 && p.compactBytes > 0 && p.hardBytes > 0
  }

  /** No size passes uncompacted at or above the hard limit. */
  ghost predicate NothingLargePasses(p: Policy) {
    forall s: Size :: !NeedsCompaction(s, p) ==> !ExceedsHard(s, p)
  }

  /** Every policy in use has all limits set and keeps at least two items. */
  lemma EffectiveIsSet(model: Option<Model>, fallback: Policy)
    ensures AllSet(Effective(model, fallback)) && Effective(model, fallback).keepItems >= 2
  {
    hide Layered;
  }

  /** Requests that pass uncompacted stay below the hard limit exactly when the thresholds are in order. */
  lemma SafeIffThresholdsOrdered(p: Policy)
    requires AllSet(p)
    ensures NothingLargePasses(p) <==> SafeThresholds(p)
  {
    if p.compactBytes > p.hardBytes {
      var s := Size(p.hardBytes, 0);
      assert !NeedsCompaction(s, p) && ExceedsHard(s, p);
    }
    if p.compactTokens > p.hardTokens {
      var s := Size(0, p.hardTokens);
      assert !NeedsCompaction(s, p) && ExceedsHard(s, p);
    }
  }

  // ---------- when layering keeps the order ----------

  /** A layer's two limits are both unset, or both set and in order. */
  predicate PairKept(compact: int, hard: int) {
    (compact <= 0 && hard <= 0) || 0 < compact < hard
  }

  predicate Paired(p: Policy) {
    PairKept(p.compactTokens, p.hardTokens) && PairKept(p.compactBytes, p.hardBytes)
  }

  lemma LayeringKeepsPairs(over: Policy, under: Policy)
    requires Paired(over) && Paired(under)
    ensures Paired(Layer(over, under)) && (Ordered(under) && AllSet(under) ==> Ordered(Layer(over, under)))
  {
  }

  lemma CataloguePaired(modelId: string)
    ensures Paired(Recommended(modelId))
    ensures modelId in CATALOGUE ==> Ordered(Recommended(modelId)) && AllSet(Recommended(modelId))
  {
    if modelId in CATALOGUE { assert CATALOGUE[modelId] == 1050000; }
  }

  /** With the environment and the model row both setting limits in pairs, compaction starts below the hard limit. */
  lemma PairedLayersAreSafe(model: Option<Model>, fallback: Policy)
    requires Paired(fallback) && (model.Some? ==> Paired(model.value.policy))
    ensures Ordered(Effective(model, fallback)) && NothingLargePasses(Effective(model, fallback))
  {
    hide Layer, Recommended;
    var recommended := Recommended(if model.Some? then model.value.id else "");
    CataloguePaired(if model.Some? then model.value.id else "");
    LayeringKeepsPairs(fallback, recommended);
    var lower := Layer(fallback, recommended);
    var base := lower.(window := Pick(recommended.window, lower.window));
    if model.Some? { LayeringKeepsPairs(model.value.policy, base); }
    LayeringKeepsPairs(Layered(model, fallback), DEFAULTS);
    EffectiveIsSet(model, fallback);
    SafeIffThresholdsOrdered(Effective(model, fallback));
  }

  /** No other layer's hard limit can fall below this compaction limit. */
  predicate GuardedPair(compact: int, hard: int) {
    compact == 1 || 0 < compact <= hard
  }

  predicate GuardsItself(p: Policy) {
    GuardedPair(p.compactTokens, p.hardTokens) && GuardedPair(p.compactBytes, p.hardBytes)
  }

  lemma GuardedStaysSafe(m: Model, fallback: Policy)
    requires GuardsItself(m.policy)
    ensures SafeThresholds(Effective(Some(m), fallback))
  {
    hide Recommended;
  }

  /** What can be read from the environment: no window, and nothing negative. */
  predicate FromEnvironment(p: Policy) {
    && p.window == 0 && p.compactTokens >= 0 && p.hardTokens >= 0
    && p.compactBytes >= 0 && p.hardBytes >= 0 && p.keepItems >= 0
  }

  /** Environments that set one limit only, low or high, and what they do to an unguarded model. */
  lemma UnguardedIsUnsafe(m: Model) returns (fallback: Policy)
    requires !GuardsItself(m.policy)
    ensures FromEnvironment(fallback) && !SafeThresholds(Effective(Some(m), fallback))
  {
    hide Recommended;
    var p := m.policy;
    if !GuardedPair(p.compactTokens, p.hardTokens) {
      fallback := Policy(0, Pick(p.hardTokens, 1) + 1, 1, 0, 0, 0);
    } else {
      fallback := Policy(0, 0, 0, Pick(p.hardBytes, 1) + 1, 1, 0);
    }
  }

  /** A model is safe whatever the environment sets exactly when its own row guards both pairs. */
  lemma SafeInEveryEnvironmentIff(m: Model)
    ensures (forall fallback :: FromEnvironment(fallback) ==> SafeThresholds(Effective(Some(m), fallback)))
       <==> GuardsItself(m.policy)
  {
    hide Effective, SafeThresholds, GuardsItself;
    if GuardsItself(m.policy) {
      forall fallback { GuardedStaysSafe(m, fallback); }
    } else {
      var fallback := UnguardedIsUnsafe(m);
    }
  }

  // ---------- validation ----------

  const MAX_TOKENS := 2000000
  const MAX_BYTES := 33554432

  /** `validateGatewayModelContextPolicy`. */
  predicate PolicyAccepted(p: Policy) {
    if p.window < 0 || p.compactTokens < 0 || p.hardTokens < 0 || p.compactBytes < 0 || p.hardBytes < 0
        || p.keepItems < 0 then false
    else if p.window > MAX_TOKENS || p.compactTokens > MAX_TOKENS || p.hardTokens > MAX_TOKENS then false
    else if p.compactBytes > MAX_BYTES || p.hardBytes > MAX_BYTES then false
    else if p.compactTokens > 0 && p.hardTokens > 0 && p.hardTokens <= p.compactTokens then false
    else if p.compactBytes > 0 && p.hardBytes > 0 && p.hardBytes <= p.compactBytes then false
    else if p.window > 0 && (p.compactTokens > p.window || p.hardTokens > p.window) then false
    else !(p.keepItems > 0 && (p.keepItems < 2 || p.keepItems > 50))
  }

  /** Unset, or within these bounds. */
  predicate Within(n: int, low: int, high: int) {
    n == 0 || low <= n <= high
  }

  /**
   * What validation accepts: every field unset or in its range, compaction before the hard limit
   * where both are set, and token limits within a window that is set.
   */
  lemma AcceptedIff(p: Policy)
    ensures PolicyAccepted(p)
       <==> Within(p.window, 1, 2000000) && Within(p.compactTokens, 1, 2000000) && Within(p.hardTokens, 1, 2000000)
            && Within(p.compactBytes, 1, 33554432) && Within(p.hardBytes, 1, 33554432) && Within(p.keepItems, 2, 50)
            && (p.compactTokens != 0 && p.hardTokens != 0 ==> p.compactTokens < p.hardTokens)
            && (p.compactBytes != 0 && p.hardBytes != 0 ==> p.compactBytes < p.hardBytes)
            && (p.window != 0 ==> p.compactTokens <= p.window && p.hardTokens <= p.window)
  {
  }

  predicate SetTogether(p: Policy) {
    (p.compactTokens > 0 <==> p.hardTokens > 0) && (p.compactBytes > 0 <==> p.hardBytes > 0)
  }

  /** An accepted row that sets limits in pairs is safe as long as the environment sets nothing. */
  lemma AcceptedPairsAreSafe(m: Model)
    requires PolicyAccepted(m.policy) && SetTogether(m.policy)
    ensures NothingLargePasses(Effective(Some(m), UNSET))
  {
    PairedLayersAreSafe(Some(m), UNSET);
  }

  /**
   * Acceptance alone is not enough: for a catalogue model with nothing set in the environment, an
   * accepted row is safe exactly when a lone limit respects the catalogue's other limit.
   */
  lemma AcceptedSafeIff(m: Model)
    requires m.id in CATALOGUE && PolicyAccepted(m.policy)
    ensures SafeThresholds(Effective(Some(m), UNSET)) <==> LoneLimitsFit(m.policy)
    ensures NothingLargePasses(Effective(Some(m), UNSET)) <==> LoneLimitsFit(m.policy)
  {
    assert CATALOGUE[m.id] == 1050000;
    EffectiveIsSet(Some(m), UNSET);
    SafeIffThresholdsOrdered(Effective(Some(m), UNSET));
  }

  predicate LoneLimitsFit(p: Policy) {
    && (p.compactTokens > 0 && p.hardTokens == 0 ==> p.compactTokens <= 380000)
    && (p.compactTokens == 0 && p.hardTokens > 0 ==> p.hardTokens >= 260000)
    && (p.compactBytes > 0 && p.hardBytes == 0 ==> p.compactBytes <= 1900000)
    && (p.compactBytes == 0 && p.hardBytes > 0 ==> p.hardBytes >= 1000000)
  }

  /** A row that validation accepts and that lets requests of any size up to 400 000 tokens through. */
  lemma AcceptedButUnsafe()
    ensures PolicyAccepted(Policy(0, 400000, 0, 0, 0, 0))
    ensures !NothingLargePasses(Effective(Some(Model("gpt-5.5", Policy(0, 400000, 0, 0, 0, 0))), UNSET))
  {
    AcceptedSafeIff(Model("gpt-5.5", Policy(0, 400000, 0, 0, 0, 0)));
  }
}
