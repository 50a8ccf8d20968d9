/**
 * Cost estimates from aggregated token counts, over real arithmetic. The same log is priced row by
 * row, per key and model, and per model; because cached tokens are capped by input tokens inside
 * each group, the coarser the grouping the lower the estimate.
 */
module UsageCost {
  import opened Wrappers

  datatype Tokens = Tokens(input: int, cached: int, output: int)

  /** A log row, or one row of an aggregate query over the log. */
  datatype UsageRow = UsageRow(key: Option<int>, model: string, tokens: Tokens)

  datatype Price = Price(input: real, cached: real, output: real)

  type Prices = map<string, Price>

  function Max(a: int, b: int): int { if a < b then b else a }

  function Min(a: int, b: int): int { if a < b then a else b }

  /** The cached tokens that are priced as cached. */
  function CachedPart(t: Tokens): int {
    Min(Max(t.cached, 0), Max(t.input, 0))
  }

  /** `estimateCostForTokens`, in USD. */
  function Cost(t: Tokens, p: Price): real {
    var cached := CachedPart(t);
    var nonCached := Max(t.input - cached, 0);
    (nonCached as real * p.input + cached as real * p.cached + Max(t.output, 0) as real * p.output) / 1000000.0
  }

  /** What tokens cost: prices are per million, counts below zero are none, and cached tokens are input tokens. */
  lemma CostIs(t: Tokens, p: Price)
    ensures var i, o := if t.input > 0 then t.input else 0, if t.output > 0 then t.output else 0;
            var c := if t.cached <= 0 then 0 else if t.cached > i then i else t.cached;
            Cost(t, p) == ((i - c) as real * p.input + c as real * p.cached + o as real * p.output) / 1000000.0
    ensures Cost(Tokens(1000000, 0, 0), p) == p.input && Cost(Tokens(1000000, 1000000, 0), p) == p.cached
    ensures Cost(Tokens(0, 0, 1000000), p) == p.output
  {
    var i := if t.input > 0 then t.input else 0;
    var c := if t.cached <= 0 then 0 else if t.cached > i then i else t.cached;
    assert CachedPart(t) == c && Max(t.input - c, 0) == i - c;
  }

  function RowCost(prices: Prices, r: UsageRow): real {
    if r.model in prices then Cost(r.tokens, prices[r.model]) else 0.0
  }

  function TotalCost(prices: Prices, rows: seq<UsageRow>): real {
    if rows == [] then 0.0
    else TotalCost(prices, rows[..|rows| - 1]) + RowCost(prices, rows[|rows| - 1])
  }

  // ---------- aggregate queries ----------

  function Add(a: Tokens, b: Tokens): Tokens {
    Tokens(a.input + b.input, a.cached + b.cached, a.output + b.output)
  }

  function Sum(rows: seq<UsageRow>): Tokens {
    if rows == [] then Tokens(0, 0, 0) else Add(Sum(rows[..|rows| - 1]), rows[|rows| - 1].tokens)
  }

  datatype Grouping = PerModel | PerKeyAndModel

  /** `COALESCE(api_key_id, 0)`. */
  function KeyOf(r: UsageRow): int {
    if r.key.Some? then r.key.value else 0
  }

  function Label(g: Grouping, r: UsageRow): (int, string) {
    if g.PerModel? then (0, r.model) else (KeyOf(r), r.model)
  }

  /** Rows share a group if they share the model and, where keys are told apart, the key; a missing key is key 0. */
  lemma SameGroupIff(g: Grouping, a: UsageRow, b: UsageRow)
    ensures Label(g, a) == Label(g, b)
       <==> a.model == b.model && (g.PerKeyAndModel? ==> a.key == b.key || (ZeroKey(a) && ZeroKey(b)))
  {
  }

  predicate ZeroKey(r: UsageRow) {
    r.key == None || r.key == Some(0)
  }

  function Select(g: Grouping, rows: seq<UsageRow>, l: (int, string)): seq<UsageRow> {
    if rows == [] then [] else
    var init, last := Select(g, rows[..|rows| - 1], l), rows[|rows| - 1];
    if Label(g, last) == l then init + [last] else init
  }

  function Without(g: Grouping, rows: seq<UsageRow>, l: (int, string)): seq<UsageRow> {
    if rows == [] then [] else
    var init, last := Without(g, rows[..|rows| - 1], l), rows[|rows| - 1];
    if Label(g, last) == l then init else init + [last]
  }

  lemma {:induction false} SelectMembers(g: Grouping, rows: seq<UsageRow>, l: (int, string))
    ensures forall r :: r in Select(g, rows, l) <==> r in rows && Label(g, r) == l
    ensures forall r :: r in Without(g, rows, l) <==> r in rows && Label(g, r) != l
    decreases |rows|
  {
    hide Label;
    if rows != [] {
      var init, last := rows[..|rows| - 1], rows[|rows| - 1];
      assert rows == init + [last];
      SelectMembers(g, init, l);
    }
  }

  predicate Appears(g: Grouping, rows: seq<UsageRow>, l: (int, string)) {
    exists i :: 0 <= i < |rows| && Label(g, rows[i]) == l
  }

  /** One group per label of the rows, in any order, each with the token sums of its rows. */
  predicate IsGroupBy(g: Grouping, groups: seq<UsageRow>, rows: seq<UsageRow>) {
    && (forall i, j :: 0 <= i < j < |groups| ==> Label(g, groups[i]) != Label(g, groups[j]))
    && (forall i :: 0 <= i < |groups| ==> Appears(g, rows, Label(g, groups[i])))
    && (forall i :: 0 <= i < |rows| ==> Appears(g, groups, Label(g, rows[i])))
    && (forall i :: 0 <= i < |groups| ==> groups[i].tokens == Sum(Select(g, rows, Label(g, groups[i]))))
  }

  // ---------- the estimates ----------

  predicate HasTokens(t: Tokens) {
    t.input > 0 || t.cached > 0 || t.output > 0
  }

  predicate Priced(prices: Prices, r: UsageRow) {
    HasTokens(r.tokens) ==> r.model in prices
  }

  predicate AllPriced(prices: Prices, rows: seq<UsageRow>) {
    forall i :: 0 <= i < |rows| ==> Priced(prices, rows[i])
  }

  lemma NoTokensCostNothing(prices: Prices, r: UsageRow)
    requires !HasTokens(r.tokens)
    ensures RowCost(prices, r) == 0.0
  {
  }

  /** `estimateUsageCost` over the groups the query returned; None when no figure can be given. */
  method EstimateUsageCost(prices: Prices, groups: seq<UsageRow>) returns (cost: Option<real>)
    ensures cost.Some? <==> prices != map[] && AllPriced(prices, groups)
    ensures cost.Some? ==> cost.value == TotalCost(prices, groups)
  {
    hide RowCost;
    if |prices| == 0 {
      return None;
    }
    var total := 0.0;
    for i := 0 to |groups|
      invariant total == TotalCost(prices, groups[..i])
      invariant AllPriced(prices, groups[..i])
    {
      var r := groups[i];
      assert groups[..i + 1][..i] == groups[..i] && groups[..i + 1][i] == r;
      if r.tokens.input <= 0 && r.tokens.cached <= 0 && r.tokens.output <= 0 {
        NoTokensCostNothing(prices, r);
        continue;
      }
      if r.model !in prices {
        assert !Priced(prices, groups[i]);
        return None;
      }
      total := total + Cost(r.tokens, prices[r.model]);
      assert RowCost(prices, r) == Cost(r.tokens, prices[r.model]) by { PricedRow(prices, r); }
    }
    assert groups[..|groups|] == groups;
    cost := Some(total);
  }

  lemma PricedRow(prices: Prices, r: UsageRow)
    requires r.model in prices
    ensures RowCost(prices, r) == Cost(r.tokens, prices[r.model])
  {
  }

  function SumOfCosts(costs: seq<Option<real>>): real {
    if costs == [] then 0.0
    else SumOfCosts(costs[..|costs| - 1]) + if costs[|costs| - 1].Some? then costs[|costs| - 1].value else 0.0
  }

  /** `attachUsageCosts`: rows whose model has no price stay without a cost; the others add up to the total. */
  method AttachRowCosts(prices: Prices, rows: seq<UsageRow>) returns (costs: seq<Option<real>>)
    ensures |costs| == |rows| && forall i :: 0 <= i < |rows| ==> (costs[i].Some? <==> rows[i].model in prices)
    ensures forall i :: 0 <= i < |rows| && rows[i].model in prices ==>
              costs[i].value == Cost(rows[i].tokens, prices[rows[i].model])
    ensures SumOfCosts(costs) == TotalCost(prices, rows)
  {
    hide Cost;
    costs := [];
    for i := 0 to |rows|
      invariant |costs| == i && forall j :: 0 <= j < i ==> (costs[j].Some? <==> rows[j].model in prices)
      invariant forall j :: 0 <= j < i && rows[j].model in prices ==>
                  costs[j].value == Cost(rows[j].tokens, prices[rows[j].model])
      invariant SumOfCosts(costs) == TotalCost(prices, rows[..i])
    {
      var r := rows[i];
      assert rows[..i + 1][..i] == rows[..i];
      ghost var before := costs;
      costs := costs + [if r.model in prices then Some(Cost(r.tokens, prices[r.model])) else None];
      assert costs[..i] == before;
    }
    assert rows[..|rows|] == rows;
  }

  datatype KeySummary = KeySummary(keyId: int, cost: Option<real>)

  /** The groups of one key. */
  function OfKey(groups: seq<UsageRow>, key: int): (s: seq<UsageRow>)
    ensures forall r :: r in s <==> r in groups && KeyOf(r) == key
  {
    if groups == [] then [] else
    var init, last := OfKey(groups[..|groups| - 1], key), groups[|groups| - 1];
    if KeyOf(last) == key then init + [last] else init
  }

  /** What the key's summary is given: nothing when it has no group or one of them has no price. */
  function KeyCost(prices: Prices, groups: seq<UsageRow>, key: int): Option<real> {
    var own := OfKey(groups, key);
    if own == [] || !AllPriced(prices, own) then None else Some(TotalCost(prices, own))
  }

  ghost predicate Tallied(prices: Prices, groups: seq<UsageRow>, totals: map<int, real>, seen: set<int>,
                          missing: set<int>) {
    forall k :: TalliedFor(prices, groups, totals, seen, missing, k)
  }

  ghost predicate TalliedFor(prices: Prices, groups: seq<UsageRow>, totals: map<int, real>, seen: set<int>,
                             missing: set<int>, k: int) {
    && (k in seen <==> OfKey(groups, k) != [])
    && (k in missing <==> !AllPriced(prices, OfKey(groups, k)))
    && (k !in missing ==> (if k in totals then totals[k] else 0.0) == TotalCost(prices, OfKey(groups, k)))
  }

  /** Read a map the way Go does: an absent key is zero. */
  function Get(m: map<int, real>, k: int): real {
    if k in m then m[k] else 0.0
  }

  lemma OfKeyMore(groups: seq<UsageRow>, r: UsageRow, k: int)
    ensures OfKey(groups + [r], k) == if KeyOf(r) == k then OfKey(groups, k) + [r] else OfKey(groups, k)
  {
    assert (groups + [r])[..|groups|] == groups && (groups + [r])[|groups|] == r;
  }

  /** One iteration of the loop of `attachUsageKeySummaryCosts`. */
  lemma TallyOne(prices: Prices, groups: seq<UsageRow>, r: UsageRow, totals: map<int, real>, seen: set<int>,
                 missing: set<int>, k: int)
    requires TalliedFor(prices, groups, totals, seen, missing, k)
    ensures !HasTokens(r.tokens) ==> TalliedFor(prices, groups + [r], totals, seen + {KeyOf(r)}, missing, k)
    ensures !Priced(prices, r) ==>
              TalliedFor(prices, groups + [r], totals, seen + {KeyOf(r)}, missing + {KeyOf(r)}, k)
    ensures r.model in prices ==>
              TalliedFor(prices, groups + [r],
                         totals[KeyOf(r) := Get(totals, KeyOf(r)) + Cost(r.tokens, prices[r.model])],
                         seen + {KeyOf(r)}, missing, k)
  {
    hide Cost, TotalCost, AllPriced, RowCost, OfKey;
    OfKeyMore(groups, r, k);
    OneMore(prices, OfKey(groups, k), r);
    if !HasTokens(r.tokens) { NoTokensCostNothing(prices, r); }
    if r.model in prices { PricedRow(prices, r); }
  }

  lemma SumMore(rows: seq<UsageRow>, r: UsageRow)
    ensures Sum(rows + [r]) == Add(Sum(rows), r.tokens)
  {
    assert (rows + [r])[..|rows|] == rows && (rows + [r])[|rows|] == r;
  }

  lemma OneMore(prices: Prices, own: seq<UsageRow>, r: UsageRow)
    ensures AllPriced(prices, own + [r]) <==> AllPriced(prices, own) && Priced(prices, r)
    ensures TotalCost(prices, own + [r]) == TotalCost(prices, own) + RowCost(prices, r)
  {
    hide RowCost, Priced;
    assert (own + [r])[..|own|] == own && (own + [r])[|own|] == r;
    assert forall i :: 0 <= i < |own| ==> (own + [r])[i] == own[i];
  }

  lemma TallyMore(prices: Prices, groups: seq<UsageRow>, r: UsageRow, totals: map<int, real>, seen: set<int>,
                  missing: set<int>)
    requires Tallied(prices, groups, totals, seen, missing)
    ensures !HasTokens(r.tokens) ==> Tallied(prices, groups + [r], totals, seen + {KeyOf(r)}, missing)
    ensures !Priced(prices, r) ==> Tallied(prices, groups + [r], totals, seen + {KeyOf(r)}, missing + {KeyOf(r)})
    ensures r.model in prices ==>
              Tallied(prices, groups + [r], totals[KeyOf(r) := Get(totals, KeyOf(r)) + Cost(r.tokens, prices[r.model])],
                      seen + {KeyOf(r)}, missing)
  {
    hide TalliedFor, Cost, Get, HasTokens, Priced;
    var counted := seen + {KeyOf(r)};
    if !HasTokens(r.tokens) {
      forall k ensures TalliedFor(prices, groups + [r], totals, counted, missing, k) {
        TallyOne(prices, groups, r, totals, seen, missing, k);
      }
    }
    if !Priced(prices, r) {
      forall k ensures TalliedFor(prices, groups + [r], totals, counted, missing + {KeyOf(r)}, k) {
        TallyOne(prices, groups, r, totals, seen, missing, k);
      }
    }
    if r.model in prices {
      var more := totals[KeyOf(r) := Get(totals, KeyOf(r)) + Cost(r.tokens, prices[r.model])];
      forall k ensures TalliedFor(prices, groups + [r], more, counted, missing, k) {
        TallyOne(prices, groups, r, totals, seen, missing, k);
      }
    }
  }

  /** Prices exist, the key has a group, and every group of it with tokens has a price. */
  predicate Attachable(prices: Prices, groups: seq<UsageRow>, key: int) {
    && prices != map[] && (exists r :: r in groups && KeyOf(r) == key)
    && forall r :: r in groups && KeyOf(r) == key && HasTokens(r.tokens) ==> r.model in prices
  }

  lemma AttachableIff(prices: Prices, groups: seq<UsageRow>, key: int)
    ensures Attachable(prices, groups, key)
       <==> prices != map[] && OfKey(groups, key) != [] && AllPriced(prices, OfKey(groups, key))
  {
    hide HasTokens, KeyOf;
    var own := OfKey(groups, key);
    assert forall r :: r in own <==> r in groups && KeyOf(r) == key;
    if own != [] { assert own[0] in own; }
    assert AllPriced(prices, own) <==> forall r :: r in own ==> Priced(prices, r);
  }

  /** `attachUsageKeySummaryCosts`: each summary gets its key's cost or keeps what it had. */
  method AttachKeyCosts(prices: Prices, groups: seq<UsageRow>, list: seq<KeySummary>) returns (out: seq<KeySummary>)
    ensures |out| == |list| && forall i :: 0 <= i < |list| ==> out[i].keyId == list[i].keyId
    ensures forall i :: 0 <= i < |list| && Attachable(prices, groups, list[i].keyId) ==>
              out[i].cost == Some(TotalCost(prices, OfKey(groups, list[i].keyId)))
    ensures forall i :: 0 <= i < |list| && !Attachable(prices, groups, list[i].keyId) ==> out[i] == list[i]
  {
    hide Cost, OfKey, TotalCost, AllPriced, Tallied;
    if |list| == 0 || |prices| == 0 {
      return list;
    }
    var totals: map<int, real>, seen: set<int>, missing: set<int> := map[], {}, {};
    assert Tallied(prices, [], totals, seen, missing) by { NothingTallied(prices); }
    for i := 0 to |groups|
      invariant Tallied(prices, groups[..i], totals, seen, missing)
    {
      var r := groups[i];
      assert groups[..i + 1] == groups[..i] + [r];
      TallyMore(prices, groups[..i], r, totals, seen, missing);
      seen := seen + {KeyOf(r)};
      if r.tokens.input <= 0 && r.tokens.cached <= 0 && r.tokens.output <= 0 {
        continue;
      }
      if r.model !in prices {
        missing := missing + {KeyOf(r)};
        continue;
      }
      totals := totals[KeyOf(r) := Get(totals, KeyOf(r)) + Cost(r.tokens, prices[r.model])];
    }
    assert groups[..|groups|] == groups;
    out := [];
    for i := 0 to |list|
      invariant |out| == i && forall j :: 0 <= j < i ==> out[j].keyId == list[j].keyId
      invariant forall j :: 0 <= j < i && Attachable(prices, groups, list[j].keyId) ==>
                  out[j].cost == Some(TotalCost(prices, OfKey(groups, list[j].keyId)))
      invariant forall j :: 0 <= j < i && !Attachable(prices, groups, list[j].keyId) ==> out[j] == list[j]
    {
      var item := list[i];
      TallyGivesCost(prices, groups, totals, seen, missing, item.keyId);
      AttachableIff(prices, groups, item.keyId);
      if item.keyId !in seen || item.keyId in missing {
        out := out + [item];
      } else {
        out := out + [item.(cost := Some(Get(totals, item.keyId)))];
      }
    }
  }

  lemma NothingTallied(prices: Prices)
    ensures Tallied(prices, [], map[], {}, {})
  {
  }

  lemma TallyGivesCost(prices: Prices, groups: seq<UsageRow>, totals: map<int, real>, seen: set<int>,
                       missing: set<int>, k: int)
    requires Tallied(prices, groups, totals, seen, missing)
    ensures KeyCost(prices, groups, k) == if k !in seen || k in missing then None else Some(Get(totals, k))
  {
    assert TalliedFor(prices, groups, totals, seen, missing, k);
  }

  // ---------- how grouping changes the estimate ----------

  predicate NonNegative(rows: seq<UsageRow>) {
    forall r :: r in rows ==> r.tokens.input >= 0 && r.tokens.cached >= 0 && r.tokens.output >= 0
  }

  /** A cached token never costs more than an input token. */
  predicate CachedIsCheaper(prices: Prices) {
    forall m :: m in prices ==> prices[m].cached <= prices[m].input
  }

  /** On all rows the cached tokens are within the input tokens, or on all they reach them. */
  predicate OneSided(rows: seq<UsageRow>) {
    || (forall r :: r in rows ==> r.tokens.cached <= r.tokens.input)
    || (forall r :: r in rows ==> r.tokens.cached >= r.tokens.input)
  }

  /** Pricing these rows of one model together loses nothing. */
  predicate Exact(prices: Prices, model: string, rows: seq<UsageRow>) {
    model in prices && prices[model].cached < prices[model].input ==> OneSided(rows)
  }

  function CachedSum(rows: seq<UsageRow>): int {
    if rows == [] then 0 else CachedSum(rows[..|rows| - 1]) + CachedPart(rows[|rows| - 1].tokens)
  }

  lemma {:induction false} SumBounds(rows: seq<UsageRow>)
    requires NonNegative(rows)
    ensures Sum(rows).input >= 0 && Sum(rows).cached >= 0 && Sum(rows).output >= 0
    ensures CachedSum(rows) <= Sum(rows).input && CachedSum(rows) <= Sum(rows).cached
    ensures CachedSum(rows) == Sum(rows).cached <==> forall r :: r in rows ==> r.tokens.cached <= r.tokens.input
    ensures CachedSum(rows) == Sum(rows).input <==> forall r :: r in rows ==> r.tokens.cached >= r.tokens.input
    decreases |rows|
  {
    if rows != [] {
      var init, last := rows[..|rows| - 1], rows[|rows| - 1];
      assert rows == init + [last];
      SumBounds(init);
    }
  }

  /** Capping each row's cached tokens separately never prices more of them as cached. */
  lemma CappedTogether(rows: seq<UsageRow>)
    requires NonNegative(rows)
    ensures CachedSum(rows) <= CachedPart(Sum(rows))
    ensures CachedSum(rows) == CachedPart(Sum(rows)) <==> OneSided(rows)
  {
    SumBounds(rows);
  }

  /** The price of token totals of which `cached` count as cached. */
  function Charge(input: int, cached: int, output: int, p: Price): real {
    ((input - cached) as real * p.input + cached as real * p.cached + output as real * p.output) / 1000000.0
  }

  lemma ChargeAdds(i: int, c: int, o: int, j: int, d: int, q: int, p: Price)
    ensures Charge(i + j, c + d, o + q, p) == Charge(i, c, o, p) + Charge(j, d, q, p)
  {
    assert ((i + j) - (c + d)) as real == (i - c) as real + (j - d) as real;
    Distributes((i - c) as real, (j - d) as real, p.input);
    Distributes(c as real, d as real, p.cached);
    Distributes(o as real, q as real, p.output);
  }

  lemma Distributes(a: real, b: real, x: real)
    ensures (a + b) * x == a * x + b * x
  {
  }

  /** Counting more tokens as cached lowers the charge, strictly when cached tokens are cheaper. */
  lemma MoreCachedIsCheaper(i: int, c: int, d: int, o: int, p: Price)
    requires c <= d && p.cached <= p.input
    ensures Charge(i, d, o, p) <= Charge(i, c, o, p)
    ensures Charge(i, d, o, p) == Charge(i, c, o, p) <==> c == d || p.cached == p.input
  {
    var extra := (d - c) as real;
    assert (i - c) as real == (i - d) as real + extra && d as real == c as real + extra;
    Distributes((i - d) as real, extra, p.input);
    Distributes(c as real, extra, p.cached);
    assert extra * p.input - extra * p.cached == extra * (p.input - p.cached);
    if c < d && p.cached < p.input {
      assert extra * (p.input - p.cached) > 0.0;
    } else {
      assert extra * (p.input - p.cached) == 0.0;
    }
  }

  lemma {:induction false} SameModelCost(prices: Prices, model: string, rows: seq<UsageRow>)
    requires NonNegative(rows) && model in prices && forall r :: r in rows ==> r.model == model
    ensures TotalCost(prices, rows) == Charge(Sum(rows).input, CachedSum(rows), Sum(rows).output, prices[model])
    decreases |rows|
  {
    hide Charge;
    if rows == [] {
      NothingCharged(prices[model]);
    } else {
      var init, last := rows[..|rows| - 1], rows[|rows| - 1];
      assert rows == init + [last];
      SameModelCost(prices, model, init);
      RowCharge(prices, last);
      ChargeAdds(Sum(init).input, CachedSum(init), Sum(init).output,
                 last.tokens.input, CachedPart(last.tokens), last.tokens.output, prices[model]);
    }
  }

  lemma NothingCharged(p: Price)
    ensures Charge(0, 0, 0, p) == 0.0
  {
  }

  lemma RowCharge(prices: Prices, r: UsageRow)
    requires NonNegative([r]) && r.model in prices
    ensures RowCost(prices, r) == Charge(r.tokens.input, CachedPart(r.tokens), r.tokens.output, prices[r.model])
  {
    assert r in [r];
  }

  lemma {:induction false} UnpricedCostNothing(prices: Prices, model: string, rows: seq<UsageRow>)
    requires model !in prices && forall r :: r in rows ==> r.model == model
    ensures TotalCost(prices, rows) == 0.0
    decreases |rows|
  {
    if rows != [] {
      UnpricedCostNothing(prices, model, rows[..|rows| - 1]);
    }
  }

  /** Rows of one model priced together cost at most their sum, and just that when exact. */
  lemma GroupCost(prices: Prices, group: UsageRow, rows: seq<UsageRow>)
    requires NonNegative(rows) && CachedIsCheaper(prices)
    requires group.tokens == Sum(rows) && forall r :: r in rows ==> r.model == group.model
    ensures RowCost(prices, group) <= TotalCost(prices, rows)
    ensures RowCost(prices, group) == TotalCost(prices, rows) <==> Exact(prices, group.model, rows)
  {
    hide Charge, TotalCost, RowCost, Sum, CachedSum, CachedPart, OneSided;
    if group.model in prices {
      var p := prices[group.model];
      SumBounds(rows);
      SameModelCost(prices, group.model, rows);
      RowCharge(prices, group);
      CappedTogether(rows);
      MoreCachedIsCheaper(Sum(rows).input, CachedSum(rows), CachedPart(Sum(rows)), Sum(rows).output, p);
    } else {
      UnpricedCostNothing(prices, group.model, rows);
      assert RowCost(prices, group) == 0.0 by { UnpricedRow(prices, group); }
    }
  }

  lemma UnpricedRow(prices: Prices, r: UsageRow)
    requires r.model !in prices
    ensures RowCost(prices, r) == 0.0
  {
  }

  // ---------- taking one group away ----------

  lemma NothingSummed(prices: Prices)
    ensures TotalCost(prices, []) == 0.0 && Sum([]) == Tokens(0, 0, 0)
  {
  }

  lemma {:induction false} SplitCost(prices: Prices, g: Grouping, rows: seq<UsageRow>, l: (int, string))
    ensures TotalCost(prices, rows) == TotalCost(prices, Select(g, rows, l)) + TotalCost(prices, Without(g, rows, l))
    decreases |rows|
  {
    hide RowCost, Label, TotalCost;
    if rows == [] {
      NothingSummed(prices);
    } else {
      var init, last := rows[..|rows| - 1], rows[|rows| - 1];
      assert rows == init + [last];
      SplitCost(prices, g, init, l);
      OneMore(prices, init, last);
      OneMore(prices, Select(g, init, l), last);
      OneMore(prices, Without(g, init, l), last);
    }
  }

  lemma {:induction false} SelectElsewhere(g: Grouping, rows: seq<UsageRow>, l: (int, string), other: (int, string))
    requires other != l
    ensures Select(g, Without(g, rows, l), other) == Select(g, rows, other)
    decreases |rows|
  {
    hide Label;
    if rows != [] {
      var init, last := rows[..|rows| - 1], rows[|rows| - 1];
      SelectElsewhere(g, init, l, other);
      var w := Without(g, init, l);
      assert (w + [last])[..|w|] == w;
    }
  }

  lemma StillAppears(g: Grouping, rows: seq<UsageRow>, l: (int, string), other: (int, string))
    requires Appears(g, rows, other) && other != l
    ensures Appears(g, Without(g, rows, l), other)
  {
    hide Label, Without;
    SelectMembers(g, rows, l);
    var j :| 0 <= j < |rows| && Label(g, rows[j]) == other;
    assert rows[j] in Without(g, rows, l);
  }

  lemma AppearsEarlier(g: Grouping, groups: seq<UsageRow>, l: (int, string))
    requires groups != [] && Appears(g, groups, l) && l != Label(g, groups[|groups| - 1])
    ensures Appears(g, groups[..|groups| - 1], l)
  {
    hide Label;
    var k :| 0 <= k < |groups| && Label(g, groups[k]) == l;
    assert groups[..|groups| - 1][k] == groups[k];
  }

  /** Without its last group the result groups the rows of the other labels. */
  lemma GroupsOfTheRest(g: Grouping, groups: seq<UsageRow>, rows: seq<UsageRow>)
    requires groups != [] && IsGroupBy(g, groups, rows)
    ensures IsGroupBy(g, groups[..|groups| - 1], Without(g, rows, Label(g, groups[|groups| - 1])))
  {
    hide Label, Select, Without, Sum, Appears;
    var init, l := groups[..|groups| - 1], Label(g, groups[|groups| - 1]);
    var rest := Without(g, rows, l);
    forall i | 0 <= i < |init|
      ensures Appears(g, rest, Label(g, init[i])) && init[i].tokens == Sum(Select(g, rest, Label(g, init[i])))
    {
      assert init[i] == groups[i] && Label(g, groups[i]) != l;
      SelectElsewhere(g, rows, l, Label(g, groups[i]));
      StillAppears(g, rows, l, Label(g, groups[i]));
    }
    SelectMembers(g, rows, l);
    forall i | 0 <= i < |rest| ensures Appears(g, init, Label(g, rest[i])) {
      assert rest[i] in rest;
      var j :| 0 <= j < |rows| && rows[j] == rest[i];
      AppearsEarlier(g, groups, Label(g, rows[j]));
    }
  }

  predicate AllExact(prices: Prices, g: Grouping, groups: seq<UsageRow>, rows: seq<UsageRow>) {
    forall i :: 0 <= i < |groups| ==> Exact(prices, groups[i].model, Select(g, rows, Label(g, groups[i])))
  }

  lemma AllExactSplits(prices: Prices, g: Grouping, groups: seq<UsageRow>, rows: seq<UsageRow>)
    requires groups != [] && IsGroupBy(g, groups, rows)
    ensures AllExact(prices, g, groups, rows)
       <==> AllExact(prices, g, groups[..|groups| - 1], Without(g, rows, Label(g, groups[|groups| - 1])))
            && Exact(prices, groups[|groups| - 1].model, Select(g, rows, Label(g, groups[|groups| - 1])))
  {
    hide Label, Select, Without, Sum, Exact;
    var n := |groups| - 1;
    forall i | 0 <= i < n
      ensures Select(g, Without(g, rows, Label(g, groups[n])), Label(g, groups[i]))
           == Select(g, rows, Label(g, groups[i]))
    {
      SelectElsewhere(g, rows, Label(g, groups[n]), Label(g, groups[i]));
    }
  }

  /** Pricing groups never exceeds pricing their rows, and is the same just when every group is exact. */
  lemma {:induction false} GroupingNeverRaisesCost(prices: Prices, g: Grouping, groups: seq<UsageRow>,
                                                   rows: seq<UsageRow>)
    requires IsGroupBy(g, groups, rows) && NonNegative(rows) && CachedIsCheaper(prices)
    ensures TotalCost(prices, groups) <= TotalCost(prices, rows)
    ensures TotalCost(prices, groups) == TotalCost(prices, rows) <==> AllExact(prices, g, groups, rows)
    decreases |groups|
  {
    hide RowCost, Select, Without, Sum, Exact, IsGroupBy;
    if groups == [] {
      NoGroupsNoRows(g, rows);
    } else {
      var last := groups[|groups| - 1];
      var init, l := groups[..|groups| - 1], Label(g, last);
      SelectMembers(g, rows, l);
      GroupsOfTheRest(g, groups, rows);
      GroupingNeverRaisesCost(prices, g, init, Without(g, rows, l));
      SplitCost(prices, g, rows, l);
      GroupSums(g, groups, rows, |groups| - 1);
      GroupCost(prices, last, Select(g, rows, l));
      AllExactSplits(prices, g, groups, rows);
    }
  }

  lemma NoGroupsNoRows(g: Grouping, rows: seq<UsageRow>)
    requires IsGroupBy(g, [], rows)
    ensures rows == []
  {
    assert |rows| > 0 ==> Appears(g, [], Label(g, rows[0]));
  }

  lemma GroupSums(g: Grouping, groups: seq<UsageRow>, rows: seq<UsageRow>, i: nat)
    requires IsGroupBy(g, groups, rows) && i < |groups|
    ensures groups[i].tokens == Sum(Select(g, rows, Label(g, groups[i])))
  {
  }

  // ---------- grouping the groups ----------

  function OfModel(rows: seq<UsageRow>, m: string): seq<UsageRow> {
    Select(PerModel, rows, (0, m))
  }

  lemma OfModelMore(rows: seq<UsageRow>, r: UsageRow, m: string)
    ensures Sum(OfModel(rows + [r], m)) == if r.model == m then Add(Sum(OfModel(rows, m)), r.tokens)
        else Sum(OfModel(rows, m))
  {
    hide Sum;
    assert (rows + [r])[..|rows|] == rows && (rows + [r])[|rows|] == r;
    SumMore(OfModel(rows, m), r);
  }

  lemma {:induction false} SelectSplits(rows: seq<UsageRow>, l: (int, string), m: string)
    ensures Sum(OfModel(rows, m))
         == Add(if l.1 == m then Sum(Select(PerKeyAndModel, rows, l)) else Tokens(0, 0, 0),
                Sum(OfModel(Without(PerKeyAndModel, rows, l), m)))
    decreases |rows|
  {
    hide Sum, OfModel;
    if rows == [] {
      NothingSelected(m);
    } else {
      var init, last := rows[..|rows| - 1], rows[|rows| - 1];
      assert rows == init + [last];
      SelectSplits(init, l, m);
      OfModelMore(init, last, m);
      if Label(PerKeyAndModel, last) == l {
        SumMore(Select(PerKeyAndModel, init, l), last);
      } else {
        OfModelMore(Without(PerKeyAndModel, init, l), last, m);
      }
    }
  }

  lemma NothingSelected(m: string)
    ensures Sum([]) == Tokens(0, 0, 0) && OfModel([], m) == []
  {
  }

  /** Summing a model's per-key groups gives the model's total. */
  lemma {:induction false} SumOfGroups(fine: seq<UsageRow>, rows: seq<UsageRow>, m: string)
    requires IsGroupBy(PerKeyAndModel, fine, rows)
    ensures Sum(OfModel(fine, m)) == Sum(OfModel(rows, m))
    decreases |fine|
  {
    hide IsGroupBy, Without, Select, Sum, OfModel;
    if fine == [] {
      NoGroupsNoRows(PerKeyAndModel, rows);
    } else {
      var init, last := fine[..|fine| - 1], fine[|fine| - 1];
      var l := Label(PerKeyAndModel, last);
      assert fine == init + [last];
      GroupsOfTheRest(PerKeyAndModel, fine, rows);
      GroupSums(PerKeyAndModel, fine, rows, |fine| - 1);
      SumOfGroups(init, Without(PerKeyAndModel, rows, l), m);
      SelectSplits(rows, l, m);
      OfModelMore(init, last, m);
    }
  }

  lemma GroupOfGroups(coarse: seq<UsageRow>, fine: seq<UsageRow>, rows: seq<UsageRow>)
    requires IsGroupBy(PerModel, coarse, rows) && IsGroupBy(PerKeyAndModel, fine, rows)
    ensures IsGroupBy(PerModel, coarse, fine)
  {
    hide Select, Sum;
    forall i | 0 <= i < |coarse|
      ensures Appears(PerModel, fine, Label(PerModel, coarse[i]))
      ensures coarse[i].tokens == Sum(Select(PerModel, fine, Label(PerModel, coarse[i])))
    {
      SumOfGroups(fine, rows, coarse[i].model);
      var j :| 0 <= j < |rows| && Label(PerModel, rows[j]) == Label(PerModel, coarse[i]);
      assert Appears(PerKeyAndModel, fine, Label(PerKeyAndModel, rows[j]));
      var k :| 0 <= k < |fine| && Label(PerKeyAndModel, fine[k]) == Label(PerKeyAndModel, rows[j]);
      assert Label(PerModel, fine[k]) == Label(PerModel, coarse[i]);
    }
    forall i | 0 <= i < |fine| ensures Appears(PerModel, coarse, Label(PerModel, fine[i])) {
      assert Appears(PerKeyAndModel, rows, Label(PerKeyAndModel, fine[i]));
      var j :| 0 <= j < |rows| && Label(PerKeyAndModel, rows[j]) == Label(PerKeyAndModel, fine[i]);
      assert Appears(PerModel, coarse, Label(PerModel, rows[j]));
    }
  }

  lemma GroupsNonNegative(g: Grouping, groups: seq<UsageRow>, rows: seq<UsageRow>)
    requires IsGroupBy(g, groups, rows) && NonNegative(rows)
    ensures NonNegative(groups)
  {
    hide Select, Sum, Label;
    forall r | r in groups ensures r.tokens.input >= 0 && r.tokens.cached >= 0 && r.tokens.output >= 0 {
      var i :| 0 <= i < |groups| && groups[i] == r;
      SelectMembers(g, rows, Label(g, groups[i]));
      SumBounds(Select(g, rows, Label(g, groups[i])));
    }
  }

  lemma WithinInputIsExact(prices: Prices, g: Grouping, groups: seq<UsageRow>, rows: seq<UsageRow>)
    requires forall r :: r in rows ==> r.tokens.cached <= r.tokens.input
    ensures AllExact(prices, g, groups, rows)
  {
    hide Label, Select;
    forall i | 0 <= i < |groups| ensures Exact(prices, groups[i].model, Select(g, rows, Label(g, groups[i]))) {
      SelectMembers(g, rows, Label(g, groups[i]));
    }
  }

  /**
   * The three estimates of one log: per model at most per key and model, at most per row. All agree
   * when no row has more cached than input tokens.
   */
  lemma CoarserIsCheaper(prices: Prices, coarse: seq<UsageRow>, fine: seq<UsageRow>, rows: seq<UsageRow>)
    requires IsGroupBy(PerModel, coarse, rows) && IsGroupBy(PerKeyAndModel, fine, rows)
    requires NonNegative(rows) && CachedIsCheaper(prices)
    ensures TotalCost(prices, coarse) <= TotalCost(prices, fine) <= TotalCost(prices, rows)
    ensures (forall r :: r in rows ==> r.tokens.cached <= r.tokens.input) ==>
              TotalCost(prices, coarse) == TotalCost(prices, fine) == TotalCost(prices, rows)
  {
    hide TotalCost, Select, IsGroupBy, AllExact;
    GroupsNonNegative(PerKeyAndModel, fine, rows);
    GroupOfGroups(coarse, fine, rows);
    GroupingNeverRaisesCost(prices, PerModel, coarse, fine);
    GroupingNeverRaisesCost(prices, PerKeyAndModel, fine, rows);
    GroupingNeverRaisesCost(prices, PerModel, coarse, rows);
    if forall r :: r in rows ==> r.tokens.cached <= r.tokens.input {
      WithinInputIsExact(prices, PerModel, coarse, rows);
      WithinInputIsExact(prices, PerKeyAndModel, fine, rows);
    }
  }

  // ---------- per-key summaries against the total ----------

  function KeyCosts(prices: Prices, groups: seq<UsageRow>, keys: seq<int>): real {
    if keys == [] then 0.0
    else KeyCosts(prices, groups, keys[..|keys| - 1]) + TotalCost(prices, OfKey(groups, keys[|keys| - 1]))
  }

  predicate Distinct(keys: seq<int>) {
    forall i, j :: 0 <= i < j < |keys| ==> keys[i] != keys[j]
  }

  lemma {:induction false} OneMoreGroup(prices: Prices, groups: seq<UsageRow>, r: UsageRow, keys: seq<int>)
    requires Distinct(keys)
    ensures KeyCosts(prices, groups + [r], keys)
         == KeyCosts(prices, groups, keys) + if KeyOf(r) in keys then RowCost(prices, r) else 0.0
    decreases |keys|
  {
    hide RowCost, TotalCost;
    if keys != [] {
      var init, k := keys[..|keys| - 1], keys[|keys| - 1];
      OneMoreGroup(prices, groups, r, init);
      assert (groups + [r])[..|groups|] == groups && keys == init + [k];
      OneMore(prices, OfKey(groups, k), r);
    }
  }

  lemma {:induction false} NoGroupsNoKeyCosts(prices: Prices, keys: seq<int>)
    ensures KeyCosts(prices, [], keys) == 0.0
    decreases |keys|
  {
    if keys != [] { NoGroupsNoKeyCosts(prices, keys[..|keys| - 1]); }
  }

  /** Adding up the keys' costs, each key once and in any order, gives the cost of all groups. */
  lemma {:induction false} KeysAddUp(prices: Prices, groups: seq<UsageRow>, keys: seq<int>)
    requires Distinct(keys) && forall r :: r in groups ==> KeyOf(r) in keys
    ensures KeyCosts(prices, groups, keys) == TotalCost(prices, groups)
    decreases |groups|
  {
    hide RowCost, KeyCosts, Distinct;
    if groups == [] {
      NoGroupsNoKeyCosts(prices, keys);
    } else {
      var init, last := groups[..|groups| - 1], groups[|groups| - 1];
      assert groups == init + [last];
      KeysAddUp(prices, init, keys);
      OneMoreGroup(prices, init, last, keys);
    }
  }

  lemma {:induction false} TokensIffSomeRow(rows: seq<UsageRow>)
    requires NonNegative(rows)
    ensures HasTokens(Sum(rows)) <==> exists r :: r in rows && HasTokens(r.tokens)
    decreases |rows|
  {
    if rows != [] {
      var init, last := rows[..|rows| - 1], rows[|rows| - 1];
      assert rows == init + [last];
      SumBounds(init);
      TokensIffSomeRow(init);
    }
  }

  /** A figure is missing for a set of groups exactly when some row with tokens has no price. */
  lemma PricedIffRowsPriced(prices: Prices, g: Grouping, groups: seq<UsageRow>, rows: seq<UsageRow>)
    requires IsGroupBy(g, groups, rows) && NonNegative(rows)
    ensures AllPriced(prices, groups) <==> AllPriced(prices, rows)
  {
    hide Select, Sum, HasTokens;
    if AllPriced(prices, groups) {
      forall i | 0 <= i < |rows| ensures Priced(prices, rows[i]) {
        assert Appears(g, groups, Label(g, rows[i]));
        var k :| 0 <= k < |groups| && Label(g, groups[k]) == Label(g, rows[i]);
        SelectMembers(g, rows, Label(g, groups[k]));
        assert rows[i] in rows;
        TokensIffSomeRow(Select(g, rows, Label(g, groups[k])));
        assert Priced(prices, groups[k]);
      }
    }
    if AllPriced(prices, rows) {
      forall k | 0 <= k < |groups| ensures Priced(prices, groups[k]) {
        var own := Select(g, rows, Label(g, groups[k]));
        SelectMembers(g, rows, Label(g, groups[k]));
        TokensIffSomeRow(own);
        if HasTokens(groups[k].tokens) {
          var r :| r in own && HasTokens(r.tokens);
          var i :| 0 <= i < |rows| && rows[i] == r;
          assert Priced(prices, rows[i]);
        }
      }
    }
  }

  /**
   * The total has a figure exactly when every key in the log has one; then the keys' figures add up
   * to at least the total.
   */
  lemma TotalAgainstKeys(prices: Prices, coarse: seq<UsageRow>, fine: seq<UsageRow>, rows: seq<UsageRow>,
                         keys: seq<int>)
    requires IsGroupBy(PerModel, coarse, rows) && IsGroupBy(PerKeyAndModel, fine, rows)
    requires NonNegative(rows) && CachedIsCheaper(prices)
    requires Distinct(keys) && forall k :: k in keys <==> exists r :: r in fine && KeyOf(r) == k
    ensures AllPriced(prices, coarse) <==> forall k :: k in keys ==> KeyCost(prices, fine, k).Some?
    ensures TotalCost(prices, coarse) <= KeyCosts(prices, fine, keys)
  {
    hide TotalCost, Select, IsGroupBy, Priced, Label;
    PricedIffRowsPriced(prices, PerModel, coarse, rows);
    PricedIffRowsPriced(prices, PerKeyAndModel, fine, rows);
    KeysPricedIff(prices, fine, keys);
    KeysAddUp(prices, fine, keys);
    CoarserIsCheaper(prices, coarse, fine, rows);
  }

  lemma KeysPricedIff(prices: Prices, fine: seq<UsageRow>, keys: seq<int>)
    requires forall k :: k in keys <==> exists r :: r in fine && KeyOf(r) == k
    ensures AllPriced(prices, fine) <==> forall k :: k in keys ==> KeyCost(prices, fine, k).Some?
  {
    hide TotalCost, Priced, OfKey;
    forall k | k in keys ensures OfKey(fine, k) != [] {
      var r :| r in fine && KeyOf(r) == k;
      assert r in OfKey(fine, k);
    }
    if AllPriced(prices, fine) {
      forall k | k in keys ensures AllPriced(prices, OfKey(fine, k)) {
        forall i | 0 <= i < |OfKey(fine, k)| ensures Priced(prices, OfKey(fine, k)[i]) {
          var r := OfKey(fine, k)[i];
          assert r in OfKey(fine, k);
          var j :| 0 <= j < |fine| && fine[j] == r;
        }
      }
    }
    if forall k :: k in keys ==> KeyCost(prices, fine, k).Some? {
      forall j | 0 <= j < |fine| ensures Priced(prices, fine[j]) {
        var own := OfKey(fine, KeyOf(fine[j]));
        assert fine[j] in own && KeyCost(prices, fine, KeyOf(fine[j])).Some?;
        var i :| 0 <= i < |own| && own[i] == fine[j];
        assert Priced(prices, own[i]);
      }
    }
  }
}
