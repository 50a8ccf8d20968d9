/** Dropping tool outputs that have lost the call they answer. */
module OrphanFilter {
  import opened Text
  import opened Json

  function TypeOf(item: Json): string {
    StringValue(Field(item, "type"))
  }

  function CallId(item: Json): string {
    Trim(StringValue(Field(item, "call_id")))
  }

  predicate IsOutput(item: Json) {
    TypeOf(item) == "function_call_output"
  }

  predicate IsCall(item: Json) {
    TypeOf(item) == "function_call" && CallId(item) != ""
  }

  /** The ids called in `items`. */
  function CallIds(items: seq<Json>): set<string> {
    set i | 0 <= i < |items| && IsCall(items[i]) :: CallId(items[i])
  }

  /** Every output has a call with its id before it. */
  predicate Paired(items: seq<Json>) {
    forall i :: 0 <= i < |items| && IsOutput(items[i]) ==> CallId(items[i]) in CallIds(items[..i])
  }

  predicate Keeps(before: seq<Json>, item: Json) {
    IsOutput(item) ==> CallId(item) in CallIds(before)
  }

  function Filter(input: seq<Json>): seq<Json> {
    if input == [] then [] else
    var init, last := input[..|input| - 1], input[|input| - 1];
    Filter(init) + if Keeps(init, last) then [last] else []
  }

  /** `codexBackendDropOrphanFunctionOutputs`. */
  method DropOrphanOutputs(input: seq<Json>) returns (out: seq<Json>)
    ensures out == Filter(input)
  {
    hide Trim, TypeOf, CallId, CallIds, Filter;
    assert Filter([]) == [] && CallIds([]) == {} by { FilterNothing(); }
    if |input| == 0 {
      return input;
    }
    var seenCalls: set<string> := {};
    var filtered: seq<Json> := [];
    var dropped := false;
    for i := 0 to |input|
      invariant seenCalls == CallIds(input[..i])
      invariant filtered == Filter(input[..i])
      invariant dropped || filtered == input[..i]
    {
      var item := input[i];
      assert input[..i + 1] == input[..i] + [item];
      CallIdsSnoc(input[..i], item);
      CallIdNotBlank(input[..i]);
      FilterSnoc(input[..i], item);
      if item.Obj? && TypeOf(item) == "function_call" {
        var callId := CallId(item);
        if callId != "" {
          seenCalls := seenCalls + {callId};
        }
        filtered := filtered + [item];
      } else if item.Obj? && TypeOf(item) == "function_call_output" {
        var callId := CallId(item);
        if callId == "" || callId !in seenCalls {
          dropped := true;
          continue;
        }
        filtered := filtered + [item];
      } else {
        NoObjectNoType(item);
        filtered := filtered + [item];
      }
    }
    assert input[..|input|] == input;
    if !dropped {
      return input;
    }
    out := filtered;
  }

  lemma FilterNothing()
    ensures Filter([]) == [] && CallIds([]) == {}
  {
  }

  lemma FilterSnoc(input: seq<Json>, item: Json)
    ensures Filter(input + [item])
         == if IsOutput(item) && CallId(item) !in CallIds(input) then Filter(input) else Filter(input) + [item]
  {
    hide TypeOf, CallId, CallIds;
    var all := input + [item];
    assert all[..|all| - 1] == input;
    assert Filter(input) + [] == Filter(input);
  }

  lemma NoObjectNoType(item: Json)
    ensures !item.Obj? ==> TypeOf(item) == ""
  {
  }

  lemma CallIdNotBlank(items: seq<Json>)
    ensures "" !in CallIds(items)
  {
    hide TypeOf, CallId;
  }

  lemma CallIdsSnoc(items: seq<Json>, item: Json)
    ensures CallIds(items + [item]) == CallIds(items) + if IsCall(item) then {CallId(item)} else {}
  {
    hide IsCall, CallId;
    var all := items + [item];
    forall id | id in CallIds(items) ensures id in CallIds(all) {
      var i :| 0 <= i < |items| && IsCall(items[i]) && CallId(items[i]) == id;
      assert all[i] == items[i];
    }
    assert all[|items|] == item;
  }

  lemma {:induction false} CallIdsConcat(xs: seq<Json>, ys: seq<Json>)
    ensures CallIds(xs + ys) == CallIds(xs) + CallIds(ys)
    decreases |ys|
  {
    hide IsCall, CallId;
    if ys == [] {
      assert xs + ys == xs;
    } else {
      var init, last := ys[..|ys| - 1], ys[|ys| - 1];
      assert xs + ys == (xs + init) + [last] && ys == init + [last];
      CallIdsConcat(xs, init);
      CallIdsSnoc(xs + init, last);
      CallIdsSnoc(init, last);
    }
  }

  lemma PairedSnoc(items: seq<Json>, item: Json)
    ensures Paired(items + [item]) <==> Paired(items) && Keeps(items, item)
  {
    hide CallIds, IsOutput, CallId;
    var all := items + [item];
    assert forall i :: 0 <= i < |items| ==> all[i] == items[i] && all[..i] == items[..i];
    assert all[..|items|] == items && all[|items|] == item;
  }

  /** Filtering forgets no call. */
  lemma {:induction false} FilterKeepsCalls(input: seq<Json>)
    ensures CallIds(Filter(input)) == CallIds(input)
  {
    hide CallIds, TypeOf, CallId;
    if input != [] {
      var init, last := input[..|input| - 1], input[|input| - 1];
      assert input == init + [last];
      FilterKeepsCalls(init);
      CallIdsSnoc(init, last);
      CallIdsSnoc(Filter(init), last);
      assert Filter(init) + [] == Filter(init);
    }
  }

  /** After the filter every output is preceded by a call with the same id. */
  lemma {:induction false} FilterPaired(input: seq<Json>)
    ensures Paired(Filter(input))
  {
    hide CallIds, TypeOf, CallId, Paired;
    if input == [] {
      assert Paired([]) by { NothingPaired(); }
    } else {
      var init, last := input[..|input| - 1], input[|input| - 1];
      FilterPaired(init);
      FilterKeepsCalls(init);
      PairedSnoc(Filter(init), last);
      assert Filter(init) + [] == Filter(init);
    }
  }

  lemma NothingPaired()
    ensures Paired([])
  {
  }

  /** Nothing is dropped exactly when the input was paired already; so filtering twice is filtering once. */
  lemma {:induction false} FilterFixedIffPaired(input: seq<Json>)
    ensures Filter(input) == input <==> Paired(input)
    ensures |Filter(input)| <= |input| && (|Filter(input)| == |input| ==> Filter(input) == input)
    ensures Filter(Filter(input)) == Filter(input)
    decreases |input|
  {
    hide CallIds, TypeOf, CallId, Paired;
    if input == [] {
      NothingPaired();
    } else {
      var init, last := input[..|input| - 1], input[|input| - 1];
      assert input == init + [last];
      FilterFixedIffPaired(init);
      PairedSnoc(init, last);
      assert Filter(input) == input ==> |Filter(init)| == |init|;
      if |Filter(input)| < |input| {
        FilterPaired(input);
        FilterFixedIffPaired(Filter(input));
      }
    }
  }

  function Others(items: seq<Json>): seq<Json> {
    if items == [] then [] else
    var last := items[|items| - 1];
    Others(items[..|items| - 1]) + if IsOutput(last) then [] else [last]
  }

  /** Everything that is no output survives, in order. */
  lemma {:induction false} FilterKeepsOthers(input: seq<Json>)
    ensures Others(Filter(input)) == Others(input)
  {
    hide CallIds, TypeOf, CallId;
    if input != [] {
      var init, last := input[..|input| - 1], input[|input| - 1];
      FilterKeepsOthers(init);
      var more := Filter(init) + [last];
      assert more[..|more| - 1] == Filter(init);
      assert Filter(init) + [] == Filter(init) && Others(init) + [] == Others(init);
    }
  }

  /** The subsequence of `input` at the indices in `chosen`. */
  function Pick(input: seq<Json>, chosen: set<nat>): seq<Json> {
    if input == [] then [] else
    var n := |input| - 1;
    Pick(input[..n], chosen) + if n in chosen then [input[n]] else []
  }

  function Kept(input: seq<Json>): set<nat> {
    set i: nat | 0 <= i < |input| && Keeps(input[..i], input[i])
  }

  lemma {:induction false} PickCalls(input: seq<Json>, chosen: set<nat>)
    ensures CallIds(Pick(input, chosen)) <= CallIds(input)
  {
    hide CallIds, TypeOf, CallId;
    if input == [] {
    } else {
      var n := |input| - 1;
      assert input == input[..n] + [input[n]];
      PickCalls(input[..n], chosen);
      CallIdsSnoc(input[..n], input[n]);
      CallIdsSnoc(Pick(input[..n], chosen), input[n]);
      assert Pick(input[..n], chosen) + [] == Pick(input[..n], chosen);
    }
  }

  lemma {:induction false} PickSame(input: seq<Json>, a: set<nat>, b: set<nat>)
    requires forall i: nat :: i < |input| ==> (i in a <==> i in b)
    ensures Pick(input, a) == Pick(input, b)
  {
    if input != [] {
      PickSame(input[..|input| - 1], a, b);
    }
  }

  /** The filter's result as a choice of indices. */
  lemma {:induction false} FilterPicksKept(input: seq<Json>)
    ensures Filter(input) == Pick(input, Kept(input))
  {
    hide Keeps;
    if input != [] {
      var n := |input| - 1;
      FilterPicksKept(input[..n]);
      forall i: nat | i < n ensures i in Kept(input[..n]) <==> i in Kept(input) {
        assert input[..n][..i] == input[..i] && input[..n][i] == input[i];
      }
      PickSame(input[..n], Kept(input[..n]), Kept(input));
      assert n in Kept(input) <==> Keeps(input[..n], input[n]);
    }
  }

  /** The filter's result is the greatest paired subsequence: every other paired choice lies inside it. */
  lemma {:induction false} FilterIsGreatest(input: seq<Json>, chosen: set<nat>)
    requires Paired(Pick(input, chosen))
    ensures forall i: nat :: i < |input| && i in chosen ==> i in Kept(input)
  {
    hide CallIds, TypeOf, CallId, Paired;
    if input != [] {
      var n := |input| - 1;
      var rest := Pick(input[..n], chosen);
      PairedSnoc(rest, input[n]);
      assert rest + [] == rest;
      FilterIsGreatest(input[..n], chosen);
      PickCalls(input[..n], chosen);
      forall i: nat | i < |input| && i in chosen ensures i in Kept(input) {
        if i < n {
          assert i in Kept(input[..n]);
          assert input[..n][..i] == input[..i] && input[..n][i] == input[i];
        }
      }
    }
  }
}
