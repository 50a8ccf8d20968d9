/** What the parser reads out of the fields of a completed response: its texts, calls and token counts. */
module ResponsesFields {
  import opened Wrappers
  import opened Text
  import opened Json
  import opened ResponsesStream
  import opened ResponsesReading

  // ---------- an output list ----------

  datatype Part = Part(kind: string, text: string)

  /** An item of an output list: a message of several parts, a call, or a list of items again. */
  datatype OutItem =
    | Said(parts: seq<Part>)
    | Called(id: string, callId: string, name: string, arguments: Json)
    | Listed(items: seq<OutItem>)

  function PartsJson(parts: seq<Part>): seq<Json> {
    if parts == [] then []
    else [Obj(map["type" := Str(parts[0].kind), "text" := Str(parts[0].text)])] + PartsJson(parts[1..])
  }

  function ItemJson(item: OutItem): Json
    decreases item, 0
  {
    match item
    case Said(parts) => Obj(map["type" := Str("message"), "content" := Arr(PartsJson(parts))])
    case Called(id, callId, name, arguments) =>
      Obj(map["type" := Str("function_call"), "id" := Str(id), "call_id" := Str(callId), "name" := Str(name),
              "arguments" := arguments])
    case Listed(items) => Arr(ItemsJson(items))
  }

  function ItemsJson(items: seq<OutItem>): seq<Json>
    decreases items, 1
  {
    if items == [] then [] else [ItemJson(items[0])] + ItemsJson(items[1..])
  }

  /** The texts said in the parts, trimmed, the blank ones and those of other kinds left out. */
  function Spoken(parts: seq<Part>): seq<string> {
    if parts == [] then []
    else (if parts[0].kind == "output_text" && !Blank(parts[0].text) then [Trim(parts[0].text)] else [])
         + Spoken(parts[1..])
  }

  /** All parts of all messages, in order. */
  function AllParts(items: seq<OutItem>): seq<Part>
    decreases items
  {
    if items == [] then [] else
    (match items[0]
     case Said(parts) => parts
     case Called(_, _, _, _) => []
     case Listed(inner) => AllParts(inner))
    + AllParts(items[1..])
  }

  function ArgumentText(c: Codec, arguments: Json): string {
    match arguments
    case Null => "{}"
    case Str(s) => if Blank(s) then "{}" else s
    case _ => if c.encode(arguments) == "" then "{}" else c.encode(arguments)
  }

  /** The calls of an output list that have a name. */
  function NamedCalls(c: Codec, items: seq<OutItem>): seq<ToolCall> {
    if items == [] then [] else
    (if items[0].Called? && !Blank(items[0].name) then
       [ToolCall(Trim(items[0].id), if Blank(items[0].callId) then Trim(items[0].id) else Trim(items[0].callId),
                 Trim(items[0].name), ArgumentText(c, items[0].arguments))] else [])
    + NamedCalls(c, items[1..])
  }

  // ---------- joining ----------

  /** Non-empty texts without white space around them. */
  predicate Solid(texts: seq<string>) {
    forall t :: t in texts ==> t != "" && Trimmed(t)
  }

  lemma {:induction false} JoinSolid(texts: seq<string>)
    requires Solid(texts)
    ensures Trim(Join(texts, "\n")) == Join(texts, "\n") && (Join(texts, "\n") == "" <==> texts == [])
    decreases |texts|
  {
    hide Trim;
    if |texts| > 0 { assert texts[0] in texts; }
    if |texts| > 1 {
      assert forall t :: t in texts[1..] ==> t in texts;
      JoinSolid(texts[1..]);
      var rest := Join(texts[1..], "\n");
      TrimFixed(rest);
      assert (texts[0] + "\n" + rest)[0] == texts[0][0];
      assert (texts[0] + "\n" + rest)[|texts[0]| + |rest|] == rest[|rest| - 1];
    }
    TrimFixed(Join(texts, "\n"));
  }

  lemma {:induction false} JoinConcat(xs: seq<string>, ys: seq<string>)
    ensures Join(xs + ys, "\n")
         == if xs == [] then Join(ys, "\n") else if ys == [] then Join(xs, "\n")
            else Join(xs, "\n") + "\n" + Join(ys, "\n")
    decreases |xs|
  {
    if xs == [] {
      assert xs + ys == ys;
    } else if ys == [] {
      assert xs + ys == xs;
    } else {
      assert (xs + ys)[1..] == xs[1..] + ys && (xs + ys)[0] == xs[0];
      JoinConcat(xs[1..], ys);
      assert |xs| == 1 ==> xs[1..] + ys == ys;
      Regroup(xs[0], Join(xs[1..], "\n"), Join(ys, "\n"));
    }
  }

  lemma Regroup(a: string, b: string, d: string)
    ensures a + "\n" + (b + "\n" + d) == (a + "\n" + b) + "\n" + d
  {
  }

  lemma {:induction false} SpokenSolid(parts: seq<Part>)
    ensures Solid(Spoken(parts))
  {
    hide Trim;
    if parts != [] {
      TrimFixed(parts[0].text);
      TrimFixed(Trim(parts[0].text));
      SpokenSolid(parts[1..]);
    }
  }

  lemma {:induction false} SpokenConcat(xs: seq<Part>, ys: seq<Part>)
    ensures Spoken(xs + ys) == Spoken(xs) + Spoken(ys)
  {
    hide Trim;
    if xs == [] {
      assert xs + ys == ys;
    } else {
      assert (xs + ys)[1..] == xs[1..] + ys && (xs + ys)[0] == xs[0];
      SpokenConcat(xs[1..], ys);
    }
  }

  // ---------- texts ----------

  lemma {:induction false} PartsSaid(parts: seq<Part>)
    ensures ContentTexts(PartsJson(parts)) == Spoken(parts)
  {
    hide Trim;
    if parts != [] {
      var rest := PartsJson(parts[1..]);
      assert PartsJson(parts)[1..] == rest;
      PartsSaid(parts[1..]);
      TrimFixed(parts[0].text);
    }
  }

  function PartsOf(item: OutItem): seq<Part> {
    match item
    case Said(parts) => parts
    case Called(_, _, _, _) => []
    case Listed(inner) => AllParts(inner)
  }

  lemma {:induction false} ItemSays(item: OutItem)
    ensures OutputText(ItemJson(item)) == Join(Spoken(PartsOf(item)), "\n")
    decreases item, 0
  {
    hide Trim, ContentTexts, Spoken, AllParts;
    SpokenSolid(PartsOf(item));
    JoinSolid(Spoken(PartsOf(item)));
    match item
    case Said(parts) =>
      PartsSaid(parts);
      assert Items(Field(ItemJson(item), "content")) == PartsJson(parts);
    case Called(_, _, _, _) =>
      NothingSpoken();
      assert |"function_call"| == 13 && |"message"| == 7;
    case Listed(inner) => ListSays(inner);
  }

  lemma NothingSpoken()
    ensures Spoken([]) == [] && Join([], "\n") == "" && AllParts([]) == [] && OutputTexts([]) == []
  {
  }

  /** Joining an item's texts first makes no difference. */
  lemma JoinedInSteps(first: seq<string>, more: seq<string>, tail: seq<string>)
    requires Solid(first) && Solid(more) && Solid(tail) && Join(tail, "\n") == Join(more, "\n")
    ensures var all := (if Join(first, "\n") != "" then [Join(first, "\n")] else []) + tail;
            Solid(all) && Join(all, "\n") == Join(first + more, "\n")
  {
    hide Trim, Join;
    var text := Join(first, "\n");
    JoinSolid(first);
    JoinSolid(more);
    JoinSolid(tail);
    TrimFixed(text);
    JoinConcat(first, more);
    JoinConcat([text], tail);
    assert [] + tail == tail && Join([text], "\n") == text by { JoinOne(text); }
  }

  lemma JoinOne(text: string)
    ensures Join([text], "\n") == text
  {
  }

  lemma {:induction false} ListSays(items: seq<OutItem>)
    ensures Solid(OutputTexts(ItemsJson(items)))
    ensures Join(OutputTexts(ItemsJson(items)), "\n") == Join(Spoken(AllParts(items)), "\n")
    decreases items, 1
  {
    hide Trim, OutputText, Spoken, ItemJson, Solid, Join;
    if items == [] {
      NothingSpoken();
      assert Solid([]) by { NothingSolid(); }
    } else {
      var rest := ItemsJson(items[1..]);
      assert ItemsJson(items)[1..] == rest && ItemsJson(items)[0] == ItemJson(items[0]);
      ItemSays(items[0]);
      ListSays(items[1..]);
      SpokenConcat(PartsOf(items[0]), AllParts(items[1..]));
      SpokenSolid(PartsOf(items[0]));
      SpokenSolid(AllParts(items[1..]));
      JoinedInSteps(Spoken(PartsOf(items[0])), Spoken(AllParts(items[1..])), OutputTexts(rest));
      assert AllParts(items) == PartsOf(items[0]) + AllParts(items[1..]);
    }
  }

  lemma NothingSolid()
    ensures Solid([])
  {
  }

  // ---------- calls ----------

  lemma CalledRead(c: Codec, item: OutItem)
    requires item.Called?
    ensures ToolCallFromValue(c, ItemJson(item))
         == if Blank(item.name) then None
            else Some(ToolCall(Trim(item.id), if Blank(item.callId) then Trim(item.id) else Trim(item.callId),
                               Trim(item.name), ArgumentText(c, item.arguments)))
  {
    hide Trim;
    TrimFixed("function_call");
    TrimFixed("");
    assert |"id"| == 2 && |"type"| == 4 && |"call_id"| == 7 && |"name"| == 4 && |"arguments"| == 9;
    assert "name"[0] != "type"[0];
  }

  lemma OtherRead(c: Codec, item: OutItem)
    requires !item.Called?
    ensures ToolCallFromValue(c, ItemJson(item)) == None
  {
    hide Trim, ItemsJson, PartsJson;
    TrimFixed("message");
    TrimFixed("");
    assert |"function_call"| == 13 && |"message"| == 7;
  }

  lemma CallRead(c: Codec, item: OutItem)
    ensures ToolCallFromValue(c, ItemJson(item))
         == if NamedCalls(c, [item]) == [] then None else Some(NamedCalls(c, [item])[0])
    ensures |NamedCalls(c, [item])| <= 1
  {
    hide Trim, ToolCallFromValue, ItemJson, ArgumentText;
    assert [item][1..] == [] && NamedCalls(c, []) == [];
    if item.Called? {
      CalledRead(c, item);
    } else {
      OtherRead(c, item);
    }
  }

  lemma {:induction false} CallsRead(c: Codec, items: seq<OutItem>)
    ensures ToolCallsFromItems(c, ItemsJson(items)) == NamedCalls(c, items)
    decreases |items|
  {
    hide ToolCallFromValue, ItemJson, ArgumentText, Trim;
    if items != [] {
      assert ItemsJson(items)[1..] == ItemsJson(items[1..]);
      CallRead(c, items[0]);
      CallsRead(c, items[1..]);
      assert [items[0]][1..] == [] && NamedCalls(c, []) == [];
    }
  }

  // ---------- token counts ----------

  /** The counts of a usage object: the top-level spelling wins, the details fill in, a missing total is the sum. */
  function Counts(input: int, output: int, total: int, cached: int, cachedDetail: int, reasoning: int,
                  reasoningDetail: int): Metrics {
    Metrics(input, output, if total <= 0 && (input > 0 || output > 0) then input + output else total,
            if cached > 0 then cached else cachedDetail, if reasoning > 0 then reasoning else reasoningDetail)
  }

  /** A usage object with both spellings of cached and reasoning tokens. */
  function UsageJson(input: int, output: int, total: int, cached: int, cachedDetail: int, reasoning: int,
                     reasoningDetail: int): Json {
    Obj(map["input_tokens" := Num(input), "output_tokens" := Num(output), "total_tokens" := Num(total),
            "cached_input_tokens" := Num(cached), "reasoning_output_tokens" := Num(reasoning),
            "input_tokens_details" := Obj(map["cached_tokens" := Num(cachedDetail)]),
            "output_tokens_details" := Obj(map["reasoning_tokens" := Num(reasoningDetail)])])
  }

  lemma CountsRead(input: int, output: int, total: int, cached: int, cachedDetail: int, reasoning: int,
                   reasoningDetail: int)
    ensures UsageMetrics(UsageJson(input, output, total, cached, cachedDetail, reasoning, reasoningDetail))
         == Counts(input, output, total, cached, cachedDetail, reasoning, reasoningDetail)
  {
    hide ParseInt64, Trim;
    assert |"input_tokens"| == 12 && |"output_tokens"| == 13 && |"total_tokens"| == 12 && |"cached_input_tokens"| == 19;
    assert |"input_tokens_details"| == 20 && |"output_tokens_details"| == 21 && |"reasoning_output_tokens"| == 23;
    assert "input_tokens"[0] != "total_tokens"[0];
  }

  // ---------- the whole answer ----------

  lemma OneCompleted(c: Codec, response: Json)
    requires ValidCodec(c) && response.Obj?
    ensures var usage := UsageMetrics(Field(response, "usage"));
            ParseMessages(c, [c.encode(Event("response.completed", map["response" := response]))])
            == Answered(Trim(OutputText(response)), Reasoning("", ""),
                        ToolCallsFromItems(c, Items(Field(response, "output"))),
                        if usage.total > 0 then usage else NO_METRICS)
  {
    hide MessageStep, OutputText, UsageMetrics, ToolCallsFromItems, Trim, Items;
    var event := Event("response.completed", map["response" := response]);
    var m := c.encode(event);
    EncodedIsMessage(c, event);
    TrimFixed("response.completed");
    TrimFixed("");
    KindOf("response.completed", map["response" := response]);
    KindsDiffer();
    MessageContributes(c, PARSE_START, m);
    assert ResponseIn(c, m) == response;
    assert EventOf(c, m) == event && !Refuses(c, m) && MessageStep(c, PARSE_START, m).Going?;
    var st := MessageStep(c, PARSE_START, m).st;
    assert ParseFrom(c, PARSE_START, [m]) == Going(st) by { assert [m][1..] == []; }
    assert st.content == "" && st.finalText == OutputText(response);
    assert st.reasoning == Reasoning("", "") && st.calls == [];
  }

  function CompletedWith(rest: map<string, Json>, items: seq<OutItem>): Json {
    Obj(rest["output" := Arr(ItemsJson(items))])
  }

  /**
   * A completed response with an output list and no `output_text`: the answer is every text said in
   * its messages, one line each, and its named calls; the counts are those of the usage object.
   */
  lemma CompletedOutputParses(c: Codec, items: seq<OutItem>, input: int, output: int, total: int, cached: int,
                              cachedDetail: int, reasoning: int, reasoningDetail: int)
    requires ValidCodec(c)
    ensures var usage := UsageJson(input, output, total, cached, cachedDetail, reasoning, reasoningDetail);
            var counts := Counts(input, output, total, cached, cachedDetail, reasoning, reasoningDetail);
            var response := CompletedWith(map["usage" := usage], items);
            ParseMessages(c, [c.encode(Event("response.completed", map["response" := response]))])
            == Answered(Join(Spoken(AllParts(items)), "\n"), Reasoning("", ""), NamedCalls(c, items),
                        if counts.total > 0 then counts else NO_METRICS)
  {
    hide ParseMessages, Trim, ItemsJson, Spoken, Join, UsageJson, OutputTexts, ToolCallsFromItems;
    var usage := UsageJson(input, output, total, cached, cachedDetail, reasoning, reasoningDetail);
    var response := CompletedWith(map["usage" := usage], items);
    OneCompleted(c, response);
    CountsRead(input, output, total, cached, cachedDetail, reasoning, reasoningDetail);
    CallsRead(c, items);
    ListSays(items);
    SpokenSolid(AllParts(items));
    JoinSolid(Spoken(AllParts(items)));
    TrimFixed("");
    assert OutputText(response) == Trim(Join(OutputTexts(ItemsJson(items)), "\n"));
  }

  /** With an `output_text` the list's texts do not matter. */
  lemma OutputTextWins(c: Codec, text: string, items: seq<OutItem>)
    requires ValidCodec(c) && !Blank(text)
    ensures var response := CompletedWith(map["output_text" := Str(text)], items);
            var parsed := ParseMessages(c, [c.encode(Event("response.completed", map["response" := response]))]);
            parsed.Answered? && parsed.text == Trim(text) && parsed.calls == NamedCalls(c, items)
  {
    hide ParseMessages, Trim, ItemsJson, OutputTexts, ToolCallsFromItems, UsageMetrics;
    assert |"output_text"| == 11 && |"output"| == 6;
    var response := CompletedWith(map["output_text" := Str(text)], items);
    OneCompleted(c, response);
    CallsRead(c, items);
    assert Field(response, "output_text") == Str(text) && Field(response, "output") == Arr(ItemsJson(items));
    assert OutputText(response) == Trim(text);
    TrimFixed(text);
  }
}
