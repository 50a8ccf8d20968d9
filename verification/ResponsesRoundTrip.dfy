/** Printing an answer and parsing the bytes gives the answer back, normalised. */
module ResponsesRoundTrip {
  import opened Wrappers
  import opened Sequences
  import opened Text
  import opened Json
  import opened SseFraming
  import opened ResponsesStream

  // ---------- what the parser is expected to recover ----------

  /** A tool call as it comes back: ids as the printer fills them in, blank arguments as `{}`. */
  function Normalised(call: ToolCall, index: nat, now: int): ToolCall {
    ToolCall(ItemId(call, index, now), ToolCallId(call, index), Trim(call.name),
             if Blank(call.arguments) then "{}" else call.arguments)
  }

  /** The calls that come back: those whose name is not blank, in order. */
  function Recovered(calls: seq<ToolCall>, from: nat, now: int): seq<ToolCall>
    decreases |calls| - from
  {
    if from >= |calls| then []
    else
      var own := if Blank(calls[from].name) then [] else [Normalised(calls[from], from, now)];
      own + Recovered(calls, from + 1, now)
  }

  function RecoveredReasoning(r: Reasoning, now: int): Reasoning {
    if Blank(r.text) then Reasoning("", "") else Reasoning(ReasoningId(r, now), Trim(r.text))
  }

  /** A missing total is the sum of the parts; without any total the counts are lost. */
  function RecoveredMetrics(m: Metrics): Metrics {
    var total := if m.total <= 0 && (m.input > 0 || m.output > 0) then m.input + m.output else m.total;
    if total > 0 then m.(total := total) else NO_METRICS
  }

  // ---------- single events ----------

  /** Event types that the parser passes over. */
  predicate IgnoredKind(kind: string) {
    && Trimmed(kind)
    && kind != "response.output_text.delta" && kind != "response.reasoning_summary_text.delta"
    && kind != "response.reasoning_summary_text.done" && kind != "response.output_item.done"
    && kind != "response.completed"
  }

  lemma IgnoredKinds()
    ensures IgnoredKind("response.output_item.added") && IgnoredKind("response.content_part.added")
    ensures IgnoredKind("response.output_text.done") && IgnoredKind("response.content_part.done")
    ensures IgnoredKind("response.reasoning_summary_part.added") && IgnoredKind("response.reasoning_summary_part.done")
  {
    assert |"response.output_text.delta"| == 26 && |"response.output_item.done"| == 25 && |"response.completed"| == 18;
    assert |"response.reasoning_summary_text.delta"| == 37 && |"response.reasoning_summary_text.done"| == 36;
    assert |"response.output_item.added"| == 26 && "response.output_item.added"[16] != "response.output_text.delta"[16];
    assert |"response.output_text.done"| == 25 && "response.output_text.done"[16] != "response.output_item.done"[16];
    assert |"response.content_part.added"| == 27 && |"response.content_part.done"| == 26;
    assert "response.content_part.done"[9] != "response.output_text.delta"[9];
    assert |"response.reasoning_summary_part.added"| == 37 && |"response.reasoning_summary_part.done"| == 36;
    assert "response.reasoning_summary_part.added"[27] != "response.reasoning_summary_text.delta"[27];
    assert "response.reasoning_summary_part.done"[27] != "response.reasoning_summary_text.done"[27];
  }

  /** An event of any other kind leaves the parser state alone. */
  lemma IgnoredEvent(c: Codec, st: ParseState, kind: string, rest: map<string, Json>)
    requires IgnoredKind(kind)
    ensures EventStep(c, st, Event(kind, rest)) == st
  {
    hide Kind, Event;
    KindOf(kind, rest);
  }

  lemma TextDeltaEvent(c: Codec, st: ParseState, rest: map<string, Json>, t: string)
    requires "delta" in rest && rest["delta"] == Str(t)
    ensures EventStep(c, st, Event("response.output_text.delta", rest)) == st.(content := st.content + Trim(t))
  {
    hide Trim;
    KindOf("response.output_text.delta", rest);
  }

  lemma ReasoningDeltaEvent(c: Codec, st: ParseState, rest: map<string, Json>, id: string, t: string)
    requires "delta" in rest && rest["delta"] == Str(t) && "item_id" in rest && rest["item_id"] == Str(id)
    requires st.reasoning == Reasoning("", "")
    ensures EventStep(c, st, Event("response.reasoning_summary_text.delta", rest))
         == st.(reasoning := Reasoning(Trim(id), Trim(t)))
  {
    hide Trim;
    KindOf("response.reasoning_summary_text.delta", rest);
  }

  lemma ReasoningDoneEvent(c: Codec, st: ParseState, rest: map<string, Json>, t: string)
    requires "text" in rest && rest["text"] == Str(t) && !Blank(t)
    requires st.reasoning.id != ""
    ensures EventStep(c, st, Event("response.reasoning_summary_text.done", rest))
         == st.(reasoning := Reasoning(st.reasoning.id, Trim(t)))
  {
    hide Trim;
    KindOf("response.reasoning_summary_text.done", rest);
  }

  function AfterItem(c: Codec, st: ParseState, item: Json): ParseState {
    if ToolCallFromValue(c, item).Some? then st.(calls := st.calls + [ToolCallFromValue(c, item).value])
    else if OutputText(item) != "" then st.(finalText := OutputText(item)) else st
  }

  lemma ItemDoneEvent(c: Codec, st: ParseState, index: int, item: Json)
    requires item.Obj?
    ensures EventStep(c, st, ItemDone(index, item)) == AfterItem(c, st, item)
  {
    hide Trim, OutputText, ToolCallFromValue;
    KindOf("response.output_item.done", map["output_index" := Num(index), "item" := item]);
  }

  // ---------- items ----------

  lemma ReasoningItemRead(c: Codec, id: string, t: string)
    ensures ToolCallFromValue(c, ReasoningItem(id, t)) == None && OutputText(ReasoningItem(id, t)) == ""
  {
    hide Trim;
    TrimFixed("reasoning");
  }

  lemma MessageItemRead(c: Codec, id: string, t: string, status: string)
    ensures ToolCallFromValue(c, MessageItem(id, t, status)) == None
    ensures OutputText(MessageItem(id, t, status)) == Trim(t)
  {
    hide Trim;
    TrimFixed("message");
    var part := Obj(map["type" := Str("output_text"), "text" := Str(t)]);
    assert Items(Field(MessageItem(id, t, status), "content")) == [part];
    assert ContentTexts([part]) == (if Trim(t) != "" then [Trim(t)] else []) by {
      assert [part][1..] == [];
    }
    TrimFixed(t);
  }

  lemma NumberedTrimmed(prefix: string, n: int)
    requires prefix != "" && !IsSpace(prefix[0])
    ensures prefix + Decimal(n) != "" && Trim(prefix + Decimal(n)) == prefix + Decimal(n)
  {
    hide Trim, Decimal;
    var s := prefix + Decimal(n);
    assert s[|s| - 1] == Decimal(n)[|Decimal(n)| - 1];
    TrimFixed(s);
  }

  lemma ItemIdTrimmed(call: ToolCall, index: nat, now: int)
    ensures Trim(ItemId(call, index, now)) == ItemId(call, index, now)
    ensures Trim(ToolCallId(call, index)) == ToolCallId(call, index) != ""
  {
    hide Trim, Decimal;
    TrimFixed(call.id);
    TrimFixed(call.callId);
    NumberedTrimmed("fc_codex_" + Decimal(now) + "_", index);
    NumberedTrimmed("call_codex_", index);
  }

  lemma FunctionCallItemRead(c: Codec, call: ToolCall, index: nat, now: int)
    ensures ToolCallFromValue(c, FunctionCallItem(call, index, now))
         == if Blank(call.name) then None else Some(Normalised(call, index, now))
    ensures OutputText(FunctionCallItem(call, index, now)) == ""
  {
    hide Trim, Decimal;
    TrimFixed("function_call");
    ItemIdTrimmed(call, index, now);
    TrimFixed(call.callId);
  }

  // ---------- runs of events ----------

  function EventFold(c: Codec, st: ParseState, events: seq<Json>): ParseState
    decreases |events|
  {
    if events == [] then st else EventFold(c, EventStep(c, st, events[0]), events[1..])
  }

  lemma {:induction false} EventFoldConcat(c: Codec, st: ParseState, xs: seq<Json>, ys: seq<Json>)
    ensures EventFold(c, st, xs + ys) == EventFold(c, EventFold(c, st, xs), ys)
    decreases |xs|
  {
    if xs == [] {
      assert xs + ys == ys;
    } else {
      assert (xs + ys)[1..] == xs[1..] + ys;
      EventFoldConcat(c, EventStep(c, st, xs[0]), xs[1..], ys);
    }
  }

  lemma FoldOne(c: Codec, st: ParseState, e: Json)
    ensures EventFold(c, st, [e]) == EventStep(c, st, e)
  {
    assert [e][1..] == [];
  }

  /** Six events that take the state step by step from the first to the last. */
  lemma FoldSix(c: Codec, ss: seq<ParseState>, es: seq<Json>)
    requires |es| == 6 && |ss| == 7
    requires forall i :: 0 <= i < 6 ==> EventStep(c, ss[i], es[i]) == ss[i + 1]
    ensures EventFold(c, ss[0], es) == ss[6]
  {
    hide EventStep;
    FoldSteps(c, ss, es, 0);
    assert es[0..] == es;
  }

  lemma {:induction false} FoldSteps(c: Codec, ss: seq<ParseState>, es: seq<Json>, k: nat)
    requires |ss| == |es| + 1 && k <= |es|
    requires forall i :: 0 <= i < |es| ==> EventStep(c, ss[i], es[i]) == ss[i + 1]
    ensures EventFold(c, ss[k], es[k..]) == ss[|es|]
    decreases |es| - k
  {
    hide EventStep;
    if k < |es| {
      assert es[k..][1..] == es[k + 1..];
      FoldSteps(c, ss, es, k + 1);
    }
  }

  lemma CreatedFold(c: Codec, st: ParseState, a: Answer)
    ensures EventFold(c, st, CreatedPart(a)) == st
  {
    hide EventStep, Kind, Trim;
    if a.includeCreated {
      var e := CreatedEvent(a.responseId, a.now, a.model);
      FoldOne(c, st, e);
      IgnoredEvent(c, st, "response.created", map["response" := e.fields["response"]]);
    }
  }

  lemma ReasoningIdTrimmed(r: Reasoning, now: int)
    ensures ReasoningId(r, now) != "" && Trim(ReasoningId(r, now)) == ReasoningId(r, now)
  {
    hide Trim, Decimal;
    TrimFixed(r.id);
    NumberedTrimmed("rs_codex_", now);
  }

  lemma PartFold(c: Codec, ss: seq<ParseState>, es: seq<Json>)
    requires |es| == 6 && |ss| == 7 && EventStep(c, ss[0], es[0]) == ss[1] && EventStep(c, ss[1], es[1]) == ss[2]
    requires EventStep(c, ss[2], es[2]) == ss[3] && EventStep(c, ss[3], es[3]) == ss[4]
    requires EventStep(c, ss[4], es[4]) == ss[5] && EventStep(c, ss[5], es[5]) == ss[6]
    ensures EventFold(c, ss[0], es) == ss[6]
  {
    hide EventStep;
    FoldSix(c, ss, es);
  }

  lemma ReasoningFold(c: Codec, st: ParseState, a: Answer)
    requires st.reasoning == Reasoning("", "")
    ensures EventFold(c, st, ReasoningPart(a)) == st.(reasoning := RecoveredReasoning(a.reasoning, a.now))
  {
    hide Trim, EventStep, ReasoningId, ReasoningItem, OutputText, ToolCallFromValue, Kind, IgnoredKind;
    var r := a.reasoning;
    if !Blank(r.text) {
      IgnoredKinds();
      var es := ReasoningEvents(r, a.now, 0);
      var id := ReasoningId(r, a.now);
      var at := map["item_id" := Str(id), "output_index" := Num(0), "summary_index" := Num(0)];
      ReasoningIdTrimmed(r, a.now);
      IgnoredEvent(c, st, "response.output_item.added", map["output_index" := Num(0), "item" := ReasoningItem(id, "")]);
      IgnoredEvent(c, st, "response.reasoning_summary_part.added",
                   at["part" := Obj(map["type" := Str("summary_text"), "text" := Str("")])]);
      ReasoningDeltaEvent(c, st, at["delta" := Str(r.text)], id, r.text);
      var st' := st.(reasoning := Reasoning(id, Trim(r.text)));
      ReasoningDoneEvent(c, st', at["text" := Str(r.text)], r.text);
      IgnoredEvent(c, st', "response.reasoning_summary_part.done",
                   at["part" := Obj(map["type" := Str("summary_text"), "text" := Str(r.text)])]);
      ItemDoneEvent(c, st', 0, ReasoningItem(id, r.text));
      ReasoningItemRead(c, id, r.text);
      PartFold(c, [st, st, st, st', st', st', st'], es);
    }
  }

  lemma NothingFolded(c: Codec, st: ParseState)
    ensures EventFold(c, st, []) == st
  {
  }

  lemma MessageFold(c: Codec, st: ParseState, a: Answer)
    ensures EventFold(c, st, MessagePart(a))
         == if Blank(a.content) then st else st.(content := st.content + Trim(a.content), finalText := Trim(a.content))
  {
    hide Trim, EventStep, MessageItem, OutputText, ToolCallFromValue, Kind, IgnoredKind, EventFold;
    if Blank(a.content) {
      NothingFolded(c, st);
    } else {
      var index := if !Blank(a.reasoning.text) then 1 else 0;
      IgnoredKinds();
      var es := MessageEvents(a.content, a.now, index);
      var id := MessageId(a.now);
      var at := map["item_id" := Str(id), "output_index" := Num(index), "content_index" := Num(0)];
      IgnoredEvent(c, st, "response.output_item.added",
                   map["output_index" := Num(index), "item" := MessageItem(id, a.content, "in_progress")]);
      IgnoredEvent(c, st, "response.content_part.added",
                   at["part" := Obj(map["type" := Str("output_text"), "text" := Str("")])]);
      TextDeltaEvent(c, st, at["delta" := Str(a.content)], a.content);
      var st' := st.(content := st.content + Trim(a.content));
      IgnoredEvent(c, st', "response.output_text.done", at["text" := Str(a.content)]);
      IgnoredEvent(c, st', "response.content_part.done",
                   at["part" := Obj(map["type" := Str("output_text"), "text" := Str(a.content)])]);
      ItemDoneEvent(c, st', index, MessageItem(id, a.content, "completed"));
      MessageItemRead(c, id, a.content, "completed");
      PartFold(c, [st, st, st, st', st', st', st'.(finalText := Trim(a.content))], es);
    }
  }

  lemma {:induction false} CallsFold(c: Codec, st: ParseState, calls: seq<ToolCall>, from: nat, base: int, now: int)
    ensures EventFold(c, st, CallEvents(calls, from, base, now)) == st.(calls := st.calls + Recovered(calls, from, now))
    decreases |calls| - from
  {
    hide Trim, EventStep, FunctionCallItem, OutputText, ToolCallFromValue, Kind, ItemDone, Normalised;
    if from >= |calls| {
      assert st.calls + [] == st.calls;
    } else {
      var item := FunctionCallItem(calls[from], from, now);
      ItemDoneEvent(c, st, base + from, item);
      FunctionCallItemRead(c, calls[from], from, now);
      var next := EventStep(c, st, ItemDone(base + from, item));
      var found := if Blank(calls[from].name) then [] else [Normalised(calls[from], from, now)];
      assert st.calls + [] == st.calls;
      assert next == st.(calls := st.calls + found);
      CallsFold(c, next, calls, from + 1, base, now);
      ConcatAssociates(st.calls, found, Recovered(calls, from + 1, now));
    }
  }

  lemma {:induction false} CallItemsRead(c: Codec, calls: seq<ToolCall>, from: nat, now: int)
    ensures ToolCallsFromItems(c, CallItems(calls, from, now)) == Recovered(calls, from, now)
    ensures OutputTexts(CallItems(calls, from, now)) == []
    decreases |calls| - from
  {
    hide FunctionCallItem, OutputText, ToolCallFromValue, Normalised, Trim;
    if from < |calls| {
      FunctionCallItemRead(c, calls[from], from, now);
      CallItemsRead(c, calls, from + 1, now);
    }
  }

  lemma {:induction false} ItemsReadConcat(c: Codec, xs: seq<Json>, ys: seq<Json>)
    ensures ToolCallsFromItems(c, xs + ys) == ToolCallsFromItems(c, xs) + ToolCallsFromItems(c, ys)
    ensures OutputTexts(xs + ys) == OutputTexts(xs) + OutputTexts(ys)
  {
    hide OutputText, ToolCallFromValue;
    if xs == [] {
      assert xs + ys == ys;
    } else {
      assert (xs + ys)[1..] == xs[1..] + ys && (xs + ys)[0] == xs[0];
      ItemsReadConcat(c, xs[1..], ys);
    }
  }

  lemma LeadItemsRead(c: Codec, content: string, r: Reasoning, now: int)
    ensures ToolCallsFromItems(c, LeadItems(content, r, now)) == []
    ensures OutputTexts(LeadItems(content, r, now)) == if Blank(content) then [] else [Trim(content)]
  {
    hide Trim, ReasoningItem, MessageItem, OutputText, ToolCallFromValue;
    var xs := if !Blank(r.text) then [ReasoningItem(ReasoningId(r, now), r.text)] else [];
    var ys := if !Blank(content) then [MessageItem(MessageId(now), content, "completed")] else [];
    ReasoningItemRead(c, ReasoningId(r, now), r.text);
    MessageItemRead(c, MessageId(now), content, "completed");
    ItemsReadConcat(c, xs, ys);
    assert xs != [] ==> xs[1..] == [];
    assert ys != [] ==> ys[1..] == [];
  }

  function Completion(a: Answer): Json {
    CompletedEvent(a.responseId, a.now, a.model, a.content, OutputItems(a.content, a.reasoning, a.calls, a.now),
                   a.metrics)
  }

  function AfterCompletion(st: ParseState, a: Answer): ParseState {
    st.(metrics := if RecoveredMetrics(a.metrics).total > 0 then RecoveredMetrics(a.metrics) else st.metrics,
        finalText := if Blank(a.content) then st.finalText else Trim(a.content),
        finalCalls := if Recovered(a.calls, 0, a.now) != [] then Recovered(a.calls, 0, a.now) else st.finalCalls)
  }

  lemma CompletionFields(a: Answer)
    ensures Completion(a) == Event("response.completed", map["response" := CompletedResponse(a)])
    ensures CompletedResponse(a).Obj?
    ensures Field(CompletedResponse(a), "output") == Arr(OutputItems(a.content, a.reasoning, a.calls, a.now))
    ensures Field(CompletedResponse(a), "usage") == UsagePayload(a.metrics)
    ensures Field(CompletedResponse(a), "output_text") == Str(a.content) && Field(CompletedResponse(a), "type") == Null
  {
    hide OutputItems, UsagePayload;
  }

  function CompletedResponse(a: Answer): Json {
    Completion(a).fields["response"]
  }

  lemma CompletedText(c: Codec, a: Answer)
    ensures OutputText(CompletedResponse(a)) == Trim(a.content)
  {
    hide Trim, LeadItems, CallItems, OutputTexts, CompletedResponse, Completion;
    var output := OutputItems(a.content, a.reasoning, a.calls, a.now);
    CompletionFields(a);
    LeadItemsRead(c, a.content, a.reasoning, a.now);
    CallItemsRead(c, a.calls, 0, a.now);
    ItemsReadConcat(c, LeadItems(a.content, a.reasoning, a.now), CallItems(a.calls, 0, a.now));
    TrimFixed("");
    if Blank(a.content) {
      assert OutputTexts(output) == [];
      assert OutputText(CompletedResponse(a)) == Trim(Join(OutputTexts(output), "\n"));
    }
  }

  /** The effect of a completed event in terms of its response. */
  lemma CompletedStep(c: Codec, st: ParseState, response: Json)
    requires response.Obj?
    ensures EventStep(c, st, Event("response.completed", map["response" := response]))
         == CompletedState(st, UsageMetrics(Field(response, "usage")), OutputText(response),
                           ToolCallsFromItems(c, Items(Field(response, "output"))))
  {
    hide Kind, OutputText, UsageMetrics, ToolCallsFromItems, Items, Trim;
    KindOf("response.completed", map["response" := response]);
    assert Field(Event("response.completed", map["response" := response]), "response") == response;
    assert |"response.output_text.delta"| == 26 && |"response.output_item.done"| == 25 && |"response.completed"| == 18;
    assert |"response.reasoning_summary_text.delta"| == 37 && |"response.reasoning_summary_text.done"| == 36;
  }

  function CompletedState(st: ParseState, usage: Metrics, text: string, calls: seq<ToolCall>): ParseState {
    st.(metrics := if usage.total > 0 then usage else st.metrics,
        finalText := if text != "" then text else st.finalText,
        finalCalls := if calls != [] then calls else st.finalCalls)
  }

  lemma CompletedEventRead(c: Codec, st: ParseState, a: Answer)
    ensures EventStep(c, st, Completion(a)) == AfterCompletion(st, a)
  {
    hide Trim, Recovered, ToolCallsFromItems, LeadItems, CallItems, OutputText, UsagePayload, UsageMetrics, Field;
    hide EventStep, Completion, CompletedResponse, Event;
    CompletionFields(a);
    CompletedStep(c, st, CompletedResponse(a));
    CallItemsRead(c, a.calls, 0, a.now);
    LeadItemsRead(c, a.content, a.reasoning, a.now);
    ItemsReadConcat(c, LeadItems(a.content, a.reasoning, a.now), CallItems(a.calls, 0, a.now));
    UsageRead(a.metrics);
    CompletedText(c, a);
  }

  lemma UsageRead(m: Metrics)
    ensures UsageMetrics(UsagePayload(m))
         == m.(total := if m.total <= 0 && (m.input > 0 || m.output > 0) then m.input + m.output else m.total)
  {
    hide ParseInt64, Trim;
    assert |"input_tokens"| == 12 && |"output_tokens"| == 13 && |"total_tokens"| == 12 && |"cached_input_tokens"| == 19;
    assert |"input_tokens_details"| == 20 && |"output_tokens_details"| == 21 && |"reasoning_output_tokens"| == 23;
    assert "input_tokens"[0] != "total_tokens"[0];
  }

  /** Reading the events of an answer in order gives the answer back. */
  lemma StreamFold(c: Codec, a: Answer)
    ensures Conclude(Going(EventFold(c, PARSE_START, StreamEvents(a))))
         == Answered(Trim(a.content), RecoveredReasoning(a.reasoning, a.now), Recovered(a.calls, 0, a.now),
                     RecoveredMetrics(a.metrics))
  {
    hide EventStep, CompletedEvent, CreatedPart, ReasoningPart, MessagePart, CallEvents, OutputItems, LeadItems,
        Recovered;
    var completed := Completion(a);
    var calls := CallEvents(a.calls, 0, |LeadItems(a.content, a.reasoning, a.now)|, a.now);
    EventFoldConcat(c, PARSE_START, LeadEvents(a) + calls, [completed]);
    EventFoldConcat(c, PARSE_START, LeadEvents(a), calls);
    EventFoldConcat(c, PARSE_START, CreatedPart(a) + ReasoningPart(a), MessagePart(a));
    EventFoldConcat(c, PARSE_START, CreatedPart(a), ReasoningPart(a));
    CreatedFold(c, PARSE_START, a);
    ReasoningFold(c, PARSE_START, a);
    var s1 := EventFold(c, PARSE_START, CreatedPart(a) + ReasoningPart(a));
    MessageFold(c, s1, a);
    var s2 := EventFold(c, s1, MessagePart(a));
    CallsFold(c, s2, a.calls, 0, |LeadItems(a.content, a.reasoning, a.now)|, a.now);
    var s3 := EventFold(c, s2, calls);
    assert [] + Recovered(a.calls, 0, a.now) == Recovered(a.calls, 0, a.now);
    FoldOne(c, s3, completed);
    CompletedEventRead(c, s3, a);
    TrimFixed(a.content);
    assert Trim("") == "";
  }

  // ---------- the round trip ----------

  predicate Readable(events: seq<Json>) {
    forall e :: e in events ==> e.Obj? && !Failure(e)
  }

  lemma {:induction false} ParseEncoded(c: Codec, st: ParseState, events: seq<Json>)
    requires ValidCodec(c) && Readable(events)
    ensures ParseFrom(c, st, Encoded(c, events) + [DONE]) == Going(EventFold(c, st, events))
    decreases |events|
  {
    hide EventStep, Kind;
    var messages := Encoded(c, events) + [DONE];
    if events == [] {
      assert messages[0] == DONE && messages[1..] == [];
    } else {
      var e := events[0];
      EncodedIsMessage(c, e);
      assert messages[0] == c.encode(e) && messages[1..] == Encoded(c, events[1..]) + [DONE];
      assert MessageStep(c, st, messages[0]) == Going(EventStep(c, st, e));
      ParseEncoded(c, EventStep(c, st, e), events[1..]);
    }
  }

  predicate ReadableKind(kind: string) {
    Trimmed(kind) && kind != "response.failed" && kind != "response.incomplete"
  }

  lemma ReadableKinds()
    ensures ReadableKind("response.output_item.added") && ReadableKind("response.output_item.done")
    ensures ReadableKind("response.content_part.added") && ReadableKind("response.content_part.done")
    ensures ReadableKind("response.created") && ReadableKind("response.completed")
    ensures ReadableKind("response.output_text.delta") && ReadableKind("response.output_text.done")
    ensures ReadableKind("response.reasoning_summary_part.added")
    ensures ReadableKind("response.reasoning_summary_part.done")
    ensures ReadableKind("response.reasoning_summary_text.delta")
    ensures ReadableKind("response.reasoning_summary_text.done")
  {
    assert |"response.failed"| == 15 && |"response.incomplete"| == 19;
  }

  /** An event whose type the parser does not stop at. */
  predicate Passable(e: Json) {
    e.Obj? && !Failure(e)
  }

  lemma EventPasses(kind: string, rest: map<string, Json>)
    requires ReadableKind(kind)
    ensures Passable(Event(kind, rest))
  {
    hide Kind;
    KindOf(kind, rest);
  }

  lemma ReadableConcat(xs: seq<Json>, ys: seq<Json>)
    requires Readable(xs) && Readable(ys)
    ensures Readable(xs + ys)
  {
  }

  lemma {:induction false} CallEventsReadable(calls: seq<ToolCall>, from: nat, base: int, now: int)
    ensures Readable(CallEvents(calls, from, base, now))
    decreases |calls| - from
  {
    hide Failure;
    if from < |calls| {
      var item := FunctionCallItem(calls[from], from, now);
      EventPasses("response.output_item.done", map["output_index" := Num(base + from), "item" := item]);
      CallEventsReadable(calls, from + 1, base, now);
      ReadableConcat([ItemDone(base + from, item)], CallEvents(calls, from + 1, base, now));
    }
  }

  lemma TypedPasses(e: Json, kind: string)
    requires e.Obj? && "type" in e.fields && e.fields["type"] == Str(kind) && ReadableKind(kind)
    ensures Passable(e)
  {
    hide Trim;
    TrimFixed(kind);
  }

  lemma SixReadable(es: seq<Json>)
    requires |es| == 6 && Passable(es[0]) && Passable(es[1]) && Passable(es[2])
    requires Passable(es[3]) && Passable(es[4]) && Passable(es[5])
    ensures Readable(es)
  {
    hide Failure;
  }

  lemma ReasoningReadable(a: Answer)
    ensures Readable(ReasoningPart(a))
  {
    hide Passable, ReasoningId, ReasoningItem, Readable, ReadableKind, Trim;
    ReadableKinds();
    if Blank(a.reasoning.text) {
      assert ReasoningPart(a) == [] && Readable([]) by { NothingReadable(); }
    } else {
      var es := ReasoningEvents(a.reasoning, a.now, 0);
      TypedPasses(es[0], "response.output_item.added");
      TypedPasses(es[1], "response.reasoning_summary_part.added");
      TypedPasses(es[2], "response.reasoning_summary_text.delta");
      TypedPasses(es[3], "response.reasoning_summary_text.done");
      TypedPasses(es[4], "response.reasoning_summary_part.done");
      TypedPasses(es[5], "response.output_item.done");
      SixReadable(es);
    }
  }

  lemma NothingReadable()
    ensures Readable([])
  {
  }

  lemma MessageEventsReadable(content: string, now: int, index: int)
    ensures Readable(MessageEvents(content, now, index))
  {
    hide Passable, MessageId, MessageItem, Readable, ReadableKind;
    ReadableKinds();
    var es := MessageEvents(content, now, index);
    TypedPasses(es[0], "response.output_item.added");
    TypedPasses(es[1], "response.content_part.added");
    TypedPasses(es[2], "response.output_text.delta");
    TypedPasses(es[3], "response.output_text.done");
    TypedPasses(es[4], "response.content_part.done");
    TypedPasses(es[5], "response.output_item.done");
    SixReadable(es);
  }

  lemma MessageReadable(a: Answer)
    ensures Readable(MessagePart(a))
  {
    hide Readable, MessageEvents, Trim;
    NothingReadable();
    MessageEventsReadable(a.content, a.now, if !Blank(a.reasoning.text) then 1 else 0);
  }

  lemma StreamReadable(a: Answer)
    ensures Readable(StreamEvents(a))
  {
    hide Failure, Trim, CallEvents, LeadItems, OutputItems, UsagePayload, ReasoningPart, MessagePart;
    var base := |LeadItems(a.content, a.reasoning, a.now)|;
    if a.includeCreated {
      EventPasses("response.created",
                    map["response" := CreatedEvent(a.responseId, a.now, a.model).fields["response"]]);
    }
    ReasoningReadable(a);
    MessageReadable(a);
    ReadableConcat(CreatedPart(a), ReasoningPart(a));
    ReadableConcat(CreatedPart(a) + ReasoningPart(a), MessagePart(a));
    CallEventsReadable(a.calls, 0, base, a.now);
    ReadableConcat(LeadEvents(a), CallEvents(a.calls, 0, base, a.now));
    EventPasses("response.completed", map["response" := Completion(a).fields["response"]]);
    ReadableConcat(LeadEvents(a) + CallEvents(a.calls, 0, base, a.now), [Completion(a)]);
  }

  lemma {:induction false} EncodedClean(c: Codec, events: seq<Json>)
    requires ValidCodec(c) && forall e :: e in events ==> e.Obj?
    ensures forall m :: m in Encoded(c, events) ==> m != "" && Trimmed(m) && '\n' !in m
    decreases |events|
  {
    hide Trim;
    if events != [] {
      EncodedIsMessage(c, events[0]);
      TrimFixed(c.encode(events[0]));
      TrimFixed("");
      EncodedClean(c, events[1..]);
    }
  }

  /** The data messages of a printed stream are the encoded events and `[DONE]`. */
  lemma StreamMessages(c: Codec, a: Answer)
    requires ValidCodec(c)
    ensures DataMessages(StreamText(c, a)) == Encoded(c, StreamEvents(a)) + [DONE]
    ensures forall m :: m in DataMessages(StreamText(c, a)) ==> m != "" && Trimmed(m) && '\n' !in m
  {
    hide StreamEvents, Failure, DataMessages, Render, AsData;
    StreamReadable(a);
    EncodedClean(c, StreamEvents(a));
    RewriteExactIffOneLine(Encoded(c, StreamEvents(a)) + [DONE]);
  }

  /**
   * For every answer: parsing the printed bytes gives the trimmed content, the reasoning summary,
   * every named tool call in order and the token counts.
   */
  lemma PrintedStreamParses(c: Codec, a: Answer)
    requires ValidCodec(c)
    ensures ParseMessages(c, DataMessages(StreamText(c, a)))
         == Answered(Trim(a.content), RecoveredReasoning(a.reasoning, a.now), Recovered(a.calls, 0, a.now),
                     RecoveredMetrics(a.metrics))
  {
    hide StreamEvents, EventFold, Conclude, DataMessages, StreamText, Trim, Recovered;
    StreamMessages(c, a);
    StreamReadable(a);
    ParseEncoded(c, PARSE_START, StreamEvents(a));
    StreamFold(c, a);
  }

  /** An answer already in normal form comes back unchanged. */
  lemma NormalAnswerRoundTrip(c: Codec, a: Answer)
    requires ValidCodec(c)
    requires Trimmed(a.content) && a.metrics.total > 0
    requires a.reasoning.text != "" && Trimmed(a.reasoning.text) && a.reasoning.id != "" && Trimmed(a.reasoning.id)
    requires forall i :: 0 <= i < |a.calls| ==> NormalCall(a.calls[i])
    ensures ParseMessages(c, DataMessages(StreamText(c, a))) == Answered(a.content, a.reasoning, a.calls, a.metrics)
  {
    hide Trim, ParseMessages, DataMessages, StreamText;
    PrintedStreamParses(c, a);
    TrimFixed(a.content);
    TrimFixed(a.reasoning.text);
    TrimFixed(a.reasoning.id);
    NormalCallsRecovered(a.calls, 0, a.now);
    assert a.calls[0..] == a.calls;
  }

  predicate NormalCall(call: ToolCall) {
    && call.id != "" && Trimmed(call.id) && call.callId != "" && Trimmed(call.callId)
    && call.name != "" && Trimmed(call.name) && !Blank(call.arguments)
  }

  lemma NormalCallKept(call: ToolCall, index: nat, now: int)
    requires NormalCall(call)
    ensures !Blank(call.name) && Normalised(call, index, now) == call
  {
    hide Trim, Decimal;
    TrimFixed(call.id);
    TrimFixed(call.callId);
    TrimFixed(call.name);
  }

  lemma {:induction false} NormalCallsRecovered(calls: seq<ToolCall>, from: nat, now: int)
    requires forall i :: 0 <= i < |calls| ==> NormalCall(calls[i])
    ensures Recovered(calls, from, now) == if from <= |calls| then calls[from..] else []
    decreases |calls| - from
  {
    hide Trim, NormalCall, Normalised;
    if from < |calls| {
      NormalCallKept(calls[from], from, now);
      NormalCallsRecovered(calls, from + 1, now);
      assert calls[from..] == [calls[from]] + calls[from + 1..];
    }
  }

  // ---------- the finished items are the final output ----------

  function DoneItems(events: seq<Json>): seq<(int, Json)>
    decreases |events|
  {
    if events == [] then []
    else (if Kind(events[0]) == "response.output_item.done"
          then [(IntValue(Field(events[0], "output_index")), Field(events[0], "item"))] else [])
         + DoneItems(events[1..])
  }

  function Indexed(items: seq<Json>, from: int): seq<(int, Json)> {
    if items == [] then [] else [(from, items[0])] + Indexed(items[1..], from + 1)
  }

  lemma {:induction false} DoneItemsConcat(xs: seq<Json>, ys: seq<Json>)
    ensures DoneItems(xs + ys) == DoneItems(xs) + DoneItems(ys)
    decreases |xs|
  {
    hide Kind, IntValue, Field;
    if xs == [] {
      assert xs + ys == ys;
    } else {
      var e := xs[0];
      assert (xs + ys)[1..] == xs[1..] + ys && (xs + ys)[0] == e;
      var one := if Kind(e) == "response.output_item.done"
                 then [(IntValue(Field(e, "output_index")), Field(e, "item"))] else [];
      DoneItemsConcat(xs[1..], ys);
      ConcatAssociates(one, DoneItems(xs[1..]), DoneItems(ys));
    }
  }

  lemma {:induction false} IndexedConcat(xs: seq<Json>, ys: seq<Json>, from: int)
    ensures Indexed(xs + ys, from) == Indexed(xs, from) + Indexed(ys, from + |xs|)
    decreases |xs|
  {
    if xs == [] {
      assert xs + ys == ys;
    } else {
      assert (xs + ys)[1..] == xs[1..] + ys && (xs + ys)[0] == xs[0];
      IndexedConcat(xs[1..], ys, from + 1);
      ConcatAssociates([(from, xs[0])], Indexed(xs[1..], from + 1), Indexed(ys, from + |xs|));
    }
  }

  lemma NothingDone()
    ensures DoneItems([]) == []
  {
  }

  lemma OtherEventNotDone(kind: string, rest: map<string, Json>)
    requires Trimmed(kind) && kind != "response.output_item.done"
    ensures DoneItems([Event(kind, rest)]) == []
  {
    hide Kind, Event;
    KindOf(kind, rest);
    assert [Event(kind, rest)][1..] == [];
  }

  lemma ItemDoneIsDone(index: int, item: Json)
    ensures DoneItems([ItemDone(index, item)]) == [(index, item)]
  {
    hide Trim;
    KindOf("response.output_item.done", map["output_index" := Num(index), "item" := item]);
    assert [ItemDone(index, item)][1..] == [];
  }

  /** Of six events only the last one finishes an item. */
  lemma SixDone(es: seq<Json>, index: int, item: Json)
    requires |es| == 6 && es[5] == ItemDone(index, item)
    requires forall i :: 0 <= i < 5 ==> DoneItems([es[i]]) == []
    ensures DoneItems(es) == Indexed([item], index)
  {
    hide DoneItems, ItemDone;
    ItemDoneIsDone(index, item);
    assert es == [es[0]] + ([es[1]] + ([es[2]] + ([es[3]] + ([es[4]] + [es[5]]))));
    DoneItemsConcat([es[4]], [es[5]]);
    DoneItemsConcat([es[3]], [es[4]] + [es[5]]);
    DoneItemsConcat([es[2]], [es[3]] + ([es[4]] + [es[5]]));
    DoneItemsConcat([es[1]], [es[2]] + ([es[3]] + ([es[4]] + [es[5]])));
    DoneItemsConcat([es[0]], [es[1]] + ([es[2]] + ([es[3]] + ([es[4]] + [es[5]]))));
    assert [item][1..] == [];
  }

  lemma ReasoningDone(a: Answer)
    ensures DoneItems(ReasoningPart(a))
         == if Blank(a.reasoning.text) then []
             else Indexed([ReasoningItem(ReasoningId(a.reasoning, a.now), a.reasoning.text)], 0)
  {
    hide DoneItems, Trim, ReasoningId, ItemDone, ReasoningItem;
    var r := a.reasoning;
    if Blank(r.text) {
      NothingDone();
    } else {
      var es := ReasoningEvents(r, a.now, 0);
      var id := ReasoningId(r, a.now);
      var at := map["item_id" := Str(id), "output_index" := Num(0), "summary_index" := Num(0)];
      OtherEventNotDone("response.output_item.added", map["output_index" := Num(0), "item" := ReasoningItem(id, "")]);
      OtherEventNotDone("response.reasoning_summary_part.added",
                        at["part" := Obj(map["type" := Str("summary_text"), "text" := Str("")])]);
      OtherEventNotDone("response.reasoning_summary_text.delta", at["delta" := Str(r.text)]);
      OtherEventNotDone("response.reasoning_summary_text.done", at["text" := Str(r.text)]);
      OtherEventNotDone("response.reasoning_summary_part.done",
                        at["part" := Obj(map["type" := Str("summary_text"), "text" := Str(r.text)])]);
      SixDone(es, 0, ReasoningItem(id, r.text));
    }
  }

  lemma MessageDone(a: Answer)
    ensures DoneItems(MessagePart(a))
         == if Blank(a.content) then []
            else Indexed([MessageItem(MessageId(a.now), a.content, "completed")],
                         if Blank(a.reasoning.text) then 0 else 1)
  {
    hide DoneItems, Trim, MessageId, ItemDone, MessageItem;
    if Blank(a.content) {
      NothingDone();
    } else {
      var index := if !Blank(a.reasoning.text) then 1 else 0;
      var id := MessageId(a.now);
      var at := map["item_id" := Str(id), "output_index" := Num(index), "content_index" := Num(0)];
      OtherEventNotDone("response.output_item.added",
                        map["output_index" := Num(index), "item" := MessageItem(id, a.content, "in_progress")]);
      OtherEventNotDone("response.content_part.added",
                        at["part" := Obj(map["type" := Str("output_text"), "text" := Str("")])]);
      OtherEventNotDone("response.output_text.delta", at["delta" := Str(a.content)]);
      OtherEventNotDone("response.output_text.done", at["text" := Str(a.content)]);
      OtherEventNotDone("response.content_part.done",
                        at["part" := Obj(map["type" := Str("output_text"), "text" := Str(a.content)])]);
      SixDone(MessageEvents(a.content, a.now, index), index, MessageItem(id, a.content, "completed"));
    }
  }

  lemma {:induction false} CallsDone(calls: seq<ToolCall>, from: nat, base: int, now: int)
    ensures DoneItems(CallEvents(calls, from, base, now)) == Indexed(CallItems(calls, from, now), base + from)
    decreases |calls| - from
  {
    hide ItemDone, FunctionCallItem, Kind;
    if from < |calls| {
      var item := FunctionCallItem(calls[from], from, now);
      ItemDoneIsDone(base + from, item);
      CallsDone(calls, from + 1, base, now);
      DoneItemsConcat([ItemDone(base + from, item)], CallEvents(calls, from + 1, base, now));
      assert CallItems(calls, from, now)[1..] == CallItems(calls, from + 1, now);
    }
  }

  /**
   * A client that files every finished item under its `output_index` holds exactly the `output`
   * list that the completed response carries, in order and without gaps.
   */
  lemma DoneItemsAreOutput(a: Answer)
    ensures DoneItems(StreamEvents(a)) == Indexed(OutputItems(a.content, a.reasoning, a.calls, a.now), 0)
  {
    hide DoneItems, Indexed, Trim, CallEvents, CallItems, ReasoningItem, MessageItem, ReasoningPart, MessagePart;
    var base := |LeadItems(a.content, a.reasoning, a.now)|;
    var calls := CallEvents(a.calls, 0, base, a.now);
    DoneItemsConcat(LeadEvents(a) + calls, [Completion(a)]);
    DoneItemsConcat(LeadEvents(a), calls);
    DoneItemsConcat(CreatedPart(a) + ReasoningPart(a), MessagePart(a));
    DoneItemsConcat(CreatedPart(a), ReasoningPart(a));
    assert DoneItems(CreatedPart(a)) == [] by {
      if a.includeCreated {
        OtherEventNotDone("response.created",
                          map["response" := CreatedEvent(a.responseId, a.now, a.model).fields["response"]]);
      } else {
        NothingDone();
      }
    }
    ReasoningDone(a);
    MessageDone(a);
    CallsDone(a.calls, 0, base, a.now);
    OtherEventNotDone("response.completed", map["response" := Completion(a).fields["response"]]);
    LeadIndexed(a);
    IndexedConcat(LeadItems(a.content, a.reasoning, a.now), CallItems(a.calls, 0, a.now), 0);
  }

  lemma LeadIndexed(a: Answer)
    ensures Indexed(LeadItems(a.content, a.reasoning, a.now), 0)
         == (if Blank(a.reasoning.text) then []
             else Indexed([ReasoningItem(ReasoningId(a.reasoning, a.now), a.reasoning.text)], 0))
            + (if Blank(a.content) then []
               else Indexed([MessageItem(MessageId(a.now), a.content, "completed")],
                            if Blank(a.reasoning.text) then 0 else 1))
  {
    hide Trim, ReasoningItem, MessageItem;
    var xs := if !Blank(a.reasoning.text) then [ReasoningItem(ReasoningId(a.reasoning, a.now), a.reasoning.text)]
        else [];
    var ys := if !Blank(a.content) then [MessageItem(MessageId(a.now), a.content, "completed")] else [];
    IndexedConcat(xs, ys, 0);
  }
}
