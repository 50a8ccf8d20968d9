/**
 * Responses event streams: the printer the gateway answers with and the parser it applies to the
 * same format from upstream.
 */
module ResponsesStream {
  import opened Wrappers
  import opened Sequences
  import opened Text
  import opened Json
  import opened SseFraming

  datatype ToolCall = ToolCall(id: string, callId: string, name: string, arguments: string)
  datatype Reasoning = Reasoning(id: string, text: string)
  datatype Metrics = Metrics(input: int, output: int, total: int, cached: int, reasoning: int)

  const DONE := "[DONE]"
  const NO_METRICS := Metrics(0, 0, 0, 0, 0)

  // ---------- payload builders ----------

  function ReasoningId(r: Reasoning, now: int): string {
    if Trim(r.id) != "" then Trim(r.id) else "rs_codex_" + Decimal(now)
  }

  function MessageId(now: int): string {
    "msg_codex_" + Decimal(now)
  }

  function ToolCallId(call: ToolCall, index: nat): string {
    if Trim(call.callId) != "" then Trim(call.callId)
    else if Trim(call.id) != "" then Trim(call.id)
    else "call_codex_" + Decimal(index)
  }

  function ItemId(call: ToolCall, index: nat, now: int): string {
    if Trim(call.id) != "" then Trim(call.id) else "fc_codex_" + Decimal(now) + "_" + Decimal(index)
  }

  function ReasoningItem(id: string, summary: string): (item: Json)
    ensures item.Obj?
  {
    Obj(map["id" := Str(id), "type" := Str("reasoning"),
            "summary" := Arr([Obj(map["type" := Str("summary_text"), "text" := Str(summary)])])])
  }

  function MessageItem(id: string, content: string, status: string): (item: Json)
    ensures item.Obj?
  {
    Obj(map["id" := Str(id), "type" := Str("message"), "role" := Str("assistant"), "status" := Str(status),
            "content" := Arr([Obj(map["type" := Str("output_text"), "text" := Str(content)])])])
  }

  function FunctionCallItem(call: ToolCall, index: nat, now: int): (item: Json)
    ensures item.Obj?
  {
    Obj(map["id" := Str(ItemId(call, index, now)), "type" := Str("function_call"),
            "call_id" := Str(if Trim(call.callId) != "" then Trim(call.callId) else ToolCallId(call, index)),
            "name" := Str(call.name), "arguments" := Str(call.arguments), "status" := Str("completed")])
  }

  function UsagePayload(m: Metrics): Json {
    Obj(map["input_tokens" := Num(m.input), "output_tokens" := Num(m.output), "total_tokens" := Num(m.total),
            "input_tokens_details" := Obj(map["cached_tokens" := Num(m.cached)]),
            "output_tokens_details" := Obj(map["reasoning_tokens" := Num(m.reasoning)])])
  }

  function CallItems(calls: seq<ToolCall>, from: nat, now: int): seq<Json>
    decreases |calls| - from
  {
    if from >= |calls| then [] else [FunctionCallItem(calls[from], from, now)] + CallItems(calls, from + 1, now)
  }

  /** The items before the tool calls: the reasoning summary and the message, when not blank. */
  function LeadItems(content: string, r: Reasoning, now: int): seq<Json> {
    (if !Blank(r.text) then [ReasoningItem(ReasoningId(r, now), r.text)] else [])
    + (if !Blank(content) then [MessageItem(MessageId(now), content, "completed")] else [])
  }

  /** The final `output` list. */
  function OutputItems(content: string, r: Reasoning, calls: seq<ToolCall>, now: int): seq<Json> {
    LeadItems(content, r, now) + CallItems(calls, 0, now)
  }

  // ---------- events ----------

  function Event(kind: string, rest: map<string, Json>): Json {
    Obj(rest["type" := Str(kind)])
  }

  function ItemDone(index: int, item: Json): Json {
    Event("response.output_item.done", map["output_index" := Num(index), "item" := item])
  }

  function CreatedEvent(responseId: string, now: int, model: string): Json {
    Event("response.created", map["response" := Obj(map[
      "id" := Str(responseId), "object" := Str("response"), "created_at" := Num(now), "model" := Str(model),
      "status" := Str("in_progress"), "output" := Arr([]), "output_text" := Str(""),
      "parallel_tool_calls" := Bool(false)])])
  }

  function ReasoningEvents(r: Reasoning, now: int, index: int): seq<Json> {
    var id := ReasoningId(r, now);
    var at := map["item_id" := Str(id), "output_index" := Num(index), "summary_index" := Num(0)];
    [Event("response.output_item.added", map["output_index" := Num(index), "item" := ReasoningItem(id, "")]),
     Event("response.reasoning_summary_part.added",
           at["part" := Obj(map["type" := Str("summary_text"), "text" := Str("")])]),
     Event("response.reasoning_summary_text.delta", at["delta" := Str(r.text)]),
     Event("response.reasoning_summary_text.done", at["text" := Str(r.text)]),
     Event("response.reasoning_summary_part.done",
           at["part" := Obj(map["type" := Str("summary_text"), "text" := Str(r.text)])]),
     ItemDone(index, ReasoningItem(id, r.text))]
  }

  function MessageEvents(content: string, now: int, index: int): seq<Json> {
    var id := MessageId(now);
    var at := map["item_id" := Str(id), "output_index" := Num(index), "content_index" := Num(0)];
    [Event("response.output_item.added",
           map["output_index" := Num(index), "item" := MessageItem(id, content, "in_progress")]),
     Event("response.content_part.added", at["part" := Obj(map["type" := Str("output_text"), "text" := Str("")])]),
     Event("response.output_text.delta", at["delta" := Str(content)]),
     Event("response.output_text.done", at["text" := Str(content)]),
     Event("response.content_part.done", at["part" := Obj(map["type" := Str("output_text"), "text" := Str(content)])]),
     ItemDone(index, MessageItem(id, content, "completed"))]
  }

  function CallEvents(calls: seq<ToolCall>, from: nat, base: int, now: int): seq<Json>
    decreases |calls| - from
  {
    if from >= |calls| then []
    else [ItemDone(base + from, FunctionCallItem(calls[from], from, now))] + CallEvents(calls, from + 1, base, now)
  }

  function CompletedEvent(responseId: string, now: int, model: string, content: string, output: seq<Json>,
                          m: Metrics): Json {
    Event("response.completed", map["response" := Obj(map[
      "id" := Str(responseId), "object" := Str("response"), "created_at" := Num(now), "model" := Str(model),
      "status" := Str("completed"), "output_text" := Str(content), "parallel_tool_calls" := Bool(false),
      "output" := Arr(output), "usage" := UsagePayload(m)])])
  }

  /** One answer, as the gateway holds it before printing. */
  datatype Answer = Answer(responseId: string, now: int, model: string, content: string,
                           reasoning: Reasoning, calls: seq<ToolCall>, metrics: Metrics, includeCreated: bool)

  function CreatedPart(a: Answer): seq<Json> {
    if a.includeCreated then [CreatedEvent(a.responseId, a.now, a.model)] else []
  }

  function ReasoningPart(a: Answer): seq<Json> {
    if !Blank(a.reasoning.text) then ReasoningEvents(a.reasoning, a.now, 0) else []
  }

  function MessagePart(a: Answer): seq<Json> {
    if !Blank(a.content) then MessageEvents(a.content, a.now, if !Blank(a.reasoning.text) then 1 else 0) else []
  }

  function LeadEvents(a: Answer): seq<Json> {
    CreatedPart(a) + ReasoningPart(a) + MessagePart(a)
  }

  function StreamEvents(a: Answer): seq<Json> {
    LeadEvents(a)
    + CallEvents(a.calls, 0, |LeadItems(a.content, a.reasoning, a.now)|, a.now)
    + [CompletedEvent(a.responseId, a.now, a.model, a.content, OutputItems(a.content, a.reasoning, a.calls, a.now),
                      a.metrics)]
  }

  function Encoded(c: Codec, events: seq<Json>): seq<string> {
    if events == [] then [] else [c.encode(events[0])] + Encoded(c, events[1..])
  }

  /** The bytes of the whole stream. */
  function StreamText(c: Codec, a: Answer): string {
    Render(AsData(Encoded(c, StreamEvents(a)) + [DONE]))
  }

  // ---------- printer ----------

  /** The response body of a client that keeps reading. */
  class ResponseWriter {
    var written: string

    method Write(line: string) returns (n: nat)
      modifies this
      ensures written == old(written) + line && n == ByteLen(line)
    {
      written := written + line;
      n := ByteLen(line);
    }
  }

  method WriteSSEData(w: ResponseWriter, data: string) returns (n: nat)
    modifies w
    ensures w.written == old(w.written) + FrameText(Data(data)) && n == ByteLen(FrameText(Data(data)))
  {
    n := w.Write("data: " + data + "\n\n");
  }

  method WriteEvents(w: ResponseWriter, c: Codec, events: seq<Json>) returns (n: nat)
    modifies w
    ensures w.written == old(w.written) + Render(AsData(Encoded(c, events)))
    ensures n == ByteLen(Render(AsData(Encoded(c, events))))
  {
    n := 0;
    var i := 0;
    assert events[0..] == events;
    while i < |events|
      invariant 0 <= i <= |events|
      invariant w.written + Render(AsData(Encoded(c, events[i..])))
           == old(w.written) + Render(AsData(Encoded(c, events)))
      invariant n + ByteLen(Render(AsData(Encoded(c, events[i..])))) == ByteLen(Render(AsData(Encoded(c, events))))
    {
      RenderEncodedHead(c, events[i..]);
      assert events[i..][1..] == events[i + 1..];
      ByteLenConcat(FrameText(Data(c.encode(events[i]))), Render(AsData(Encoded(c, events[i + 1..]))));
      ghost var before := w.written;
      var m := WriteSSEData(w, c.encode(events[i]));
      ConcatAssociates(before, FrameText(Data(c.encode(events[i]))), Render(AsData(Encoded(c, events[i + 1..]))));
      n := n + m;
      i := i + 1;
    }
    assert events[i..] == [];
  }

  lemma RenderEncodedHead(c: Codec, events: seq<Json>)
    requires events != []
    ensures Render(AsData(Encoded(c, events)))
         == FrameText(Data(c.encode(events[0]))) + Render(AsData(Encoded(c, events[1..])))
  {
    var rest := Encoded(c, events[1..]);
    assert ([c.encode(events[0])] + rest)[1..] == rest;
    assert ([Data(c.encode(events[0]))] + AsData(rest))[1..] == AsData(rest);
  }

  lemma {:induction false} EncodedConcat(c: Codec, xs: seq<Json>, ys: seq<Json>)
    ensures Encoded(c, xs + ys) == Encoded(c, xs) + Encoded(c, ys)
  {
    if xs == [] {
      assert xs + ys == ys;
    } else {
      assert (xs + ys)[1..] == xs[1..] + ys;
      EncodedConcat(c, xs[1..], ys);
    }
  }

  lemma {:induction false} RenderConcat(xs: seq<string>, ys: seq<string>)
    ensures Render(AsData(xs + ys)) == Render(AsData(xs)) + Render(AsData(ys))
  {
    if xs == [] {
      assert xs + ys == ys;
    } else {
      assert (xs + ys)[1..] == xs[1..] + ys;
      assert forall zs: seq<string> :: zs != [] ==> AsData(zs)[1..] == AsData(zs[1..]);
      RenderConcat(xs[1..], ys);
      ConcatAssociates(FrameText(Data(xs[0])), Render(AsData(xs[1..])), Render(AsData(ys)));
    }
  }

  function EventsText(c: Codec, events: seq<Json>): string {
    Render(AsData(Encoded(c, events)))
  }

  lemma StreamTextEnds(c: Codec, a: Answer)
    ensures StreamText(c, a) == EventsText(c, StreamEvents(a)) + FrameText(Data(DONE))
    ensures ByteLen(StreamText(c, a)) == ByteLen(EventsText(c, StreamEvents(a))) + ByteLen(FrameText(Data(DONE)))
  {
    RenderConcat(Encoded(c, StreamEvents(a)), [DONE]);
    assert AsData([DONE]) == [Data(DONE)] by { assert AsData([DONE][1..]) == []; }
    assert Render([Data(DONE)]) == FrameText(Data(DONE)) + "" by { assert [Data(DONE)][1..] == []; }
    assert FrameText(Data(DONE)) + "" == FrameText(Data(DONE));
    ByteLenConcat(EventsText(c, StreamEvents(a)), FrameText(Data(DONE)));
  }

  /** The gateway's printer: every event in order, then `[DONE]`. */
  method WriteResponsesStreamBody(w: ResponseWriter, c: Codec, a: Answer) returns (responseBytes: nat)
    modifies w
    ensures w.written == old(w.written) + StreamText(c, a)
    ensures responseBytes == ByteLen(StreamText(c, a))
  {
    var events := StreamEvents(a);
    StreamTextEnds(c, a);
    ConcatAssociates(w.written, EventsText(c, events), FrameText(Data(DONE)));
    var n := WriteEvents(w, c, events);
    var m := WriteSSEData(w, DONE);
    responseBytes := n + m;
  }

  // ---------- parser ----------

  /** `outputTextFromCodexContent`. */
  function ContentTexts(parts: seq<Json>): seq<string> {
    if parts == [] then [] else
    var text := StringValue(Field(parts[0], "text"));
    (if Field(parts[0], "type") == Str("output_text") && text != "" then [text] else []) + ContentTexts(parts[1..])
  }

  function ContentText(content: Json): string {
    Trim(Join(ContentTexts(Items(content)), "\n"))
  }

  /** `codexBackendOutputTextFromValue`. */
  function OutputText(value: Json): string
    decreases value, 0
  {
    match value
    case Obj(fields) =>
      if StringValue(Field(value, "output_text")) != "" then StringValue(Field(value, "output_text"))
      else if Field(value, "type") == Str("message") then ContentText(Field(value, "content"))
      else if "output" in fields && fields["output"].Arr? then Trim(Join(OutputTexts(fields["output"].items), "\n"))
      else ""
    case Arr(items) => Trim(Join(OutputTexts(items), "\n"))
    case _ => ""
  }

  function OutputTexts(items: seq<Json>): seq<string>
    decreases items, 1
  {
    if items == [] then [] else
    (if OutputText(items[0]) != "" then [OutputText(items[0])] else []) + OutputTexts(items[1..])
  }

  /** `gatewayToolArgumentsString`. */
  function ArgumentsString(c: Codec, value: Json): string {
    match value
    case Null => "{}"
    case Str(s) => if Blank(s) then "{}" else s
    case _ => if c.encode(value) == "" then "{}" else c.encode(value)
  }

  /** `codexBackendToolCallFromValue`. */
  function ToolCallFromValue(c: Codec, value: Json): Option<ToolCall> {
    if StringValue(Field(value, "type")) != "function_call" || StringValue(Field(value, "name")) == "" then None
    else Some(ToolCall(StringValue(Field(value, "id")), FirstString(value, "call_id", "id"),
                       StringValue(Field(value, "name")), ArgumentsString(c, Field(value, "arguments"))))
  }

  function ToolCallsFromItems(c: Codec, items: seq<Json>): seq<ToolCall> {
    if items == [] then [] else
    var call := ToolCallFromValue(c, items[0]);
    (if call.Some? then [call.value] else []) + ToolCallsFromItems(c, items[1..])
  }

  /** `codexUsageMetricsFromMap`. */
  function UsageMetrics(usage: Json): Metrics {
    var input := IntValue(Field(usage, "input_tokens"));
    var output := IntValue(Field(usage, "output_tokens"));
    var total := IntValue(Field(usage, "total_tokens"));
    var cached := IntValue(Field(usage, "cached_input_tokens"));
    var reasoning := IntValue(Field(usage, "reasoning_output_tokens"));
    Metrics(input, output,
            if total <= 0 && (input > 0 || output > 0) then input + output else total,
            if cached <= 0 then IntValue(Field(Field(usage, "input_tokens_details"), "cached_tokens")) else cached,
            if reasoning <= 0 then IntValue(Field(Field(usage, "output_tokens_details"), "reasoning_tokens"))
                else reasoning)
  }

  datatype ParseState = ParseState(content: string, finalText: string, reasoning: Reasoning,
                                   calls: seq<ToolCall>, finalCalls: seq<ToolCall>, metrics: Metrics)

  datatype Parsed =
    | Answered(text: string, reasoning: Reasoning, calls: seq<ToolCall>, metrics: Metrics)
    | Refused(kind: string)

  datatype Progress = Going(st: ParseState) | Stopped(kind: string)

  const PARSE_START := ParseState("", "", Reasoning("", ""), [], [], NO_METRICS)

  function Kind(event: Json): string {
    StringValue(Field(event, "type"))
  }

  lemma KindOf(kind: string, rest: map<string, Json>)
    requires Trimmed(kind)
    ensures Kind(Event(kind, rest)) == kind
  {
    hide Trim;
    TrimFixed(kind);
  }

  /** The effect of one event that is neither `response.failed` nor `response.incomplete`. */
  function EventStep(c: Codec, st: ParseState, event: Json): ParseState {
    var kind := Kind(event);
    if kind == "response.output_text.delta" then
      st.(content := st.content + StringValue(Field(event, "delta")))
    else if kind == "response.reasoning_summary_text.delta" then
      st.(reasoning := Reasoning(if st.reasoning.id == "" then StringValue(Field(event, "item_id"))
                                 else st.reasoning.id,
                                 st.reasoning.text + StringValue(Field(event, "delta"))))
    else if kind == "response.reasoning_summary_text.done" then
      var text := StringValue(Field(event, "text"));
      st.(reasoning := Reasoning(if st.reasoning.id == "" then StringValue(Field(event, "item_id"))
                                 else st.reasoning.id,
                                 if text != "" then text else st.reasoning.text))
    else if kind == "response.output_item.done" then
      var item := MapValue(Field(event, "item"));
      var call := ToolCallFromValue(c, item);
      if call.Some? then st.(calls := st.calls + [call.value])
      else if OutputText(item) != "" then st.(finalText := OutputText(item))
      else st
    else if kind == "response.completed" then
      var response := MapValue(Field(event, "response"));
      var usage := UsageMetrics(Field(response, "usage"));
      var calls := ToolCallsFromItems(c, Items(Field(response, "output")));
      st.(metrics := if usage.total > 0 then usage else st.metrics,
          finalText := if OutputText(response) != "" then OutputText(response) else st.finalText,
          finalCalls := if calls != [] then calls else st.finalCalls)
    else st
  }

  predicate Failure(event: Json) {
    Kind(event) == "response.failed" || Kind(event) == "response.incomplete"
  }

  function MessageStep(c: Codec, st: ParseState, data: string): Progress {
    if data == DONE || Blank(data) || c.decode(data).None? then Going(st)
    else if Failure(c.decode(data).value) then Stopped(Kind(c.decode(data).value))
    else Going(EventStep(c, st, c.decode(data).value))
  }

  function ParseFrom(c: Codec, st: ParseState, messages: seq<string>): Progress
    decreases |messages|
  {
    if messages == [] then Going(st) else
    match MessageStep(c, st, messages[0])
    case Going(next) => ParseFrom(c, next, messages[1..])
    case Stopped(kind) => Stopped(kind)
  }

  function Conclude(p: Progress): Parsed {
    match p
    case Stopped(kind) => Refused(kind)
    case Going(st) =>
      Answered(if !Blank(st.finalText) then Trim(st.finalText) else Trim(st.content), st.reasoning,
               if st.finalCalls != [] then st.finalCalls else st.calls, st.metrics)
  }

  /** What the data messages of an event stream mean. */
  function ParseMessages(c: Codec, messages: seq<string>): Parsed {
    Conclude(ParseFrom(c, PARSE_START, messages))
  }

  /** The gateway's parser loop. */
  method ParseSSE(c: Codec, body: string) returns (r: Parsed)
    ensures r == ParseMessages(c, DataMessages(body))
  {
    var messages := SseDataMessages(body);
    var st := PARSE_START;
    var i := 0;
    assert messages[0..] == messages;
    while i < |messages|
      invariant 0 <= i <= |messages|
      invariant ParseFrom(c, st, messages[i..]) == ParseFrom(c, PARSE_START, messages)
    {
      var data := messages[i];
      assert messages[i..][1..] == messages[i + 1..];
      i := i + 1;
      if data == DONE || Trim(data) == "" { continue; }
      var event := c.decode(data);
      if event.None? { continue; }
      var kind := Kind(event.value);
      if kind == "response.failed" || kind == "response.incomplete" {
        return Refused(kind);
      }
      st := EventStep(c, st, event.value);
    }
    var text := Trim(st.content);
    if Trim(st.finalText) != "" {
      text := Trim(st.finalText);
    }
    var calls := st.calls;
    if |st.finalCalls| > 0 {
      calls := st.finalCalls;
    }
    r := Answered(text, st.reasoning, calls, st.metrics);
  }
}
