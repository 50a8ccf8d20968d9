/**
 * Conversion of a request's conversation into the input items sent upstream, and how far each
 * tool output finds its call there.
 */
module InputConversion {
  import opened Wrappers
  import opened Text
  import opened Json
  import opened ContentText
  import opened OrphanFilter
  import Stream = ResponsesStream
  import Cut = HistoryCut

  /** What becomes of the content of a message: an error, nothing to send, or a message item. */
  datatype Rendered = Broken | Absent | Message(item: Json)

  type Renderer = (string, Json) -> Rendered

  ghost predicate PlainRenderer(r: Renderer) {
    forall role, content :: r(role, content).Message? ==> TypeOf(r(role, content).item) == "message"
  }

  // ---------- function calls and their outputs ----------

  predicate ItemIdChar(c: char) {
    'a' <= c <= 'z' || 'A' <= c <= 'Z' || '0' <= c <= '9' || c == '_' || c == '-'
  }

  /** `codexBackendValidFunctionCallItemID`. */
  predicate ValidItemId(id: string) {
    HasPrefix(id, "fc") && forall i :: 0 <= i < |id| ==> ItemIdChar(id[i])
  }

  function TrimMarks(s: string): string {
    if s != "" && (s[0] == '_' || s[0] == '-') then TrimMarks(s[1..])
    else if s != "" && (s[|s| - 1] == '_' || s[|s| - 1] == '-') then TrimMarks(s[..|s| - 1])
    else s
  }

  /** Every byte that may not appear in an item id becomes an underscore. */
  function MaskBytes(s: string): string {
    if s == "" then "" else (if ItemIdChar(s[0]) then [s[0]] else seq(ByteWidth(s[0]), _ => '_')) + MaskBytes(s[1..])
  }

  /** `codexBackendSafeItemID`. */
  function SafeItemId(value: string): string {
    var safe := TrimMarks(MaskBytes(Trim(value)));
    if safe == "" then "call" else safe
  }

  function CallName(call: Json): string {
    if StringValue(Field(call, "name")) != "" then StringValue(Field(call, "name"))
    else StringValue(Field(Field(call, "function"), "name"))
  }

  function CalledId(call: Json): string {
    FirstString(call, "call_id", "id")
  }

  /** `codexBackendFunctionCallItem`. */
  function FunctionCall(c: Codec, call: Json): Option<Json> {
    if CallName(call) == "" || CalledId(call) == "" then None else
    var id := StringValue(Field(call, "id"));
    var arguments := if Field(call, "arguments") != Null then Field(call, "arguments")
        else Field(Field(call, "function"), "arguments");
    Some(Obj(map["type" := Str("function_call"),
                 "id" := Str(if ValidItemId(id) then id else "fc_" + SafeItemId(CalledId(call))),
                 "call_id" := Str(CalledId(call)), "name" := Str(CallName(call)),
                 "arguments" := Str(Stream.ArgumentsString(c, arguments)), "status" := Str("completed")]))
  }

  /** `codexBackendFunctionCallOutputItem`. */
  function FunctionOutput(callId: string, output: string): Option<Json> {
    if Trim(callId) == "" then None
    else Some(Obj(map["type" := Str("function_call_output"), "call_id" := Str(Trim(callId)), "output" := Str(output)]))
  }

  function FunctionCalls(c: Codec, calls: seq<Json>): seq<Json> {
    if calls == [] then [] else
    var last := FunctionCall(c, calls[|calls| - 1]);
    FunctionCalls(c, calls[..|calls| - 1]) + if last.Some? then [last.value] else []
  }

  // ---------- one item ----------

  /** `codexBackendFunctionHistoryItem`. */
  function HistoryItem(c: Codec, item: Json): Option<Json> {
    if TypeOf(item) == "function_call" then FunctionCall(c, item)
    else if TypeOf(item) == "function_call_output" then
      FunctionOutput(FirstString(item, "call_id", "tool_call_id"), FirstString(item, "output", "content"))
    else None
  }

  function RenderedItems(rendered: Rendered): Option<seq<Json>> {
    match rendered
    case Broken => None
    case Absent => Some([])
    case Message(m) => Some([m])
  }

  /** The input items one Responses item turns into; None if the request is rejected. */
  function ResponseItems(c: Codec, r: Renderer, item: Json): Option<seq<Json>> {
    if !item.Obj? then Some([])
    else if HistoryItem(c, item).Some? then Some([HistoryItem(c, item).value])
    else
      var role := if RoleOf(item) == "" then "user" else RoleOf(item);
      if role != "user" && role != "assistant" then Some([]) else RenderedItems(r(role, Field(item, "content")))
  }

  function RoleOf(item: Json): string {
    StringValue(Field(item, "role"))
  }

  /** The input items one chat message turns into; system text goes to the instructions instead. */
  function ChatItems(c: Codec, r: Renderer, message: Json): Option<seq<Json>> {
    var role := RoleOf(message);
    var content := Field(message, "content");
    if role == "user" then RenderedItems(r(role, content))
    else if role == "assistant" then
      var said := RenderedItems(r(role, content));
      if said.None? then None else Some(said.value + FunctionCalls(c, Items(Field(message, "tool_calls"))))
    else if role == "tool" then
      var output := FunctionOutput(FirstString(message, "tool_call_id", "call_id"),
                                   if ValueText(content) == "" then StringValue(content) else ValueText(content));
      Some(if output.Some? then [output.value] else [])
    else Some([])
  }

  function ResponseConverter(c: Codec, r: Renderer): Json -> Option<seq<Json>> {
    item => ResponseItems(c, r, item)
  }

  function ChatConverter(c: Codec, r: Renderer): Json -> Option<seq<Json>> {
    message => ChatItems(c, r, message)
  }

  // ---------- the whole conversation ----------

  /** Item by item, until one is rejected. */
  function Convert(one: Json -> Option<seq<Json>>, items: seq<Json>): Option<seq<Json>> {
    if items == [] then Some([]) else
    var init := Convert(one, items[..|items| - 1]);
    if init.None? then None else
    var last := one(items[|items| - 1]);
    if last.None? then None else Some(init.value + last.value)
  }

  /** The loop of `codexBackendResponseInputItems`. */
  method ConvertResponses(c: Codec, r: Renderer, items: seq<Json>) returns (input: Option<seq<Json>>)
    ensures input == Convert(ResponseConverter(c, r), items)
  {
    hide ResponseItems;
    var list: seq<Json> := [];
    ghost var one := ResponseConverter(c, r);
    for i := 0 to |items|
      invariant Convert(one, items[..i]) == Some(list)
    {
      assert items[..i + 1][..i] == items[..i];
      var next := ResponseItems(c, r, items[i]);
      if next.None? {
        ConvertFails(one, items, i + 1);
        return None;
      }
      list := list + next.value;
    }
    assert items[..|items|] == items;
    input := Some(list);
  }

  /** The loop of `codexBackendChatInputItems`. */
  method ConvertChat(c: Codec, r: Renderer, messages: seq<Json>) returns (input: Option<seq<Json>>)
    ensures input == Convert(ChatConverter(c, r), messages)
  {
    hide ChatItems;
    var list: seq<Json> := [];
    ghost var one := ChatConverter(c, r);
    for i := 0 to |messages|
      invariant Convert(one, messages[..i]) == Some(list)
    {
      assert messages[..i + 1][..i] == messages[..i];
      var next := ChatItems(c, r, messages[i]);
      if next.None? {
        ConvertFails(one, messages, i + 1);
        return None;
      }
      list := list + next.value;
    }
    assert messages[..|messages|] == messages;
    input := Some(list);
  }

  lemma {:induction false} ConvertFails(one: Json -> Option<seq<Json>>, items: seq<Json>, k: nat)
    requires k <= |items| && Convert(one, items[..k]).None?
    ensures Convert(one, items).None?
    decreases |items| - k
  {
    if k < |items| {
      assert items[..k + 1][..k] == items[..k];
      ConvertFails(one, items, k + 1);
    } else {
      assert items[..k] == items;
    }
  }

  // ---------- pairing before and after conversion ----------

  /** The cut's view of a Responses item. */
  function ResponseSlot(item: Json): Cut.Item {
    Cut.Item(TypeOf(item) == "function_call_output",
             if TypeOf(item) == "function_call" && CallName(item) != "" && CalledId(item) != ""
             then {CalledId(item)} else {},
             if TypeOf(item) == "function_call_output" && FirstString(item, "call_id", "tool_call_id") != ""
             then Some(FirstString(item, "call_id", "tool_call_id")) else None)
  }

  function ValidCallIds(calls: seq<Json>): set<string> {
    set i | 0 <= i < |calls| && CallName(calls[i]) != "" && CalledId(calls[i]) != "" :: CalledId(calls[i])
  }

  /** The cut's view of a chat message. */
  function ChatSlot(message: Json): Cut.Item {
    Cut.Item(RoleOf(message) == "tool",
             if RoleOf(message) == "assistant" then ValidCallIds(Items(Field(message, "tool_calls"))) else {},
             if RoleOf(message) == "tool" && FirstString(message, "tool_call_id", "call_id") != ""
             then Some(FirstString(message, "tool_call_id", "call_id")) else None)
  }

  function Slots(slot: Json -> Cut.Item, items: seq<Json>): seq<Cut.Item> {
    seq(|items|, i requires 0 <= i < |items| => slot(items[i]))
  }

  /** Conversion of one item shows exactly the calls and the answer its slot names. */
  ghost predicate Shows(items: seq<Json>, slot: Cut.Item) {
    && CallIds(items) == slot.calls
    && match slot.answers
       case None => forall i :: 0 <= i < |items| ==> !IsOutput(items[i])
       case Some(id) => |items| == 1 && IsOutput(items[0]) && CallId(items[0]) == id
  }

  ghost predicate Faithful(one: Json -> Option<seq<Json>>, slot: Json -> Cut.Item) {
    forall item: Json {:trigger one(item)} :: one(item).Some? ==> Shows(one(item).value, slot(item))
  }

  lemma StringValueTrimmed(value: Json)
    ensures Trim(StringValue(value)) == StringValue(value)
  {
    hide Lead, Trail;
    if value.Str? { TrimFixed(value.s); } else { TrimFixed(""); }
  }

  lemma FirstStringTrimmed(value: Json, key1: string, key2: string)
    ensures Trim(FirstString(value, key1, key2)) == FirstString(value, key1, key2)
  {
    hide Trim;
    StringValueTrimmed(Field(value, key1));
    StringValueTrimmed(Field(value, key2));
  }

  lemma OneCallIds(item: Json)
    ensures CallIds([item]) == if IsCall(item) then {CallId(item)} else {}
  {
    hide IsCall, CallId;
    assert [item] == [] + [item];
    CallIdsSnoc([], item);
    assert CallIds([]) == {};
  }

  lemma FunctionCallReads(c: Codec, call: Json)
    requires FunctionCall(c, call).Some?
    ensures var item := FunctionCall(c, call).value;
            TypeOf(item) == "function_call" && CallId(item) == CalledId(call) && IsCall(item) && !IsOutput(item)
  {
    hide Trim, ValidItemId, SafeItemId, CallName;
    FirstStringTrimmed(call, "call_id", "id");
    TrimFixed("function_call");
  }

  lemma FunctionOutputReads(callId: string, output: string)
    requires FunctionOutput(callId, output).Some? && Trim(callId) == callId
    ensures var item := FunctionOutput(callId, output).value;
            IsOutput(item) && CallId(item) == callId && !IsCall(item)
  {
    hide Trim;
    TrimFixed("function_call_output");
  }

  lemma RenderedShows(r: Renderer, role: string, content: Json)
    requires PlainRenderer(r) && RenderedItems(r(role, content)).Some?
    ensures var items := RenderedItems(r(role, content)).value;
            CallIds(items) == {} && forall i :: 0 <= i < |items| ==> !IsOutput(items[i])
  {
    hide TypeOf, CallId;
    match r(role, content)
    case Message(m) => OneCallIds(m);
    case _ =>
  }

  lemma ResponseFaithful(c: Codec, r: Renderer, item: Json)
    requires PlainRenderer(r) && ResponseItems(c, r, item).Some?
    ensures Shows(ResponseItems(c, r, item).value, ResponseSlot(item))
  {
    hide Trim, FunctionCall, FunctionOutput, CallIds, CallName, CallId, PlainRenderer, RoleOf;
    NoObjectNoType(item);
    if !item.Obj? {
      assert CallIds([]) == {} by { NoCalls(); }
    } else if TypeOf(item) == "function_call" {
      FunctionCallDefined(c, item);
      if FunctionCall(c, item).Some? {
        FunctionCallReads(c, item);
        OneCallIds(FunctionCall(c, item).value);
      } else {
        PlainItems(c, r, item);
      }
    } else if TypeOf(item) == "function_call_output" {
      var id := FirstString(item, "call_id", "tool_call_id");
      FirstStringTrimmed(item, "call_id", "tool_call_id");
      FunctionOutputDefined(id, FirstString(item, "output", "content"));
      if id != "" {
        FunctionOutputReads(id, FirstString(item, "output", "content"));
        OneCallIds(FunctionOutput(id, FirstString(item, "output", "content")).value);
      } else {
        PlainItems(c, r, item);
      }
    } else {
      PlainItems(c, r, item);
    }
  }

  lemma NoCalls()
    ensures CallIds([]) == {}
  {
  }

  lemma FunctionCallDefined(c: Codec, call: Json)
    ensures FunctionCall(c, call).Some? <==> CallName(call) != "" && CalledId(call) != ""
  {
  }

  lemma FunctionOutputDefined(callId: string, output: string)
    requires Trim(callId) == callId
    ensures FunctionOutput(callId, output).Some? <==> callId != ""
  {
  }

  /** Everything but calls and outputs is rendered or left out. */
  lemma PlainItems(c: Codec, r: Renderer, item: Json)
    requires PlainRenderer(r) && item.Obj? && HistoryItem(c, item).None? && ResponseItems(c, r, item).Some?
    ensures var items := ResponseItems(c, r, item).value;
            CallIds(items) == {} && forall i :: 0 <= i < |items| ==> !IsOutput(items[i])
  {
    hide HistoryItem, CallIds, IsOutput, RenderedItems, PlainRenderer, Trim;
    var role := if RoleOf(item) == "" then "user" else RoleOf(item);
    NoCalls();
    if role == "user" || role == "assistant" {
      RenderedShows(r, role, Field(item, "content"));
    }
  }

  lemma {:induction false} FunctionCallsShow(c: Codec, calls: seq<Json>)
    ensures CallIds(FunctionCalls(c, calls)) == ValidCallIds(calls)
    ensures forall i :: 0 <= i < |FunctionCalls(c, calls)| ==> !IsOutput(FunctionCalls(c, calls)[i])
  {
    hide FunctionCall, CallIds, IsOutput, CallName, CalledId;
    if calls == [] {
      NoCalls();
    } else {
      var init, last := calls[..|calls| - 1], calls[|calls| - 1];
      assert calls == init + [last];
      FunctionCallsShow(c, init);
      FunctionCallDefined(c, last);
      ValidCallIdsSnoc(init, last);
      var before := FunctionCalls(c, init);
      if FunctionCall(c, last).Some? {
        FunctionCallReads(c, last);
        CallIdsSnoc(before, FunctionCall(c, last).value);
      } else {
        assert before + [] == before;
      }
    }
  }

  lemma ValidCallIdsSnoc(calls: seq<Json>, last: Json)
    ensures ValidCallIds(calls + [last])
         == ValidCallIds(calls) + if CallName(last) != "" && CalledId(last) != "" then {CalledId(last)} else {}
  {
    hide CallName, CalledId;
    var all := calls + [last];
    forall id | id in ValidCallIds(calls) ensures id in ValidCallIds(all) {
      var i :| 0 <= i < |calls| && CallName(calls[i]) != "" && CalledId(calls[i]) != "" && CalledId(calls[i]) == id;
      assert all[i] == calls[i];
    }
    assert all[|calls|] == last;
  }

  lemma ChatFaithful(c: Codec, r: Renderer, message: Json)
    requires PlainRenderer(r) && ChatItems(c, r, message).Some?
    ensures Shows(ChatItems(c, r, message).value, ChatSlot(message))
  {
    hide Trim, FunctionOutput, FunctionCalls, CallIds, CallId, IsOutput, PlainRenderer, RenderedItems, ValidCallIds,
        ValueText, RoleOf;
    var role, content := RoleOf(message), Field(message, "content");
    NoCalls();
    if role == "user" {
      RenderedShows(r, role, content);
    } else if role == "assistant" {
      RenderedShows(r, role, content);
      var calls := Items(Field(message, "tool_calls"));
      FunctionCallsShow(c, calls);
      var said := RenderedItems(r(role, content)).value;
      CallIdsConcat(said, FunctionCalls(c, calls));
      assert {} + ValidCallIds(calls) == ValidCallIds(calls);
    } else if role == "tool" {
      var id := FirstString(message, "tool_call_id", "call_id");
      var text := if ValueText(content) == "" then StringValue(content) else ValueText(content);
      FirstStringTrimmed(message, "tool_call_id", "call_id");
      FunctionOutputDefined(id, text);
      if id != "" {
        FunctionOutputReads(id, text);
        OneCallIds(FunctionOutput(id, text).value);
      }
    }
  }

  // ---------- the whole list ----------

  function AllCalls(slots: seq<Cut.Item>): set<string> {
    set i, id | 0 <= i < |slots| && id in slots[i].calls :: id
  }

  lemma SlotsSnoc(slots: seq<Cut.Item>, last: Cut.Item)
    ensures AllCalls(slots + [last]) == AllCalls(slots) + last.calls
    ensures Cut.Paired(slots + [last])
       <==> Cut.Paired(slots) && (last.answers.Some? ==> last.answers.value in AllCalls(slots))
  {
    var all := slots + [last];
    assert forall i :: 0 <= i < |slots| ==> all[i] == slots[i];
    assert all[|slots|] == last;
    forall id | id in AllCalls(slots) ensures id in AllCalls(all) {
      var i :| 0 <= i < |slots| && id in slots[i].calls;
      assert all[i] == slots[i];
    }
    if Cut.Paired(all) {
      forall i | 0 <= i < |slots| && slots[i].answers.Some?
        ensures exists j :: 0 <= j < i && slots[i].answers.value in slots[j].calls {
        var j :| 0 <= j < i && all[i].answers.value in all[j].calls;
        assert all[j] == slots[j];
      }
    }
    if Cut.Paired(slots) && (last.answers.Some? ==> last.answers.value in AllCalls(slots)) {
      forall i | 0 <= i < |all| && all[i].answers.Some?
        ensures exists j :: 0 <= j < i && all[i].answers.value in all[j].calls {
        if i < |slots| {
          var j :| 0 <= j < i && slots[i].answers.value in slots[j].calls;
          assert all[j] == slots[j];
        } else {
          var j :| 0 <= j < |slots| && last.answers.value in slots[j].calls;
          assert all[j] == slots[j];
        }
      }
    }
  }

  /** Appending one item's conversion keeps the list paired exactly if its answer was called before. */
  lemma AppendShown(xs: seq<Json>, ys: seq<Json>, slot: Cut.Item)
    requires Shows(ys, slot)
    ensures Paired(xs + ys) <==> Paired(xs) && (slot.answers.Some? ==> slot.answers.value in CallIds(xs))
  {
    hide CallIds, IsOutput, CallId;
    if slot.answers.Some? {
      assert xs + ys == xs + [ys[0]];
      PairedSnoc(xs, ys[0]);
    } else {
      AppendNoOutputs(xs, ys);
    }
  }

  lemma {:induction false} AppendNoOutputs(xs: seq<Json>, ys: seq<Json>)
    requires forall i :: 0 <= i < |ys| ==> !IsOutput(ys[i])
    ensures Paired(xs + ys) <==> Paired(xs)
    decreases |ys|
  {
    hide CallIds, IsOutput, CallId, Paired;
    if ys == [] {
      assert xs + ys == xs;
    } else {
      var init, last := ys[..|ys| - 1], ys[|ys| - 1];
      assert xs + ys == (xs + init) + [last];
      AppendNoOutputs(xs, init);
      PairedSnoc(xs + init, last);
    }
  }

  /** A converted conversation is paired exactly when the conversation was, seen through its slots. */
  lemma {:induction false} ConvertPaired(one: Json -> Option<seq<Json>>, slot: Json -> Cut.Item, items: seq<Json>)
    requires Faithful(one, slot) && Convert(one, items).Some?
    ensures CallIds(Convert(one, items).value) == AllCalls(Slots(slot, items))
    ensures Paired(Convert(one, items).value) <==> Cut.Paired(Slots(slot, items))
  {
    hide CallIds, IsOutput, CallId, Paired, AllCalls, Cut.Paired;
    if items == [] {
      NoCalls();
      NothingPaired();
      NoSlots();
      assert Slots(slot, items) == [];
    } else {
      var init, last := items[..|items| - 1], items[|items| - 1];
      ConvertPaired(one, slot, init);
      assert Slots(slot, items) == Slots(slot, init) + [slot(last)];
      SlotsSnoc(Slots(slot, init), slot(last));
      var xs, ys := Convert(one, init).value, one(last).value;
      assert Shows(ys, slot(last));
      CallIdsConcat(xs, ys);
      AppendShown(xs, ys, slot(last));
    }
  }

  lemma NoSlots()
    ensures AllCalls([]) == {} && Cut.Paired([])
  {
  }

  // ---------- end to end ----------

  datatype Endpoint = Responses | Chat

  /** `codexBackendResponseInputItems`: a list of items, or one text or one content value as a user message. */
  function ResponsesInput(c: Codec, r: Renderer, input: Json): Option<seq<Json>> {
    match input
    case Arr(items) => Convert(ResponseConverter(c, r), items)
    case Str(text) => if Blank(text) then Some([]) else RenderedItems(r("user", input))
    case _ => RenderedItems(r("user", input))
  }

  /** `codexBackendInputFromPayload`. */
  function InputOf(e: Endpoint, c: Codec, r: Renderer, payload: Json): Option<seq<Json>> {
    match e
    case Responses => ResponsesInput(c, r, Field(payload, "input"))
    case Chat => Convert(ChatConverter(c, r), Items(Field(payload, "messages")))
  }

  /** The input of the upstream request; None if the request is rejected or nothing is left to send. */
  function UpstreamInput(e: Endpoint, c: Codec, r: Renderer, payload: Json): Option<seq<Json>> {
    var input := InputOf(e, c, r, payload);
    if input.None? || Filter(input.value) == [] then None else Some(Filter(input.value))
  }

  /** The part of `codexBackendRequestFromGatewayWithOptions` that makes the input. */
  method MakeUpstreamInput(e: Endpoint, c: Codec, r: Renderer, payload: Json) returns (input: Option<seq<Json>>)
    ensures input == UpstreamInput(e, c, r, payload)
  {
    hide Filter, Convert, Trim;
    match e {
      case Chat =>
        input := ConvertChat(c, r, Items(Field(payload, "messages")));
      case Responses =>
        var value := Field(payload, "input");
        if value.Arr? {
          input := ConvertResponses(c, r, value.items);
        } else if value.Str? && Trim(value.s) == "" {
          input := Some([]);
        } else {
          input := RenderedItems(r("user", value));
        }
    }
    if input.None? {
      return None;
    }
    var kept := DropOrphanOutputs(input.value);
    input := if |kept| == 0 then None else Some(kept);
  }

  /** Whatever the request body holds, every output sent upstream is preceded by its call. */
  lemma UpstreamAlwaysPaired(e: Endpoint, c: Codec, r: Renderer, payload: Json)
    requires UpstreamInput(e, c, r, payload).Some?
    ensures Paired(UpstreamInput(e, c, r, payload).value)
  {
    hide InputOf;
    FilterPaired(InputOf(e, c, r, payload).value);
  }

  /** The conversation of a request body, seen through its slots; an input that is no list has none. */
  function RequestSlots(e: Endpoint, payload: Json): seq<Cut.Item> {
    match e
    case Responses => Slots(ResponseSlot, Items(Field(payload, "input")))
    case Chat => Slots(ChatSlot, Items(Field(payload, "messages")))
  }

  /** For every request body that is not rejected, no output is dropped exactly when each follows its call. */
  lemma RequestDropsNothingIff(e: Endpoint, c: Codec, r: Renderer, payload: Json)
    requires PlainRenderer(r) && InputOf(e, c, r, payload).Some?
    ensures Filter(InputOf(e, c, r, payload).value) == InputOf(e, c, r, payload).value
       <==> Cut.Paired(RequestSlots(e, payload))
  {
    hide Filter, Convert, Faithful, Paired, ResponseSlot, ChatSlot, Trim, PlainRenderer;
    var input := InputOf(e, c, r, payload).value;
    if e.Chat? {
      FaithfulChat(c, r);
      NothingDroppedIffPaired(ChatConverter(c, r), ChatSlot, Items(Field(payload, "messages")));
    } else if Field(payload, "input").Arr? {
      FaithfulResponses(c, r);
      NothingDroppedIffPaired(ResponseConverter(c, r), ResponseSlot, Field(payload, "input").items);
    } else {
      OneMessagePaired(r, Field(payload, "input"), input);
      FilterFixedIffPaired(input);
      NoSlots();
      assert RequestSlots(e, payload) == [];
    }
  }

  lemma OneMessagePaired(r: Renderer, value: Json, input: seq<Json>)
    requires PlainRenderer(r) && (input == [] || RenderedItems(r("user", value)) == Some(input))
    ensures Paired(input)
  {
    assert |"message"| == 7 && |"function_call_output"| == 20;
  }

  lemma FaithfulResponses(c: Codec, r: Renderer)
    requires PlainRenderer(r)
    ensures Faithful(ResponseConverter(c, r), ResponseSlot)
  {
    hide ResponseItems, ResponseSlot, Shows, PlainRenderer;
    forall item: Json | ResponseItems(c, r, item).Some?
      ensures Shows(ResponseItems(c, r, item).value, ResponseSlot(item)) {
      ResponseFaithful(c, r, item);
    }
  }

  lemma FaithfulChat(c: Codec, r: Renderer)
    requires PlainRenderer(r)
    ensures Faithful(ChatConverter(c, r), ChatSlot)
  {
    hide ChatItems, ChatSlot, Shows, PlainRenderer;
    forall message: Json | ChatItems(c, r, message).Some?
      ensures Shows(ChatItems(c, r, message).value, ChatSlot(message)) {
      ChatFaithful(c, r, message);
    }
  }

  /** The filter drops nothing exactly when every answer in the conversation follows its call. */
  lemma NothingDroppedIffPaired(one: Json -> Option<seq<Json>>, slot: Json -> Cut.Item, items: seq<Json>)
    requires Faithful(one, slot) && Convert(one, items).Some?
    ensures Filter(Convert(one, items).value) == Convert(one, items).value <==> Cut.Paired(Slots(slot, items))
  {
    hide Faithful, Paired, Cut.Paired, Filter;
    ConvertPaired(one, slot, items);
    FilterFixedIffPaired(Convert(one, items).value);
  }
}
