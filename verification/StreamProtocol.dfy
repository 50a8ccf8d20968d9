/** The shape of a printed Responses stream: which events, in which order, about which item. */
module StreamProtocol {
  import opened Sequences
  import opened Text
  import opened Json
  import opened Settling
  import opened ResponsesStream

  // ---------- what a client follows ----------

  /** The type of an event, the place it names in the output, and the id of the item it is about. */
  datatype Note = Note(kind: string, place: Json, id: Json)

  function NoteOf(event: Json): Note {
    Note(Kind(event), Field(event, "output_index"),
         if Field(event, "item_id") != Null then Field(event, "item_id") else Field(Field(event, "item"), "id"))
  }

  function NotesOf(events: seq<Json>): seq<Note> {
    Concat(event => [NoteOf(event)], events)
  }

  /** An item is announced, filled and finished under one id and one place. */
  function ItemNotes(kinds: seq<string>, place: int, id: string): seq<Note> {
    Concat(kind => [Note(kind, Num(place), Str(id))], kinds)
  }

  const REASONING_KINDS := [
    "response.output_item.added", "response.reasoning_summary_part.added", "response.reasoning_summary_text.delta",
    "response.reasoning_summary_text.done", "response.reasoning_summary_part.done", "response.output_item.done"]

  const MESSAGE_KINDS := [
    "response.output_item.added", "response.content_part.added", "response.output_text.delta",
    "response.output_text.done", "response.content_part.done", "response.output_item.done"]

  /** Calls are only reported as finished, each at its place behind the other items. */
  function CallNotes(calls: seq<ToolCall>, from: nat, base: int, now: int): seq<Note>
    decreases |calls| - from
  {
    if from >= |calls| then []
    else [Note("response.output_item.done", Num(base + from), Str(ItemId(calls[from], from, now)))]
         + CallNotes(calls, from + 1, base, now)
  }

  lemma NotesConcat(xs: seq<Json>, ys: seq<Json>)
    ensures NotesOf(xs + ys) == NotesOf(xs) + NotesOf(ys)
    decreases |ys|
  {
    if ys == [] {
      assert xs + ys == xs && NotesOf(xs) + NotesOf([]) == NotesOf(xs);
    } else {
      var init, last := ys[..|ys| - 1], ys[|ys| - 1];
      assert ys == init + [last] && xs + ys == (xs + init) + [last];
      NotesConcat(xs, init);
      ConcatSnoc(event => [NoteOf(event)], xs + init, last);
      ConcatSnoc(event => [NoteOf(event)], init, last);
      ConcatAssociates(NotesOf(xs), NotesOf(init), [NoteOf(last)]);
    }
  }

  lemma {:induction false} PiecesAre<T, U>(add: T -> seq<U>, one: T -> U, xs: seq<T>)
    requires forall x :: add(x) == [one(x)]
    ensures |Concat(add, xs)| == |xs| && forall i :: 0 <= i < |xs| ==> Concat(add, xs)[i] == one(xs[i])
  {
    if xs != [] { PiecesAre(add, one, xs[1..]); }
  }

  lemma NotesAre(events: seq<Json>)
    ensures |NotesOf(events)| == |events|
    ensures forall i :: 0 <= i < |events| ==> NotesOf(events)[i] == NoteOf(events[i])
  {
    hide NoteOf;
    PiecesAre(event => [NoteOf(event)], event => NoteOf(event), events);
  }

  lemma ItemNotesAre(kinds: seq<string>, place: int, id: string)
    ensures |ItemNotes(kinds, place, id)| == |kinds|
    ensures forall i :: 0 <= i < |kinds| ==> ItemNotes(kinds, place, id)[i] == Note(kinds[i], Num(place), Str(id))
  {
    PiecesAre(kind => [Note(kind, Num(place), Str(id))], kind => Note(kind, Num(place), Str(id)), kinds);
  }

  /** Ids are the answer's own where it has them, and numbered ones otherwise; a call may lend its id. */
  lemma IdsAre(call: ToolCall, index: nat, r: Reasoning, now: int)
    ensures ItemId(call, index, now)
         == if Blank(call.id) then "fc_codex_" + Decimal(now) + "_" + Decimal(index) else Trim(call.id)
    ensures ToolCallId(call, index)
         == if !Blank(call.callId) then Trim(call.callId)
            else if !Blank(call.id) then Trim(call.id) else "call_codex_" + Decimal(index)
    ensures ReasoningId(r, now) == if Blank(r.id) then "rs_codex_" + Decimal(now) else Trim(r.id)
    ensures MessageId(now) == "msg_codex_" + Decimal(now)
  {
    hide Trim, Decimal;
  }

  // ---------- the printed events ----------

  lemma FieldNames()
    ensures |"output_index"| == 12 && |"item_id"| == 7 && |"item"| == 4 && |"type"| == 4 && "item"[0] != "type"[0]
    ensures |"summary_index"| == 13 && |"content_index"| == 13 && |"part"| == 4 && |"delta"| == 5 && |"text"| == 4
    ensures "part"[0] != "item"[0] && "text"[2] != "type"[2] && "text"[0] != "item"[0] && "part"[0] != "type"[0]
  {
  }

  /** An event that names an item by its id. */
  lemma ReferringNote(kind: string, rest: map<string, Json>, place: int, id: string)
    requires Trimmed(kind) && "item_id" in rest && rest["item_id"] == Str(id)
    requires "output_index" in rest && rest["output_index"] == Num(place)
    ensures NoteOf(Event(kind, rest)) == Note(kind, Num(place), Str(id))
  {
    hide Trim;
    FieldNames();
    KindOf(kind, rest);
  }

  /** An event that carries the item itself. */
  lemma CarrierNote(kind: string, place: int, item: Json, id: string)
    requires Trimmed(kind) && Field(item, "id") == Str(id)
    ensures NoteOf(Event(kind, map["output_index" := Num(place), "item" := item])) == Note(kind, Num(place), Str(id))
  {
    hide Trim;
    FieldNames();
    KindOf(kind, map["output_index" := Num(place), "item" := item]);
  }

  lemma ReasoningNotes(r: Reasoning, now: int, place: int)
    ensures NotesOf(ReasoningEvents(r, now, place)) == ItemNotes(REASONING_KINDS, place, ReasoningId(r, now))
  {
    hide NoteOf, ReasoningId, Event, Trimmed;
    var es, id := ReasoningEvents(r, now, place), ReasoningId(r, now);
    var at := map["item_id" := Str(id), "output_index" := Num(place), "summary_index" := Num(0)];
    NotesAre(es);
    ItemNotesAre(REASONING_KINDS, place, id);
    KindsTrimmed();
    ItemIds(id, r.text);
    CarrierNote("response.output_item.added", place, ReasoningItem(id, ""), id);
    ReferringNote("response.reasoning_summary_part.added",
                at["part" := Obj(map["type" := Str("summary_text"), "text" := Str("")])], place, id);
    ReferringNote("response.reasoning_summary_text.delta", at["delta" := Str(r.text)], place, id);
    ReferringNote("response.reasoning_summary_text.done", at["text" := Str(r.text)], place, id);
    ReferringNote("response.reasoning_summary_part.done",
                at["part" := Obj(map["type" := Str("summary_text"), "text" := Str(r.text)])], place, id);
    CarrierNote("response.output_item.done", place, ReasoningItem(id, r.text), id);
  }

  lemma KindsTrimmed()
    ensures forall i :: 0 <= i < 6 ==> Trimmed(REASONING_KINDS[i]) && Trimmed(MESSAGE_KINDS[i])
  {
  }

  lemma ItemIds(id: string, text: string)
    ensures Field(ReasoningItem(id, text), "id") == Str(id) && Field(ReasoningItem(id, ""), "id") == Str(id)
    ensures forall status :: Field(MessageItem(id, text, status), "id") == Str(id)
  {
    assert |"id"| == 2 && |"type"| == 4 && |"summary"| == 7 && |"role"| == 4 && |"status"| == 6 && |"content"| == 7;
  }

  lemma MessageNotes(content: string, now: int, place: int)
    ensures NotesOf(MessageEvents(content, now, place)) == ItemNotes(MESSAGE_KINDS, place, MessageId(now))
  {
    hide NoteOf, MessageId, Event, Trimmed;
    var es, id := MessageEvents(content, now, place), MessageId(now);
    var at := map["item_id" := Str(id), "output_index" := Num(place), "content_index" := Num(0)];
    NotesAre(es);
    ItemNotesAre(MESSAGE_KINDS, place, id);
    KindsTrimmed();
    ItemIds(id, content);
    CarrierNote("response.output_item.added", place, MessageItem(id, content, "in_progress"), id);
    ReferringNote("response.content_part.added",
                at["part" := Obj(map["type" := Str("output_text"), "text" := Str("")])], place, id);
    ReferringNote("response.output_text.delta", at["delta" := Str(content)], place, id);
    ReferringNote("response.output_text.done", at["text" := Str(content)], place, id);
    ReferringNote("response.content_part.done",
                at["part" := Obj(map["type" := Str("output_text"), "text" := Str(content)])], place, id);
    CarrierNote("response.output_item.done", place, MessageItem(id, content, "completed"), id);
  }

  lemma {:induction false} CallsNoted(calls: seq<ToolCall>, from: nat, base: int, now: int)
    ensures NotesOf(CallEvents(calls, from, base, now)) == CallNotes(calls, from, base, now)
    decreases |calls| - from
  {
    hide NoteOf, ItemId, NotesOf, FunctionCallItem, Trimmed, Event;
    if from >= |calls| {
      NothingNoted();
    } else {
      var item := FunctionCallItem(calls[from], from, now);
      var rest := CallEvents(calls, from + 1, base, now);
      assert Field(item, "id") == Str(ItemId(calls[from], from, now)) by { CallReported(calls[from], from, now); }
      DoneTrimmed();
      CarrierNote("response.output_item.done", base + from, item, ItemId(calls[from], from, now));
      CallsNoted(calls, from + 1, base, now);
      NotesConcat([ItemDone(base + from, item)], rest);
      NotesAre([ItemDone(base + from, item)]);
    }
  }

  lemma DoneTrimmed()
    ensures Trimmed("response.output_item.done")
  {
  }

  /** A call is reported finished, under its ids and with its name and arguments as they are. */
  lemma CallReported(call: ToolCall, index: nat, now: int)
    ensures var item := FunctionCallItem(call, index, now);
            && Field(item, "id") == Str(ItemId(call, index, now)) && Field(item, "type") == Str("function_call")
            && Field(item, "call_id") == Str(ToolCallId(call, index)) && Field(item, "status") == Str("completed")
            && Field(item, "name") == Str(call.name) && Field(item, "arguments") == Str(call.arguments)
  {
    hide ItemId, Trim;
    assert |"id"| == 2 && |"type"| == 4 && |"call_id"| == 7 && |"name"| == 4 && |"arguments"| == 9 && |"status"| == 6;
  }

  /** The response itself is announced, if wanted, and completed; its events name no place. */
  function ResponseNote(kind: string): Note {
    Note(kind, Null, Null)
  }

  /**
   * For every answer: the response is created, the reasoning and the message are announced, filled
   * and finished each under one id and one place, the calls follow at the places behind them, and
   * the completed response comes last.
   */
  lemma PrintedEventsFollowProtocol(a: Answer)
    ensures var thinks, talks := !Blank(a.reasoning.text), !Blank(a.content);
            NotesOf(StreamEvents(a))
            == (if a.includeCreated then [ResponseNote("response.created")] else [])
               + (if thinks then ItemNotes(REASONING_KINDS, 0, ReasoningId(a.reasoning, a.now)) else [])
               + (if talks then ItemNotes(MESSAGE_KINDS, if thinks then 1 else 0, MessageId(a.now)) else [])
               + CallNotes(a.calls, 0, (if thinks then 1 else 0) + (if talks then 1 else 0), a.now)
               + [ResponseNote("response.completed")]
  {
    hide NoteOf, NotesOf, Trim, ReasoningId, MessageId, CallEvents, CallNotes, CompletedEvent, OutputItems, LeadEvents,
      ItemNotes, LeadItems, Blank;
    var base := |LeadItems(a.content, a.reasoning, a.now)|;
    var calls := CallEvents(a.calls, 0, base, a.now);
    var output := OutputItems(a.content, a.reasoning, a.calls, a.now);
    var completed := CompletedEvent(a.responseId, a.now, a.model, a.content, output, a.metrics);
    NotesConcat(LeadEvents(a) + calls, [completed]);
    NotesConcat(LeadEvents(a), calls);
    LeadNoted(a);
    CallsNoted(a.calls, 0, base, a.now);
    CompletedNoted(a.responseId, a.now, a.model, a.content, output, a.metrics);
    NotesAre([completed]);
    assert NotesOf([completed]) == [ResponseNote("response.completed")];
  }

  lemma LeadNoted(a: Answer)
    ensures var thinks, talks := !Blank(a.reasoning.text), !Blank(a.content);
            && NotesOf(LeadEvents(a))
               == (if a.includeCreated then [ResponseNote("response.created")] else [])
                  + (if thinks then ItemNotes(REASONING_KINDS, 0, ReasoningId(a.reasoning, a.now)) else [])
                  + (if talks then ItemNotes(MESSAGE_KINDS, if thinks then 1 else 0, MessageId(a.now)) else [])
            && |LeadItems(a.content, a.reasoning, a.now)| == (if thinks then 1 else 0) + (if talks then 1 else 0)
  {
    hide NoteOf, NotesOf, Blank, ReasoningId, MessageId, ReasoningEvents, MessageEvents, CreatedEvent, ItemNotes,
      ReasoningItem, MessageItem;
    NotesConcat(CreatedPart(a) + ReasoningPart(a), MessagePart(a));
    NotesConcat(CreatedPart(a), ReasoningPart(a));
    NothingNoted();
    CreatedNoted(a.responseId, a.now, a.model);
    var created := CreatedEvent(a.responseId, a.now, a.model);
    NotesAre([created]);
    assert NotesOf([created]) == [ResponseNote("response.created")];
    ReasoningNotes(a.reasoning, a.now, 0);
    MessageNotes(a.content, a.now, if !Blank(a.reasoning.text) then 1 else 0);
  }

  lemma NothingNoted()
    ensures NotesOf([]) == []
  {
  }

  lemma CreatedNoted(id: string, now: int, model: string)
    ensures NoteOf(CreatedEvent(id, now, model)) == ResponseNote("response.created")
  {
    hide Trim;
    TrimFixed("response.created");
    assert |"response"| == 8 && |"type"| == 4 && |"output_index"| == 12 && |"item_id"| == 7 && |"item"| == 4;
    assert |"id"| == 2;
  }

  lemma CompletedNoted(id: string, now: int, model: string, content: string, output: seq<Json>, m: Metrics)
    ensures NoteOf(CompletedEvent(id, now, model, content, output, m)) == ResponseNote("response.completed")
  {
    hide Trim, UsagePayload;
    TrimFixed("response.completed");
    assert |"response"| == 8 && |"type"| == 4 && |"output_index"| == 12 && |"item_id"| == 7 && |"item"| == 4;
    assert |"id"| == 2;
  }

  // ---------- one item and one response, before and after ----------

  /** An object's fields, with some of them given other values. */
  predicate Becomes(before: Json, changes: map<string, Json>, after: Json) {
    before.Obj? && after.Obj? && after.fields == before.fields + changes
  }

  lemma EventField(kind: string, rest: map<string, Json>, key: string)
    requires key in rest && key != "type"
    ensures Field(Event(kind, rest), key) == rest[key]
  {
  }

  /** What the six events of one item carry besides its id and place. */
  datatype Carried = Carried(announced: Json, started: Json, delta: Json, text: Json, ended: Json, finished: Json)

  function CarriedBy(es: seq<Json>): Carried
    requires |es| == 6
  {
    Carried(Field(es[0], "item"), Field(es[1], "part"), Field(es[2], "delta"), Field(es[3], "text"),
            Field(es[4], "part"), Field(es[5], "item"))
  }

  function PartOf(kind: string, text: string): Json {
    Obj(map["type" := Str(kind), "text" := Str(text)])
  }

  lemma ReasoningCarried(r: Reasoning, now: int, place: int)
    ensures var id := ReasoningId(r, now);
            CarriedBy(ReasoningEvents(r, now, place))
            == Carried(ReasoningItem(id, ""), PartOf("summary_text", ""), Str(r.text), Str(r.text),
                       PartOf("summary_text", r.text), ReasoningItem(id, r.text))
  {
    hide Event, ReasoningId, ReasoningItem;
    FieldNames();
    var id := ReasoningId(r, now);
    var at := map["item_id" := Str(id), "output_index" := Num(place), "summary_index" := Num(0)];
    EventField("response.output_item.added", map["output_index" := Num(place), "item" := ReasoningItem(id, "")],
               "item");
    EventField("response.reasoning_summary_part.added", at["part" := PartOf("summary_text", "")], "part");
    EventField("response.reasoning_summary_text.delta", at["delta" := Str(r.text)], "delta");
    EventField("response.reasoning_summary_text.done", at["text" := Str(r.text)], "text");
    EventField("response.reasoning_summary_part.done", at["part" := PartOf("summary_text", r.text)], "part");
    EventField("response.output_item.done", map["output_index" := Num(place), "item" := ReasoningItem(id, r.text)],
               "item");
  }

  lemma MessageCarried(content: string, now: int, place: int)
    ensures var id := MessageId(now);
            CarriedBy(MessageEvents(content, now, place))
            == Carried(MessageItem(id, content, "in_progress"), PartOf("output_text", ""), Str(content), Str(content),
                       PartOf("output_text", content), MessageItem(id, content, "completed"))
  {
    hide Event, MessageId, MessageItem;
    FieldNames();
    var id := MessageId(now);
    var at := map["item_id" := Str(id), "output_index" := Num(place), "content_index" := Num(0)];
    EventField("response.output_item.added",
               map["output_index" := Num(place), "item" := MessageItem(id, content, "in_progress")], "item");
    EventField("response.content_part.added", at["part" := PartOf("output_text", "")], "part");
    EventField("response.output_text.delta", at["delta" := Str(content)], "delta");
    EventField("response.output_text.done", at["text" := Str(content)], "text");
    EventField("response.content_part.done", at["part" := PartOf("output_text", content)], "part");
    EventField("response.output_item.done",
               map["output_index" := Num(place), "item" := MessageItem(id, content, "completed")], "item");
  }

  lemma PartFills(kind: string, text: string)
    ensures Field(PartOf(kind, ""), "text") == Str("")
    ensures Becomes(PartOf(kind, ""), map["text" := Str(text)], PartOf(kind, text))
  {
    FieldNames();
  }

  /** A message of the assistant that is not finished. */
  predicate Spoken(item: Json) {
    && Field(item, "type") == Str("message") && Field(item, "role") == Str("assistant")
    && Field(item, "status") == Str("in_progress")
  }

  lemma MessageFinishes(id: string, content: string)
    ensures Becomes(MessageItem(id, content, "in_progress"), map["status" := Str("completed")],
                    MessageItem(id, content, "completed"))
    ensures Spoken(MessageItem(id, content, "in_progress"))
    ensures Field(MessageItem(id, content, "completed"), "content") == Arr([PartOf("output_text", content)])
  {
    assert |"content"| == 7 && |"status"| == 6 && |"id"| == 2 && |"role"| == 4 && |"type"| == 4;
  }

  lemma ReasoningFinishes(id: string, text: string)
    ensures Becomes(ReasoningItem(id, ""), map["summary" := Arr([PartOf("summary_text", text)])],
                    ReasoningItem(id, text))
    ensures Field(ReasoningItem(id, text), "type") == Str("reasoning")
    ensures Field(ReasoningItem(id, text), "summary") == Arr([PartOf("summary_text", text)])
  {
    assert |"summary"| == 7 && |"id"| == 2 && |"type"| == 4;
  }

  /**
   * Each part is opened empty, filled by one delta, and closed as the contents of the finished item.
   * A reasoning item is announced empty; a message is announced in full and only completed later.
   */
  lemma ItemsFillUp(content: string, r: Reasoning, now: int, place: int)
    ensures var c := CarriedBy(MessageEvents(content, now, place));
            && Field(c.started, "text") == Str("") && Becomes(c.started, map["text" := c.delta], c.ended)
            && c.delta == c.text == Str(content) && Field(c.finished, "content") == Arr([c.ended])
            && Spoken(c.announced) && Becomes(c.announced, map["status" := Str("completed")], c.finished)
    ensures var c := CarriedBy(ReasoningEvents(r, now, place));
            && Field(c.started, "text") == Str("") && Becomes(c.started, map["text" := c.delta], c.ended)
            && c.delta == c.text == Str(r.text) && Field(c.finished, "summary") == Arr([c.ended])
            && Field(c.announced, "type") == Str("reasoning") && Field(c.announced, "summary") == Arr([c.started])
            && Becomes(c.announced, map["summary" := Arr([c.ended])], c.finished)
  {
    hide Event, MessageId, ReasoningId, MessageItem, ReasoningItem, PartOf, CarriedBy, MessageEvents, ReasoningEvents,
      Field, Becomes, Spoken;
    MessageCarried(content, now, place);
    ReasoningCarried(r, now, place);
    PartFills("output_text", content);
    PartFills("summary_text", r.text);
    MessageFinishes(MessageId(now), content);
    ReasoningFinishes(ReasoningId(r, now), r.text);
    ReasoningFinishes(ReasoningId(r, now), "");
  }

  /** A response that is under way, with its name, its time and its model. */
  predicate Named(response: Json, id: string, now: int, model: string) {
    && Field(response, "id") == Str(id) && Field(response, "object") == Str("response")
    && Field(response, "created_at") == Num(now) && Field(response, "model") == Str(model)
    && Field(response, "status") == Str("in_progress") && Field(response, "parallel_tool_calls") == Bool(false)
    && Field(response, "output") == Arr([]) && Field(response, "output_text") == Str("")
  }

  lemma CreatedIsNamed(id: string, now: int, model: string)
    ensures Named(Field(CreatedEvent(id, now, model), "response"), id, now, model)
  {
    assert |"id"| == 2 && |"created_at"| == 10 && |"model"| == 5 && |"object"| == 6 && |"status"| == 6;
    assert |"parallel_tool_calls"| == 19 && |"output"| == 6 && |"output_text"| == 11;
    assert "object"[0] != "status"[0] && "object"[1] != "output"[1] && "status"[0] != "output"[0];
    assert |"response"| == 8 && |"type"| == 4;
  }

  /** The response announced is the response completed, but for its status and what it now holds. */
  lemma CreatedIsCompleted(id: string, now: int, model: string, content: string, output: seq<Json>, m: Metrics)
    ensures Becomes(Field(CreatedEvent(id, now, model), "response"),
                    map["status" := Str("completed"), "output_text" := Str(content), "output" := Arr(output),
                        "usage" := UsagePayload(m)],
                    Field(CompletedEvent(id, now, model, content, output, m), "response"))
  {
    hide UsagePayload;
    assert |"id"| == 2 && |"created_at"| == 10 && |"model"| == 5 && |"object"| == 6 && |"status"| == 6;
    assert |"parallel_tool_calls"| == 19 && |"output"| == 6 && |"output_text"| == 11 && |"usage"| == 5;
    assert "object"[0] != "status"[0] && "object"[1] != "output"[1] && "status"[0] != "output"[0];
    assert "model"[0] != "usage"[0] && |"response"| == 8 && |"type"| == 4;
  }
}
