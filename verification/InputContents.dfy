/**
 * What is sent upstream of a conversation: who says what, which calls with which arguments, and which
 * outputs, in which order, for both endpoints and every request body.
 */
module InputContents {
  import opened Wrappers
  import opened Sequences
  import opened Text
  import opened Json
  import opened Settling
  import opened ContentText
  import opened OrphanFilter
  import opened InputConversion

  // ---------- an item sent upstream, seen by its contents ----------

  /** A rendered message, a call with its item id, or the output of a call. */
  datatype Piece =
    | Said(item: Json)
    | Called(id: string, itemId: string, name: string, arguments: string)
    | Returned(id: string, text: string)

  function RawText(value: Json): string {
    if value.Str? then value.s else ""
  }

  function PieceOf(item: Json): Piece {
    if TypeOf(item) == "function_call" then
      Called(CallId(item), RawText(Field(item, "id")), RawText(Field(item, "name")), RawText(Field(item, "arguments")))
    else if TypeOf(item) == "function_call_output" then Returned(CallId(item), RawText(Field(item, "output")))
    else Said(item)
  }

  function Pieces(items: seq<Json>): seq<Piece> {
    Concat(item => [PieceOf(item)], items)
  }

  // ---------- the conversation as the client sent it ----------

  function FirstText(texts: seq<string>): string {
    if texts == [] then "" else if texts[0] != "" then texts[0] else FirstText(texts[1..])
  }

  function TextUnder(value: Json, key: string): string {
    StringValue(Field(value, key))
  }

  function Spoken(rendered: Rendered): seq<Piece> {
    match rendered
    case Message(item) => [Said(item)]
    case _ => []
  }

  /** The arguments of a call as text: its own, or those of its function. */
  function ArgumentsOf(c: Codec, call: Json): string {
    var own, inner := Field(call, "arguments"), Field(Field(call, "function"), "arguments");
    match if own != Null then own else inner
    case Null => "{}"
    case Str(s) => if Blank(s) then "{}" else s
    case other => if c.encode(other) == "" then "{}" else c.encode(other)
  }

  /** A call that has a name and an id. */
  function CallPiece(c: Codec, call: Json): seq<Piece> {
    var id := FirstText([TextUnder(call, "call_id"), TextUnder(call, "id")]);
    var name := FirstText([TextUnder(call, "name"), TextUnder(Field(call, "function"), "name")]);
    var itemId := if ValidItemId(TextUnder(call, "id")) then TextUnder(call, "id") else "fc_" + SafeItemId(id);
    if id == "" || name == "" then [] else [Called(id, itemId, name, ArgumentsOf(c, call))]
  }

  function ElementText(part: Json): string {
    match part
    case Str(s) => s
    case Obj(_) => FirstText([TextUnder(part, "text"), TextUnder(part, "input_text")])
    case _ => ""
  }

  /** The texts of a content list that are not blank. */
  function ListTexts(parts: seq<Json>): seq<string> {
    Concat(part => if Blank(ElementText(part)) then [] else [ElementText(part)], parts)
  }

  function ResultText(content: Json): string {
    match content
    case Str(s) => s
    case Arr(parts) => Join(ListTexts(parts), "\n")
    case Obj(_) => FirstText([TextUnder(content, "text"), TextUnder(content, "input_text")])
    case _ => ""
  }

  /** An output that names the call it answers. */
  function ReturnPiece(id: string, text: string): seq<Piece> {
    if id == "" then [] else [Returned(id, text)]
  }

  /** What one chat message has upstream say, call and return, in this order. */
  function ChatPieces(c: Codec, r: Renderer, message: Json): seq<Piece> {
    var role := TextUnder(message, "role");
    (if role == "user" || role == "assistant" then Spoken(r(role, Field(message, "content"))) else [])
    + (if role == "assistant" then Concat(call => CallPiece(c, call), Items(Field(message, "tool_calls"))) else [])
    + (if role == "tool"
       then ReturnPiece(FirstText([TextUnder(message, "tool_call_id"), TextUnder(message, "call_id")]),
                        ResultText(Field(message, "content"))) else [])
  }

  predicate ChatBroken(r: Renderer, message: Json) {
    var role := TextUnder(message, "role");
    (role == "user" || role == "assistant") && r(role, Field(message, "content")).Broken?
  }

  /** The call or output that a Responses item is. */
  function HistoryPiece(c: Codec, item: Json): seq<Piece> {
    if TextUnder(item, "type") == "function_call" then CallPiece(c, item)
    else if TextUnder(item, "type") == "function_call_output" then
      ReturnPiece(FirstText([TextUnder(item, "call_id"), TextUnder(item, "tool_call_id")]),
                  FirstText([TextUnder(item, "output"), TextUnder(item, "content")]))
    else []
  }

  function SpeakerOf(item: Json): string {
    FirstText([TextUnder(item, "role"), "user"])
  }

  /** Anything else an object of the list may be: a message of the user, unless it names the assistant. */
  function ResponsePieces(c: Codec, r: Renderer, item: Json): seq<Piece> {
    if !item.Obj? then []
    else if HistoryPiece(c, item) != [] then HistoryPiece(c, item)
    else if SpeakerOf(item) == "user" || SpeakerOf(item) == "assistant"
    then Spoken(r(SpeakerOf(item), Field(item, "content"))) else []
  }

  predicate ResponseBroken(c: Codec, r: Renderer, item: Json) {
    && item.Obj? && HistoryPiece(c, item) == [] && (SpeakerOf(item) == "user" || SpeakerOf(item) == "assistant")
    && r(SpeakerOf(item), Field(item, "content")).Broken?
  }

  // ---------- item by item ----------

  lemma FirstOfTwo(a: string, b: string)
    ensures FirstText([a, b]) == if a != "" then a else b
  {
    assert [a, b][1..] == [b] && [b][1..] == [];
    assert FirstText([b]) == b;
  }

  lemma OnePiece(item: Json)
    ensures Pieces([item]) == [PieceOf(item)] && Pieces([]) == []
  {
    hide PieceOf;
    assert [item][1..] == [] && [PieceOf(item)] + [] == [PieceOf(item)];
    assert Pieces([]) == [];
  }

  lemma {:induction false} ConcatConcat<T, U>(add: T -> seq<U>, xs: seq<T>, ys: seq<T>)
    ensures Concat(add, xs + ys) == Concat(add, xs) + Concat(add, ys)
    decreases |ys|
  {
    if ys == [] {
      assert xs + ys == xs && Concat(add, xs) + [] == Concat(add, xs);
    } else {
      var init, last := ys[..|ys| - 1], ys[|ys| - 1];
      assert ys == init + [last] && xs + ys == (xs + init) + [last];
      ConcatConcat(add, xs, init);
      ConcatSnoc(add, xs + init, last);
      ConcatSnoc(add, init, last);
      ConcatAssociates(Concat(add, xs), Concat(add, init), add(last));
    }
  }

  lemma PiecesConcat(xs: seq<Json>, ys: seq<Json>)
    ensures Pieces(xs + ys) == Pieces(xs) + Pieces(ys)
  {
    ConcatConcat(item => [PieceOf(item)], xs, ys);
  }

  lemma FieldNames()
    ensures |"type"| == 4 && |"id"| == 2 && |"call_id"| == 7 && |"name"| == 4 && |"arguments"| == 9
    ensures |"status"| == 6 && |"output"| == 6 && "type"[0] != "name"[0] && "status"[0] != "output"[0]
    ensures |"function_call"| == 13 && |"function_call_output"| == 20 && |"message"| == 7
  {
  }

  lemma CallItemRead(id: string, itemId: string, name: string, arguments: string)
    requires Trim(id) == id
    ensures PieceOf(Obj(map["type" := Str("function_call"), "id" := Str(itemId), "call_id" := Str(id),
                            "name" := Str(name), "arguments" := Str(arguments), "status" := Str("completed")]))
         == Called(id, itemId, name, arguments)
  {
    hide Trim;
    TrimFixed("function_call");
    FieldNames();
  }

  lemma OutputItemRead(id: string, text: string)
    requires Trim(id) == id
    ensures PieceOf(Obj(map["type" := Str("function_call_output"), "call_id" := Str(id), "output" := Str(text)]))
         == Returned(id, text)
  {
    hide Trim;
    TrimFixed("function_call_output");
    FieldNames();
  }

  lemma CallConverted(c: Codec, call: Json)
    ensures match FunctionCall(c, call)
            case None => CallPiece(c, call) == []
            case Some(item) => CallPiece(c, call) == [PieceOf(item)]
  {
    hide Trim, ValidItemId, SafeItemId, PieceOf, FirstText, StringValue;
    FirstOfTwo(TextUnder(call, "call_id"), TextUnder(call, "id"));
    FirstOfTwo(TextUnder(call, "name"), TextUnder(Field(call, "function"), "name"));
    FirstStringTrimmed(call, "call_id", "id");
    var id := TextUnder(call, "id");
    CallItemRead(CalledId(call), if ValidItemId(id) then id else "fc_" + SafeItemId(CalledId(call)), CallName(call),
                 ArgumentsOf(c, call));
  }

  lemma OutputConverted(id: string, text: string)
    requires Trim(id) == id
    ensures match FunctionOutput(id, text)
            case None => ReturnPiece(id, text) == []
            case Some(item) => ReturnPiece(id, text) == [PieceOf(item)]
  {
    hide Trim, PieceOf;
    OutputItemRead(id, text);
  }

  lemma RenderedConverted(r: Renderer, role: string, content: Json)
    requires PlainRenderer(r)
    ensures RenderedItems(r(role, content)).None? <==> r(role, content).Broken?
    ensures RenderedItems(r(role, content)).Some? ==>
              Pieces(RenderedItems(r(role, content)).value) == Spoken(r(role, content))
  {
    hide TypeOf;
    assert |"message"| == 7 && |"function_call"| == 13 && |"function_call_output"| == 20;
    match r(role, content)
    case Message(m) => OnePiece(m);
    case _ =>
  }

  lemma {:induction false} CallsConverted(c: Codec, calls: seq<Json>)
    ensures Pieces(FunctionCalls(c, calls)) == Concat(call => CallPiece(c, call), calls)
  {
    hide FunctionCall, CallPiece, PieceOf;
    if calls != [] {
      var init, last := calls[..|calls| - 1], calls[|calls| - 1];
      assert calls == init + [last];
      CallsConverted(c, init);
      CallConverted(c, last);
      ConcatSnoc(call => CallPiece(c, call), init, last);
      var more := if FunctionCall(c, last).Some? then [FunctionCall(c, last).value] else [];
      PiecesConcat(FunctionCalls(c, init), more);
      if FunctionCall(c, last).Some? { OnePiece(FunctionCall(c, last).value); }
    }
  }

  lemma {:induction false} ListTextsRead(parts: seq<Json>)
    ensures ListTexts(parts) == PartTexts(parts)
  {
    hide Trim, StringValue;
    if parts != [] {
      ListTextsRead(parts[1..]);
      FirstOfTwo(TextUnder(parts[0], "text"), TextUnder(parts[0], "input_text"));
    }
  }

  lemma ResultTextRead(content: Json)
    ensures ResultText(content) == if ValueText(content) == "" then StringValue(content) else ValueText(content)
  {
    hide Trim, PartTexts, ListTexts;
    TrimFixed("");
    FirstOfTwo(TextUnder(content, "text"), TextUnder(content, "input_text"));
    if content.Arr? { ListTextsRead(content.items); }
  }

  lemma ChatConverted(c: Codec, r: Renderer, message: Json)
    requires PlainRenderer(r)
    ensures ChatItems(c, r, message).None? <==> ChatBroken(r, message)
    ensures ChatItems(c, r, message).Some? ==> Pieces(ChatItems(c, r, message).value) == ChatPieces(c, r, message)
  {
    hide Trim, FunctionOutput, FunctionCalls, PlainRenderer, RenderedItems, ValueText, PieceOf, Pieces, Concat,
      CallPiece, ReturnPiece, FirstText, Spoken, ResultText, StringValue;
    var role, content := RoleOf(message), Field(message, "content");
    assert |"user"| == 4 && |"tool"| == 4 && |"assistant"| == 9 && "user"[0] != "tool"[0];
    assert Pieces([]) == [] by { OnePiece(message); }
    RenderedConverted(r, role, content);
    if role == "assistant" {
      var calls := Items(Field(message, "tool_calls"));
      CallsConverted(c, calls);
      if RenderedItems(r(role, content)).Some? {
        PiecesConcat(RenderedItems(r(role, content)).value, FunctionCalls(c, calls));
      }
    } else if role == "tool" {
      var id := FirstString(message, "tool_call_id", "call_id");
      FirstOfTwo(TextUnder(message, "tool_call_id"), TextUnder(message, "call_id"));
      FirstStringTrimmed(message, "tool_call_id", "call_id");
      ResultTextRead(content);
      OutputConverted(id, ResultText(content));
      if FunctionOutput(id, ResultText(content)).Some? { OnePiece(FunctionOutput(id, ResultText(content)).value); }
    }
  }

  lemma HistoryConverted(c: Codec, item: Json)
    ensures HistoryItem(c, item).None? ==> HistoryPiece(c, item) == []
    ensures HistoryItem(c, item).Some? ==> HistoryPiece(c, item) == [PieceOf(HistoryItem(c, item).value)]
  {
    hide Trim, FunctionOutput, FunctionCall, PieceOf, CallPiece, ReturnPiece, FirstText, StringValue;
    FieldNames();
    CallConverted(c, item);
    FirstOfTwo(TextUnder(item, "call_id"), TextUnder(item, "tool_call_id"));
    FirstOfTwo(TextUnder(item, "output"), TextUnder(item, "content"));
    FirstStringTrimmed(item, "call_id", "tool_call_id");
    OutputConverted(FirstString(item, "call_id", "tool_call_id"), FirstString(item, "output", "content"));
  }

  lemma ResponseConverted(c: Codec, r: Renderer, item: Json)
    requires PlainRenderer(r)
    ensures ResponseItems(c, r, item).None? <==> ResponseBroken(c, r, item)
    ensures ResponseItems(c, r, item).Some? ==>
              Pieces(ResponseItems(c, r, item).value) == ResponsePieces(c, r, item)
  {
    hide Trim, HistoryItem, HistoryPiece, PlainRenderer, RenderedItems, PieceOf, Pieces, FirstText, Spoken, StringValue;
    OnePiece(item);
    HistoryConverted(c, item);
    FirstOfTwo(TextUnder(item, "role"), "user");
    RenderedConverted(r, SpeakerOf(item), Field(item, "content"));
    if HistoryItem(c, item).Some? { OnePiece(HistoryItem(c, item).value); }
  }

  // ---------- whole lists ----------

  /** Conversion fails if one item does, and otherwise shows the pieces of all, in order. */
  lemma {:induction false} ConvertShows(one: Json -> Option<seq<Json>>, pieces: Json -> seq<Piece>, items: seq<Json>)
    requires forall x :: one(x).Some? ==> Pieces(one(x).value) == pieces(x)
    ensures Convert(one, items).None? <==> exists i :: 0 <= i < |items| && one(items[i]).None?
    ensures Convert(one, items).Some? ==> Pieces(Convert(one, items).value) == Concat(pieces, items)
  {
    hide Pieces;
    if items == [] {
      assert Pieces([]) == [] by { OnePiece(Null); }
    } else {
      var init, last := items[..|items| - 1], items[|items| - 1];
      assert items == init + [last];
      ConvertShows(one, pieces, init);
      ConcatSnoc(pieces, init, last);
      if Convert(one, init).Some? && one(last).Some? { PiecesConcat(Convert(one, init).value, one(last).value); }
    }
  }

  /** Every message and item of a request body, as upstream is to see it. */
  function RequestPieces(e: Endpoint, c: Codec, r: Renderer, payload: Json): seq<Piece> {
    match e
    case Chat => Concat(m => ChatPieces(c, r, m), Items(Field(payload, "messages")))
    case Responses =>
      var input := Field(payload, "input");
      if input.Arr? then Concat(item => ResponsePieces(c, r, item), input.items)
      else if input.Str? && Blank(input.s) then [] else Spoken(r("user", input))
  }

  /** Some content of the request cannot be rendered. */
  predicate RequestBroken(e: Endpoint, c: Codec, r: Renderer, payload: Json) {
    match e
    case Chat =>
      var messages := Items(Field(payload, "messages"));
      exists i :: 0 <= i < |messages| && ChatBroken(r, messages[i])
    case Responses =>
      var input := Field(payload, "input");
      if input.Arr? then exists i :: 0 <= i < |input.items| && ResponseBroken(c, r, input.items[i])
      else !(input.Str? && Blank(input.s)) && r("user", input).Broken?
  }

  lemma InputShows(e: Endpoint, c: Codec, r: Renderer, payload: Json)
    requires PlainRenderer(r)
    ensures InputOf(e, c, r, payload).None? <==> RequestBroken(e, c, r, payload)
    ensures InputOf(e, c, r, payload).Some? ==>
              Pieces(InputOf(e, c, r, payload).value) == RequestPieces(e, c, r, payload)
  {
    hide Convert, Trim, PlainRenderer, ChatItems, ResponseItems, ChatPieces, ResponsePieces, ChatBroken, ResponseBroken,
      RenderedItems, Spoken, Pieces, Concat;
    var input := Field(payload, "input");
    match e
    case Chat =>
      forall m ensures ChatItems(c, r, m).None? <==> ChatBroken(r, m)
        ensures ChatItems(c, r, m).Some? ==> Pieces(ChatItems(c, r, m).value) == ChatPieces(c, r, m) {
        ChatConverted(c, r, m);
      }
      ConvertShows(ChatConverter(c, r), m => ChatPieces(c, r, m), Items(Field(payload, "messages")));
    case Responses =>
      if input.Arr? {
        forall m ensures ResponseItems(c, r, m).None? <==> ResponseBroken(c, r, m)
          ensures ResponseItems(c, r, m).Some? ==> Pieces(ResponseItems(c, r, m).value) == ResponsePieces(c, r, m) {
          ResponseConverted(c, r, m);
        }
        ConvertShows(ResponseConverter(c, r), m => ResponsePieces(c, r, m), input.items);
      } else {
        OnePiece(input);
        RenderedConverted(r, "user", input);
      }
  }

  // ---------- the filter ----------

  function CalledIds(pieces: seq<Piece>): set<string> {
    set p | p in pieces && p.Called? && p.id != "" :: p.id
  }

  /** Every piece but the outputs without an earlier call of their id. */
  function Answering(pieces: seq<Piece>): seq<Piece> {
    if pieces == [] then [] else
    var init, last := pieces[..|pieces| - 1], pieces[|pieces| - 1];
    Answering(init) + if last.Returned? && last.id !in CalledIds(init) then [] else [last]
  }

  lemma CalledIdsSnoc(pieces: seq<Piece>, last: Piece)
    ensures CalledIds(pieces + [last])
         == CalledIds(pieces) + if last.Called? && last.id != "" then {last.id} else {}
  {
    assert forall p :: p in pieces + [last] <==> p in pieces || p == last;
  }

  lemma {:induction false} CallIdsShown(items: seq<Json>)
    ensures CalledIds(Pieces(items)) == CallIds(items)
  {
    hide TypeOf, CallId, CallIds, CalledIds, Pieces;
    if items == [] {
      assert Pieces([]) == [] && CallIds([]) == {} && CalledIds([]) == {} by { NothingCalled(); }
    } else {
      var init, last := items[..|items| - 1], items[|items| - 1];
      assert items == init + [last];
      CallIdsShown(init);
      CallIdsSnoc(init, last);
      PiecesConcat(init, [last]);
      OnePiece(last);
      CalledIdsSnoc(Pieces(init), PieceOf(last));
      assert |"function_call"| != |"function_call_output"|;
    }
  }

  lemma NothingCalled()
    ensures Pieces([]) == [] && CallIds([]) == {} && CalledIds([]) == {}
  {
  }

  lemma {:induction false} FilterShows(items: seq<Json>)
    ensures Pieces(Filter(items)) == Answering(Pieces(items))
    ensures Filter(items) == [] <==> Answering(Pieces(items)) == []
  {
    hide TypeOf, CallId, CallIds, CalledIds, Pieces;
    if items == [] {
      NothingCalled();
    } else {
      var init, last := items[..|items| - 1], items[|items| - 1];
      assert items == init + [last];
      FilterShows(init);
      CallIdsShown(init);
      PiecesConcat(init, [last]);
      OnePiece(last);
      assert |"function_call"| != |"function_call_output"|;
      var more := if Keeps(init, last) then [last] else [];
      PiecesConcat(Filter(init), more);
      var all := Pieces(init) + [PieceOf(last)];
      assert all[..|all| - 1] == Pieces(init) && all[|all| - 1] == PieceOf(last);
    }
  }

  /**
   * For every body of either endpoint: the request is rejected if some content cannot be rendered or
   * nothing is left, and otherwise upstream gets, in the client's order, what each message says, its
   * calls with their names and arguments, and every output whose call came before.
   */
  lemma UpstreamCarries(e: Endpoint, c: Codec, r: Renderer, payload: Json)
    requires PlainRenderer(r)
    ensures UpstreamInput(e, c, r, payload).None?
       <==> RequestBroken(e, c, r, payload) || Answering(RequestPieces(e, c, r, payload)) == []
    ensures UpstreamInput(e, c, r, payload).Some? ==>
              Pieces(UpstreamInput(e, c, r, payload).value) == Answering(RequestPieces(e, c, r, payload))
  {
    hide InputOf, Filter, Pieces, PlainRenderer, Answering, RequestPieces, RequestBroken;
    InputShows(e, c, r, payload);
    if InputOf(e, c, r, payload).Some? { FilterShows(InputOf(e, c, r, payload).value); }
  }

  // ---------- item ids ----------

  /** ASCII small and capital letters, digits, underscore and hyphen, by their codes. */
  predicate IdCode(n: int) {
    97 <= n <= 122 || 65 <= n <= 90 || 48 <= n <= 57 || n == 95 || n == 45
  }

  /** Item ids begin with "fc" and are made of those characters. */
  lemma ItemIdsAre(id: string)
    ensures ValidItemId(id)
       <==> |id| >= 2 && id[0] == 'f' && id[1] == 'c' && forall i :: 0 <= i < |id| ==> IdCode(id[i] as int)
  {
    assert forall i :: 0 <= i < |id| ==> ItemIdChar(id[i]) == IdCode(id[i] as int);
    assert HasPrefix(id, "fc") <==> |id| >= 2 && id[0] == 'f' && id[1] == 'c';
  }

  predicate Mark(ch: char) {
    ch == '_' || ch == '-'
  }

  /** A character an id may have in its middle and at its ends. */
  predicate Wordly(ch: char) {
    ItemIdChar(ch) && !Mark(ch)
  }

  lemma {:induction false} MaskedChars(s: string)
    ensures |MaskBytes(s)| == ByteLen(s) && forall i :: 0 <= i < |MaskBytes(s)| ==> ItemIdChar(MaskBytes(s)[i])
    ensures (forall i :: 0 <= i < |s| ==> ItemIdChar(s[i])) ==> MaskBytes(s) == s
    ensures (forall i :: 0 <= i < |s| ==> !Wordly(s[i])) ==>
              forall i :: 0 <= i < |MaskBytes(s)| ==> Mark(MaskBytes(s)[i])
  {
    if s != "" {
      MaskedChars(s[1..]);
      if forall i :: 0 <= i < |s| ==> ItemIdChar(s[i]) { assert s == [s[0]] + s[1..]; }
    }
  }

  /** Marks are cut off at both ends, and nothing else is. */
  lemma {:induction false} MarksTrimmed(s: string) returns (i: nat, j: nat)
    ensures i <= j <= |s| && TrimMarks(s) == s[i..j]
    ensures forall k :: 0 <= k < i || j <= k < |s| ==> Mark(s[k])
    ensures i < j ==> !Mark(s[i]) && !Mark(s[j - 1])
    decreases |s|
  {
    if s != "" && Mark(s[0]) {
      i, j := MarksTrimmed(s[1..]);
      i, j := i + 1, j + 1;
      assert forall k :: 1 <= k < |s| ==> s[k] == s[1..][k - 1];
    } else if s != "" && Mark(s[|s| - 1]) {
      i, j := MarksTrimmed(s[..|s| - 1]);
    } else {
      i, j := 0, |s|;
    }
  }

  /** A text of allowed characters without white space or marks at its ends. */
  predicate Presentable(value: string) {
    && value != "" && Trimmed(value) && (forall i :: 0 <= i < |value| ==> ItemIdChar(value[i]))
    && !Mark(value[0]) && !Mark(value[|value| - 1])
  }

  /** The ids the gateway makes up are valid; a presentable value is kept, and one without a letter or digit dropped. */
  lemma MadeUpIdValid(value: string)
    ensures ValidItemId("fc_" + SafeItemId(value)) && SafeItemId(value) != ""
    ensures Presentable(value) ==> SafeItemId(value) == value
    ensures (forall i :: 0 <= i < |Trim(value)| ==> !Wordly(Trim(value)[i])) ==> SafeItemId(value) == "call"
  {
    hide Trim, MaskBytes, TrimMarks;
    var t := Trim(value);
    TrimFixed(value);
    MaskedChars(t);
    var i, j := MarksTrimmed(MaskBytes(t));
    assert forall k :: i <= k < j ==> MaskBytes(t)[i..j][k - i] == MaskBytes(t)[k];
  }

  /** Every call sent upstream has a valid item id: the client's own if that is one. */
  lemma CallPieceIdValid(c: Codec, call: Json)
    ensures forall p :: p in CallPiece(c, call) ==> p.Called? && ValidItemId(p.itemId)
  {
    hide SafeItemId, ValidItemId, Trim;
    MadeUpIdValid(FirstText([TextUnder(call, "call_id"), TextUnder(call, "id")]));
  }
}
