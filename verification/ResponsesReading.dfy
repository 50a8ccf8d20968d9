/** What the Responses parser makes of any list of messages, stated message by message and field by field. */
module ResponsesReading {
  import opened Wrappers
  import opened Text
  import opened Json
  import opened Settling
  import opened ResponsesStream

  // ---------- what one message contributes ----------

  /** The event a message holds; null for `[DONE]`, blank text and text that is not JSON. */
  function EventOf(c: Codec, m: string): Json {
    if m == DONE || Blank(m) || c.decode(m).None? then Null else c.decode(m).value
  }

  predicate IsKind(c: Codec, m: string, kind: string) {
    Kind(EventOf(c, m)) == kind
  }

  function ItemIn(c: Codec, m: string): Json {
    MapValue(Field(EventOf(c, m), "item"))
  }

  function ResponseIn(c: Codec, m: string): Json {
    MapValue(Field(EventOf(c, m), "response"))
  }

  function TextDelta(c: Codec, m: string): string {
    if IsKind(c, m, "response.output_text.delta") then StringValue(Field(EventOf(c, m), "delta")) else ""
  }

  /** The text of a finished item that is no call, or of a completed response. */
  function FinalText(c: Codec, m: string): string {
    if IsKind(c, m, "response.output_item.done") && ToolCallFromValue(c, ItemIn(c, m)).None?
    then OutputText(ItemIn(c, m))
    else if IsKind(c, m, "response.completed") then OutputText(ResponseIn(c, m)) else ""
  }

  function SummaryDelta(c: Codec, m: string): string {
    if IsKind(c, m, "response.reasoning_summary_text.delta") then StringValue(Field(EventOf(c, m), "delta")) else ""
  }

  function SummaryText(c: Codec, m: string): string {
    if IsKind(c, m, "response.reasoning_summary_text.done") then StringValue(Field(EventOf(c, m), "text")) else ""
  }

  function SummaryId(c: Codec, m: string): string {
    if IsKind(c, m, "response.reasoning_summary_text.delta") || IsKind(c, m, "response.reasoning_summary_text.done")
    then StringValue(Field(EventOf(c, m), "item_id")) else ""
  }

  function FinishedCall(c: Codec, m: string): seq<ToolCall> {
    var call := ToolCallFromValue(c, ItemIn(c, m));
    if IsKind(c, m, "response.output_item.done") && call.Some? then [call.value] else []
  }

  function FinalCalls(c: Codec, m: string): seq<ToolCall> {
    if IsKind(c, m, "response.completed") then ToolCallsFromItems(c, Items(Field(ResponseIn(c, m), "output"))) else []
  }

  function ReportedUsage(c: Codec, m: string): seq<Metrics> {
    var usage := UsageMetrics(Field(ResponseIn(c, m), "usage"));
    if IsKind(c, m, "response.completed") && usage.total > 0 then [usage] else []
  }

  predicate Refuses(c: Codec, m: string) {
    IsKind(c, m, "response.failed") || IsKind(c, m, "response.incomplete")
  }

  // ---------- what all messages together come to ----------

  function FirstOf(text: string -> string, ms: seq<string>): string {
    if ms == [] then "" else if text(ms[0]) != "" then text(ms[0]) else FirstOf(text, ms[1..])
  }

  lemma {:induction false} FirstOfSnoc(text: string -> string, ms: seq<string>, m: string)
    ensures FirstOf(text, ms + [m]) == if FirstOf(text, ms) != "" then FirstOf(text, ms) else text(m)
  {
    if ms == [] {
      assert ([] + [m])[1..] == [];
    } else {
      assert (ms + [m])[1..] == ms[1..] + [m];
      FirstOfSnoc(text, ms[1..], m);
    }
  }

  /** The text given last, or what the deltas add up to. */
  function AnswerText(c: Codec, ms: seq<string>): string {
    var last := Settled(m => FinalText(c, m), m => "", ms);
    Trim(if !Blank(last) then last else Concat(m => TextDelta(c, m), ms))
  }

  /** The first id given, and the text given last with the deltas after it. */
  function AnswerReasoning(c: Codec, ms: seq<string>): Reasoning {
    Reasoning(FirstOf(m => SummaryId(c, m), ms), Settled(m => SummaryText(c, m), m => SummaryDelta(c, m), ms))
  }

  /** The calls of the last completed response that has some, or those finished one by one. */
  function AnswerCalls(c: Codec, ms: seq<string>): seq<ToolCall> {
    var last := Settled(m => FinalCalls(c, m), m => [], ms);
    if last != [] then last else Concat(m => FinishedCall(c, m), ms)
  }

  /** The last usage reported with a total. */
  function AnswerMetrics(c: Codec, ms: seq<string>): Metrics {
    var last := Settled(m => ReportedUsage(c, m), m => [], ms);
    if last != [] then last[0] else NO_METRICS
  }

  lemma {:induction false} ParseConcat(c: Codec, st: ParseState, xs: seq<string>, ys: seq<string>)
    ensures ParseFrom(c, st, xs + ys)
         == match ParseFrom(c, st, xs) case Going(next) => ParseFrom(c, next, ys) case Stopped(kind) => Stopped(kind)
    decreases |xs|
  {
    hide MessageStep;
    if xs == [] {
      assert xs + ys == ys;
    } else {
      assert (xs + ys)[1..] == xs[1..] + ys && (xs + ys)[0] == xs[0];
      var p := MessageStep(c, st, xs[0]);
      if p.Going? {
        ParseConcat(c, p.st, xs[1..], ys);
      }
    }
  }

  lemma ParseSnoc(c: Codec, st: ParseState, ms: seq<string>, m: string)
    ensures ParseFrom(c, st, ms + [m])
         == match ParseFrom(c, st, ms) case Going(next) => MessageStep(c, next, m) case Stopped(kind) => Stopped(kind)
  {
    hide MessageStep;
    ParseConcat(c, st, ms, [m]);
    assert [m][1..] == [];
  }

  /** The parser's state in terms of the messages read. */
  ghost predicate Holds(c: Codec, st: ParseState, ms: seq<string>) {
    && st.content == Concat(m => TextDelta(c, m), ms)
    && st.finalText == Settled(m => FinalText(c, m), m => "", ms)
    && st.reasoning == AnswerReasoning(c, ms)
    && st.calls == Concat(m => FinishedCall(c, m), ms)
    && st.finalCalls == Settled(m => FinalCalls(c, m), m => [], ms)
    && st.metrics == AnswerMetrics(c, ms)
  }

  /** One message changes the state by what it contributes, and stops the parser if it refuses. */
  lemma MessageContributes(c: Codec, st: ParseState, m: string)
    ensures match MessageStep(c, st, m)
            case Stopped(kind) => Refuses(c, m) && kind == Kind(EventOf(c, m))
            case Going(next) =>
              && !Refuses(c, m)
              && next.content == st.content + TextDelta(c, m)
              && next.finalText == (if FinalText(c, m) != "" then FinalText(c, m) else st.finalText)
              && next.reasoning.id == (if st.reasoning.id != "" then st.reasoning.id else SummaryId(c, m))
              && next.reasoning.text == (if SummaryText(c, m) != "" then SummaryText(c, m)
                                         else st.reasoning.text + SummaryDelta(c, m))
              && next.calls == st.calls + FinishedCall(c, m)
              && next.finalCalls == (if FinalCalls(c, m) != [] then FinalCalls(c, m) else st.finalCalls)
              && next.metrics == (if ReportedUsage(c, m) != [] then ReportedUsage(c, m)[0] else st.metrics)
  {
    hide Trim, OutputText, ToolCallFromValue, ToolCallsFromItems, UsageMetrics, Field, StringValue, MapValue;
    NullHasNoKind();
    KindsDiffer();
  }

  lemma NullHasNoKind()
    ensures Kind(Null) == ""
  {
  }

  lemma KindsDiffer()
    ensures |"response.output_text.delta"| == 26 && |"response.output_item.done"| == 25 && |"response.completed"| == 18
    ensures |"response.reasoning_summary_text.delta"| == 37 && |"response.reasoning_summary_text.done"| == 36
    ensures |"response.failed"| == 15 && |"response.incomplete"| == 19 && |""| == 0
  {
  }

  lemma {:induction false} ParsedState(c: Codec, ms: seq<string>)
    ensures match ParseFrom(c, PARSE_START, ms)
            case Going(st) => Holds(c, st, ms) && forall m :: m in ms ==> !Refuses(c, m)
            case Stopped(kind) => exists m :: m in ms && Refuses(c, m)
    decreases |ms|
  {
    hide MessageStep, Refuses, Holds;
    if ms == [] {
      NothingHeld(c);
    } else {
      var init, m := ms[..|ms| - 1], ms[|ms| - 1];
      assert ms == init + [m];
      ParsedState(c, init);
      ParseSnoc(c, PARSE_START, init, m);
      assert forall x :: x in ms <==> x in init || x == m;
      match ParseFrom(c, PARSE_START, init)
      case Stopped(_) =>
      case Going(st) =>
        MessageContributes(c, st, m);
        if MessageStep(c, st, m).Going? { HoldsMore(c, st, init, m); }
    }
  }

  lemma NothingHeld(c: Codec)
    ensures Holds(c, PARSE_START, [])
  {
    hide TextDelta, FinalText, SummaryDelta, SummaryText, SummaryId, FinishedCall, FinalCalls, ReportedUsage;
  }

  lemma HoldsMore(c: Codec, st: ParseState, ms: seq<string>, m: string)
    requires Holds(c, st, ms) && MessageStep(c, st, m).Going?
    ensures Holds(c, MessageStep(c, st, m).st, ms + [m])
  {
    hide MessageStep, TextDelta, FinalText, SummaryDelta, SummaryText, SummaryId, FinishedCall, FinalCalls,
      ReportedUsage, Settled, Concat, FirstOf;
    MessageContributes(c, st, m);
    ConcatSnoc(x => TextDelta(c, x), ms, m);
    SettledSnoc(x => FinalText(c, x), x => "", ms, m);
    SettledSnoc(x => SummaryText(c, x), x => SummaryDelta(c, x), ms, m);
    FirstOfSnoc(x => SummaryId(c, x), ms, m);
    ConcatSnoc(x => FinishedCall(c, x), ms, m);
    SettledSnoc(x => FinalCalls(c, x), x => [], ms, m);
    SettledSnoc(x => ReportedUsage(c, x), x => [], ms, m);
  }

  /**
   * The answer in any list of messages: it is refused if and only if some message is a failed or
   * incomplete event; otherwise text, reasoning, calls and token counts are as last given, or as
   * the pieces before add up to.
   */
  lemma ParsedInFull(c: Codec, ms: seq<string>)
    ensures ParseMessages(c, ms).Refused? <==> exists m :: m in ms && Refuses(c, m)
    ensures !ParseMessages(c, ms).Refused? ==>
              ParseMessages(c, ms)
              == Answered(AnswerText(c, ms), AnswerReasoning(c, ms), AnswerCalls(c, ms), AnswerMetrics(c, ms))
  {
    hide ParseFrom, Refuses, AnswerReasoning, AnswerMetrics, Trim, Settled, Concat;
    ParsedState(c, ms);
  }
}
