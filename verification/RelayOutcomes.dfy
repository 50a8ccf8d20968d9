/** How a relayed stream is booked: exit, error category, added messages and text, from what was heard. */
module RelayOutcomes {
  import opened Wrappers
  import opened Sequences
  import opened Text
  import opened Json
  import opened SseFraming
  import opened Settling
  import opened ResponsesStream
  import opened Relay
  import opened RelayProperties

  // ---------- what the messages alone say ----------

  /** The category of a stream that broke off with `err`. */
  function BrokenKind(env: Env, heard: seq<string>, err: RelayError): string {
    if CountEvents(heard) > 0 && !CompletedIn(env, heard) && DONE !in heard
    then "codex_backend_stream_interrupted" else err.kind
  }

  function FailureKind(env: Env, m: string): string {
    if IsEvent(env, m, "response.failed") then env.classify(m, "codex_backend_response_failed")
    else if IsEvent(env, m, "response.incomplete") then env.classify(m, "codex_backend_response_incomplete")
    else ""
  }

  /** The category of the last failed or incomplete event. */
  function FailedKind(env: Env, heard: seq<string>): string {
    if heard == [] then "" else
    var last := heard[|heard| - 1];
    if IsEvent(env, last, "response.failed") || IsEvent(env, last, "response.incomplete") then FailureKind(env, last)
    else FailedKind(env, heard[..|heard| - 1])
  }

  /** The text a message settles on: that of a finished item or of the completed response. */
  function SettledText(env: Env, m: string): string {
    if IsEvent(env, m, "response.output_item.done")
    then OutputText(MapValue(Field(env.codec.decode(m).value, "item")))
    else if IsEvent(env, m, "response.completed")
    then OutputText(MapValue(Field(env.codec.decode(m).value, "response")))
    else ""
  }

  function DeltaText(env: Env, m: string): string {
    if IsEvent(env, m, "response.output_text.delta") then StringValue(Field(env.codec.decode(m).value, "delta")) else ""
  }

  /** The text sent to the client: what was settled on last, and the deltas after it. */
  function SentText(env: Env, heard: seq<string>): string {
    Settled(m => SettledText(env, m), m => DeltaText(env, m), heard)
  }

  // ---------- the loop's view agrees ----------

  lemma {:induction false} NotesSnoc(env: Env, v: View, ms: seq<string>, m: string)
    ensures Notes(env, v, ms + [m]) == Note(env, Notes(env, v, ms), m)
    decreases |ms|
  {
    hide Note;
    if ms == [] {
      assert ([] + [m])[1..] == [];
    } else {
      assert (ms + [m])[1..] == ms[1..] + [m];
      NotesSnoc(env, Note(env, v, ms[0]), ms[1..], m);
    }
  }

  lemma NoteContent(env: Env, v: View, m: string)
    ensures Note(env, v, m).content
         == if SettledText(env, m) != "" then SettledText(env, m) else v.content + DeltaText(env, m)
    ensures Note(env, v, m).errorType
         == if IsEvent(env, m, "response.failed") || IsEvent(env, m, "response.incomplete") then FailureKind(env, m)
            else v.errorType
  {
    hide OutputText, UsageMetrics, Trim, Field, MapValue, StringValue;
    assert |"response.output_text.delta"| == 26 && |"response.output_item.done"| == 25;
    assert |"response.completed"| == 18 && |"response.failed"| == 15 && |"response.incomplete"| == 19;
  }

  /** After the messages heard, the loop holds the sent text and the category of the last failure. */
  lemma {:induction false} NotesText(env: Env, heard: seq<string>)
    ensures Notes(env, BLANK_VIEW, heard).content == SentText(env, heard)
    ensures Notes(env, BLANK_VIEW, heard).errorType == FailedKind(env, heard)
  {
    hide Note, IsEvent, SettledText, DeltaText, FailureKind;
    if heard == [] {
      SettledNothing(m => SettledText(env, m), m => DeltaText(env, m));
    } else {
      var init, m := heard[..|heard| - 1], heard[|heard| - 1];
      assert heard == init + [m];
      NotesText(env, init);
      NotesSnoc(env, BLANK_VIEW, init, m);
      NoteContent(env, Notes(env, BLANK_VIEW, init), m);
      SettledSnoc(x => SettledText(env, x), x => DeltaText(env, x), init, m);
    }
  }

  // ---------- the outcome ----------

  /** The run fails with `err` under the category `kind`, and the client is told so unless it has `[DONE]`. */
  predicate FailsWith(env: Env, heard: seq<string>, exit: Exit, errorType: string, added: seq<string>,
                      err: RelayError, kind: string) {
    && exit == Failed(err) && errorType == kind
    && added == if DONE in heard then [] else [FailureData(env, kind, err.message), DONE]
  }

  /** Exit, error category and added messages, by how the run ended and what was heard before. */
  ghost predicate OutcomeFits(env: Env, heard: seq<string>, ending: Option<Signal>, exit: Exit, errorType: string,
                              added: seq<string>) {
    match ending
    case None => exit == Running && added == []
    case Some(OpenFailed(err)) => FailsWith(env, heard, exit, errorType, added, err, err.kind)
    case Some(ContextEnd(err)) =>
      if CompletedIn(env, heard) && !FailedIn(env, heard) then exit == Succeeded && added == []
      else FailsWith(env, heard, exit, errorType, added, err, err.kind)
    case Some(UpstreamEnd(Some(err))) =>
      if (CompletedIn(env, heard) || DONE in heard) && !FailedIn(env, heard) then exit == Succeeded && added == []
      else FailsWith(env, heard, exit, errorType, added, err, BrokenKind(env, heard, err))
    case Some(UpstreamEnd(None)) =>
      if FailedIn(env, heard) then
        && exit == Failed(RelayError("codex_backend_response_failed", "codex backend response failed"))
        && errorType == (if FailedKind(env, heard) == "" then "codex_backend_response_failed"
                         else FailedKind(env, heard))
        && added == if DONE in heard then [] else [DONE]
      else if DONE in heard then exit == Succeeded && added == []
      else if CompletedIn(env, heard) then exit == Succeeded && added == [DONE]
      else
        var eof := RelayError("codex_backend_stream_error", "unexpected EOF");
        FailsWith(env, heard, exit, errorType, added, eof, BrokenKind(env, heard, eof))
    case Some(_) => false
  }

  lemma AddedTwo(handed: seq<Frame>, text: string)
    ensures DataTexts(handed + [Data(text)] + [Data(DONE)]) == DataTexts(handed) + [text, DONE]
    ensures DataTexts(handed + [Data(DONE)]) == DataTexts(handed) + [DONE]
  {
    hide DataTexts;
    DataOfOne(handed, Data(text));
    DataOfOne(handed, Data(DONE));
    DataOfOne(handed + [Data(text)], Data(DONE));
    ConcatAssociates(DataTexts(handed), [text], [DONE]);
    assert [text] + [DONE] == [text, DONE];
  }

  /** What the last step adds to the data handed over. */
  function LastAdded(env: Env, v: View, kind: string, message: string): seq<string> {
    if v.done then [] else [FailureData(env, kind, message), DONE]
  }

  lemma AbortAdds(env: Env, st: State, kind: string, err: RelayError)
    ensures DataTexts(Abort(env, st, kind, err).handed)
         == DataTexts(st.handed) + LastAdded(env, st.view, kind, err.message)
    ensures Abort(env, st, kind, err).view == st.view.(errorType := kind)
  {
    hide DataTexts, FailureData;
    AddedTwo(st.handed, FailureData(env, kind, err.message));
    assert DataTexts(st.handed) + [] == DataTexts(st.handed);
  }

  /**
   * For every run whose client stays: exit, error category and the messages the gateway adds follow
   * from what was heard and how the run ended.
   */
  lemma RelayOutcome(env: Env, fates: seq<Fate>, signals: seq<Signal>) returns (added: seq<string>)
    requires !Relayed(env, fates, signals).1.ClientGone?
    ensures var (end, exit) := Relayed(env, fates, signals);
            && DataTexts(end.handed) == Heard(false, signals) + added
            && OutcomeFits(env, Heard(false, signals), Ending(false, signals), exit, end.view.errorType, added)
            && end.view.content == SentText(env, Heard(false, signals))
  {
    hide Run, Note, FailureData, IsEvent, DataTexts, Heard, FailedIn, CompletedIn, FailedKind, SentText, Abort;
    var heard := Heard(false, signals);
    RunShape(env, fates, RELAY_START, signals);
    var mid: State :| Shape(env, fates, RELAY_START, signals, mid);
    NotesFlags(env, BLANK_VIEW, heard);
    NotesText(env, heard);
    EndingEnds(false, signals);
    StartAdds(heard);
    assert !FailedIn(env, []) && !CompletedIn(env, []) by { NothingIn(env); }
    added := [];
    assert heard + [] == heard;
    match Ending(false, signals)
    case None =>
    case Some(sig) => added := LastStep(env, fates, mid, heard, sig);
  }

  lemma NothingIn(env: Env)
    ensures !FailedIn(env, []) && !CompletedIn(env, [])
  {
  }

  lemma StartAdds(heard: seq<string>)
    ensures DataTexts(RELAY_START.handed) == [] && [] + heard == heard
  {
    assert RELAY_START.handed[1..] == [];
  }

  /** The last step from the state after everything heard. */
  lemma LastStep(env: Env, fates: seq<Fate>, mid: State, heard: seq<string>, sig: Signal) returns (added: seq<string>)
    requires Ends(mid.open, sig) && !Step(env, fates, mid, sig).1.ClientGone?
    requires mid.view == Notes(env, BLANK_VIEW, heard) && DataTexts(mid.handed) == heard
    ensures var (end, exit) := Step(env, fates, mid, sig);
            && DataTexts(end.handed) == heard + added
            && OutcomeFits(env, heard, Some(sig), exit, end.view.errorType, added)
            && end.view.content == SentText(env, heard)
  {
    hide Note, FailureData, IsEvent, DataTexts, FailedIn, CompletedIn, FailedKind, SentText, Abort;
    NotesFlags(env, BLANK_VIEW, heard);
    NotesText(env, heard);
    assert !FailedIn(env, []) && !CompletedIn(env, []) by { NothingIn(env); }
    AddedTwo(mid.handed, "");
    assert heard + [] == heard;
    var v := mid.view;
    added := [];
    match sig
    case OpenFailed(e) =>
      added := LastAdded(env, v, e.kind, e.message);
      AbortAdds(env, mid, e.kind, e);
    case ContextEnd(e) =>
      if !v.completed || v.failed { added := LastAdded(env, v, e.kind, e.message); }
      AbortAdds(env, mid, e.kind, e);
    case UpstreamEnd(Some(e)) =>
      if !(v.completed || v.done) || v.failed { added := LastAdded(env, v, StreamFailureType(v, e), e.message); }
      AbortAdds(env, mid, StreamFailureType(v, e), e);
    case UpstreamEnd(None) =>
      var kind := StreamFailureType(v, UNEXPECTED_EOF);
      if !v.done { added := if v.failed || v.completed then [DONE] else LastAdded(env, v, kind, "unexpected EOF"); }
      AbortAdds(env, mid, kind, UNEXPECTED_EOF);
  }

  // ---------- writes and the connection ----------

  /** The first `n` writes met no error. */
  predicate Unbroken(fates: seq<Fate>, n: int) {
    forall i :: 0 <= i < n && i < |fates| ==> fates[i].Healthy?
  }

  /** The loop goes on exactly while its writes succeed; the two writes of a failure are not looked at. */
  ghost predicate StopsAtBroken(fates: seq<Fate>, before: int, end: State, exit: Exit) {
    var n := |end.handed|;
    if exit.ClientGone? then Unbroken(fates, n - 1) && 0 < n <= |fates| && fates[n - 1].Broken?
    else Unbroken(fates, n) || (exit.Failed? && n >= before + 2 && Unbroken(fates, n - 2))
  }

  lemma {:induction false} RunStopsAtBroken(env: Env, fates: seq<Fate>, st: State, signals: seq<Signal>)
    requires Unbroken(fates, |st.handed|)
    ensures var (end, exit) := Run(env, fates, st, signals);
            |end.handed| >= |st.handed| && StopsAtBroken(fates, |st.handed|, end, exit)
    decreases |signals|
  {
    hide Note, Trim, FailureData, StreamFailureType;
    if signals != [] {
      var (next, exit) := Step(env, fates, st, signals[0]);
      if exit.Running? { RunStopsAtBroken(env, fates, next, signals[1..]); }
    }
  }

  /**
   * The client counts as gone exactly when a write failed, the last one made; otherwise every write
   * succeeded, except that an error exit does not look at its two last writes.
   */
  lemma ClientGoneIff(env: Env, fates: seq<Fate>, signals: seq<Signal>)
    ensures StopsAtBroken(fates, 1, Relayed(env, fates, signals).0, Relayed(env, fates, signals).1)
  {
    hide Run;
    if FateAt(fates, 0).Healthy? { RunStopsAtBroken(env, fates, RELAY_START, signals); }
  }

  /** Of a broken write the client gets the beginning. */
  lemma BrokenWriteArrives(upTo: nat, line: string)
    ensures Arrived(Healthy, line) == line && Arrived(Broken(upTo), line) <= line
    ensures |Arrived(Broken(upTo), line)| == if upTo < |line| then upTo else |line|
  {
  }

  function ErrorIn(event: Json): Json {
    Field(Field(event, "response"), "error")
  }

  /** The failure the gateway writes names the category as `code` and carries the error's message. */
  lemma FailureShown(env: Env, kind: string, message: string)
    requires ValidCodec(env.codec)
    ensures var event := env.codec.decode(FailureData(env, kind, message));
            && event.Some? && Kind(event.value) == "response.failed"
            && Field(Field(event.value, "response"), "status") == Str("failed")
            && ErrorIn(event.value) == Obj(map["message" := Str(message), "type" := Str("gateway_error"),
                                               "code" := Str(kind)])
  {
    hide Trim;
    var response := Obj(map[
      "id" := Str("resp_codex_" + Decimal(env.now)), "object" := Str("response"), "created_at" := Num(env.now),
      "status" := Str("failed"), "output" := Arr([]), "output_text" := Str(""), "parallel_tool_calls" := Bool(false),
      "error" := Obj(map["message" := Str(message), "type" := Str("gateway_error"), "code" := Str(kind)])]);
    TrimFixed("response.failed");
    KindOf("response.failed", map["response" := response]);
    EncodedIsMessage(env.codec, Event("response.failed", map["response" := response]));
    assert |"status"| == 6 && |"output"| == 6 && "status"[0] != "output"[0] && "status"[0] != "object"[0];
  }
}
