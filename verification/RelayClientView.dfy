/** What a client that parses the relayed bytes makes of them. */
module RelayClientView {
  import opened Wrappers
  import opened Sequences
  import opened Text
  import opened Json
  import opened SseFraming
  import opened ResponsesStream
  import opened ResponsesReading
  import opened ResponsesRoundTrip
  import opened Relay
  import opened RelayProperties
  import opened RelayOutcomes

  // ---------- the bytes that arrive ----------

  lemma {:induction false} RenderSnoc(xs: seq<Frame>, f: Frame)
    ensures Render(xs + [f]) == Render(xs) + FrameText(f)
    decreases |xs|
  {
    hide FrameText;
    if xs == [] {
      assert xs + [f] == [f] && [f][1..] == [];
      assert FrameText(f) + "" == FrameText(f) && "" + FrameText(f) == FrameText(f);
    } else {
      assert (xs + [f])[1..] == xs[1..] + [f] && (xs + [f])[0] == xs[0];
      RenderSnoc(xs[1..], f);
      ConcatAssociates(FrameText(xs[0]), Render(xs[1..]), FrameText(f));
    }
  }

  lemma {:induction false} DeliveredSound(fates: seq<Fate>, frames: seq<Frame>)
    requires Sound(fates)
    ensures Delivered(fates, frames) == Render(frames)
    decreases |frames|
  {
    hide FrameText;
    if frames != [] {
      var init, f := frames[..|frames| - 1], frames[|frames| - 1];
      assert frames == init + [f];
      DeliveredSound(fates, init);
      RenderSnoc(init, f);
    }
  }

  predicate OnlyKeepalive(frames: seq<Frame>) {
    forall f :: f in frames && f.Comment? ==> f == KEEPALIVE
  }

  lemma {:induction false} RunKeepalive(env: Env, fates: seq<Fate>, st: State, signals: seq<Signal>)
    requires OnlyKeepalive(st.handed)
    ensures OnlyKeepalive(Run(env, fates, st, signals).0.handed)
    decreases |signals|
  {
    hide Note, Trim, FailureData, StreamFailureType;
    if signals != [] && Step(env, fates, st, signals[0]).1.Running? {
      RunKeepalive(env, fates, Step(env, fates, st, signals[0]).0, signals[1..]);
    }
  }

  predicate Clean(ms: seq<string>) {
    forall m :: m in ms ==> m != "" && Trimmed(m) && '\n' !in m
  }

  lemma SuffixClean(env: Env, suffix: seq<string>)
    requires ValidCodec(env.codec) && GatewaySuffix(env, suffix)
    ensures Clean(suffix)
  {
    hide Trim, Event;
    if suffix != [] && suffix != [DONE] {
      var kind, message :| suffix == [FailureData(env, kind, message), DONE];
      FailureReads(env, kind, message);
      TrimFixed(FailureData(env, kind, message));
      TrimFixed("");
    }
  }

  /** The failure the gateway writes is read by a client as a failed response. */
  lemma FailureReads(env: Env, kind: string, message: string)
    requires ValidCodec(env.codec)
    ensures var data := FailureData(env, kind, message);
            && Trim(data) == data && !Blank(data) && data != DONE && '\n' !in data
            && IsEvent(env, data, "response.failed")
  {
    hide Trim;
    var rest := map["response" := Obj(map[
      "id" := Str("resp_codex_" + Decimal(env.now)), "object" := Str("response"), "created_at" := Num(env.now),
      "status" := Str("failed"), "output" := Arr([]), "output_text" := Str(""), "parallel_tool_calls" := Bool(false),
      "error" := Obj(map["message" := Str(message), "type" := Str("gateway_error"), "code" := Str(kind)])])];
    EncodedIsMessage(env.codec, Event("response.failed", rest));
    KindOf("response.failed", rest);
  }

  lemma {:induction false} HeardNotBlank(open: bool, signals: seq<Signal>)
    ensures forall m :: m in Heard(open, signals) ==> !Blank(m)
    decreases |signals|
  {
    hide Trim;
    if signals != [] && !Ends(open, signals[0]) {
      HeardNotBlank(open || signals[0].Opened?, signals[1..]);
    }
  }

  /**
   * The bytes a sound connection receives read back as what re-reading the heard messages gives,
   * whatever they hold, followed by the gateway's suffix.
   */
  lemma ClientReads(env: Env, fates: seq<Fate>, signals: seq<Signal>) returns (suffix: seq<string>)
    requires ValidCodec(env.codec) && Sound(fates)
    ensures GatewaySuffix(env, suffix)
    ensures DataTexts(Relayed(env, fates, signals).0.handed) == Heard(false, signals) + suffix
    ensures DataMessages(Delivered(fates, Relayed(env, fates, signals).0.handed))
         == Reread(Heard(false, signals)) + suffix
  {
    hide Run, Heard, GatewaySuffix, DataMessages, Render, Delivered, Trim, Reread, FrameMessages;
    var handed := Relayed(env, fates, signals).0.handed;
    var heard := Heard(false, signals);
    SoundRun(env, fates, RELAY_START, signals);
    var k: nat;
    k, suffix := RelayFidelity(env, fates, signals);
    assert heard[..k] == heard && [] + (heard + suffix) == heard + suffix;
    assert OnlyKeepalive(handed) by { RunKeepalive(env, fates, RELAY_START, signals); }
    SuffixClean(env, suffix);
    RereadExactIffOneLine(suffix);
    RereadConcat(heard, suffix);
    DeliveredSound(fates, handed);
    RenderRereads(handed);
  }

  /** Over a sound connection the client reads the re-read messages and then what the outcome adds. */
  lemma ClientSeesOutcome(env: Env, fates: seq<Fate>, signals: seq<Signal>) returns (added: seq<string>)
    requires ValidCodec(env.codec) && Sound(fates)
    ensures var (end, exit) := Relayed(env, fates, signals);
            && OutcomeFits(env, Heard(false, signals), Ending(false, signals), exit, end.view.errorType, added)
            && DataMessages(Delivered(fates, end.handed)) == Reread(Heard(false, signals)) + added
  {
    hide Run, Heard, GatewaySuffix, DataMessages, Delivered, Reread, OutcomeFits, DataTexts;
    var heard := Heard(false, signals);
    SoundRun(env, fates, RELAY_START, signals);
    added := RelayOutcome(env, fates, signals);
    var suffix := ClientReads(env, fates, signals);
    assert (heard + suffix)[|heard|..] == suffix && (heard + added)[|heard|..] == added;
  }

  /** The client reads exactly the data handed to the connection. */
  predicate ForwardedUnchanged(fates: seq<Fate>, handed: seq<Frame>) {
    DataMessages(Delivered(fates, handed)) == DataTexts(handed)
  }

  /** Trimmed messages, as scanners deliver them, reach the client unchanged exactly when none holds a line break. */
  lemma ForwardedUnchangedIff(env: Env, fates: seq<Fate>, signals: seq<Signal>)
    requires ValidCodec(env.codec) && Sound(fates)
    requires forall m :: m in Heard(false, signals) ==> Trimmed(m)
    ensures ForwardedUnchanged(fates, Relayed(env, fates, signals).0.handed)
       <==> forall m :: m in Heard(false, signals) ==> '\n' !in m
  {
    hide Run, Heard, DataMessages, Delivered, Trim, Trimmed, Reread;
    var heard := Heard(false, signals);
    var suffix := ClientReads(env, fates, signals);
    HeardNotBlank(false, signals);
    TrimFixed("");
    RereadExactIffOneLine(heard);
    SameFront(Reread(heard), heard, suffix);
  }

  lemma SameFront(a: seq<string>, b: seq<string>, c: seq<string>)
    ensures a + c == b + c <==> a == b
  {
    if a + c == b + c {
      assert |a| == |b|;
      assert (a + c)[..|a|] == a && (b + c)[..|b|] == b;
    }
  }

  // ---------- parsing what arrived ----------

  lemma StepStops(env: Env, st: ParseState, m: string)
    requires !Blank(m)
    ensures MessageStep(env.codec, st, m).Stopped?
       <==> IsEvent(env, m, "response.failed") || IsEvent(env, m, "response.incomplete")
  {
    hide EventStep, Kind, Trim;
  }

  /** The parser refuses exactly the streams that hold a failed or incomplete event. */
  lemma {:induction false} RefusedIffFailed(env: Env, st: ParseState, ms: seq<string>)
    requires forall m :: m in ms ==> !Blank(m)
    ensures ParseFrom(env.codec, st, ms).Stopped? <==> FailedIn(env, ms)
    decreases |ms|
  {
    hide MessageStep, IsEvent, Trim;
    if ms != [] {
      StepStops(env, st, ms[0]);
      var p := MessageStep(env.codec, st, ms[0]);
      assert forall m :: m in ms <==> m == ms[0] || m in ms[1..];
      if p.Going? {
        RefusedIffFailed(env, p.st, ms[1..]);
      }
    }
  }

  lemma DoneIgnored(c: Codec, st: ParseState)
    ensures ParseFrom(c, st, [DONE]) == Going(st)
  {
    hide EventStep;
    assert [DONE][1..] == [];
  }

  lemma SeenNotBlank(ms: seq<string>)
    requires forall m :: m in ms ==> m != "" && Trimmed(m)
    ensures forall m :: m in ms ==> !Blank(m)
  {
    hide Trim, Trimmed;
    forall m | m in ms ensures !Blank(m) {
      TrimFixed(m);
    }
  }

  lemma FailureSuffixRefused(env: Env, st: ParseState, kind: string, message: string)
    requires ValidCodec(env.codec)
    ensures ParseFrom(env.codec, st, [FailureData(env, kind, message), DONE]).Stopped?
  {
    hide FailureData, EventStep, Kind, Trim;
    FailureReads(env, kind, message);
    StepStops(env, st, FailureData(env, kind, message));
  }

  /** The client's reading of a relayed stream. */
  function ClientView(env: Env, fates: seq<Fate>, signals: seq<Signal>): Parsed {
    ParseMessages(env.codec, DataMessages(Delivered(fates, Relayed(env, fates, signals).0.handed)))
  }

  /** Did the gateway itself tell the client of a failure? */
  predicate FailureAdded(env: Env, signals: seq<Signal>) {
    var heard := Heard(false, signals);
    DONE !in heard && !(Ending(false, signals) == Some(UpstreamEnd(None)) && FailedIn(env, heard))
  }

  /**
   * For every schedule over a sound connection, whatever the messages hold: after a recorded
   * success the client has the answer, or refusal, of the re-read messages; after a recorded failure
   * it has a refusal exactly if a re-read message failed or the gateway added a failure.
   */
  lemma ClientVerdictIff(env: Env, fates: seq<Fate>, signals: seq<Signal>)
    requires ValidCodec(env.codec) && Sound(fates)
    ensures var seen := Reread(Heard(false, signals));
            match Relayed(env, fates, signals).1
            case Succeeded =>
              && ClientView(env, fates, signals) == ParseMessages(env.codec, seen)
              && (ClientView(env, fates, signals).Refused? <==> FailedIn(env, seen))
            case Failed(_) =>
              ClientView(env, fates, signals).Refused? <==> FailedIn(env, seen) || FailureAdded(env, signals)
            case _ => true
  {
    hide Run, Heard, DataMessages, Delivered, Trim, IsEvent, FailureData, ParseFrom, Step, Reread, FailureAdded;
    var seen := Reread(Heard(false, signals));
    var suffix := ClientReads(env, fates, signals);
    RereadClean(Heard(false, signals));
    SoundRun(env, fates, RELAY_START, signals);
    SeenNotBlank(seen);
    RefusedIffFailed(env, PARSE_START, seen);
    ParseConcat(env.codec, PARSE_START, seen, suffix);
    SuffixOfExit(env, fates, signals, suffix);
    var p := ParseFrom(env.codec, PARSE_START, seen);
    if p.Going? {
      DoneIgnored(env.codec, p.st);
      NothingIgnored(env.codec, p.st);
      if suffix != [] && suffix != [DONE] {
        var kind, message :| suffix == [FailureData(env, kind, message), DONE];
        FailureSuffixRefused(env, p.st, kind, message);
      }
    }
  }

  /**
   * Transparency and agreement, for every schedule over a sound connection and one-line messages:
   * a run the gateway counts as a success shows the client exactly the answer in the upstream
   * messages, and a run it counts as a failure shows the client a refusal, except in one case: the
   * context ended after `[DONE]` was forwarded without a completed or failed event, where the
   * gateway records an error but the client has a regular end of stream.
   */
  lemma VerdictAgreesWithClient(env: Env, fates: seq<Fate>, signals: seq<Signal>)
    requires ValidCodec(env.codec) && Sound(fates) && Clean(Heard(false, signals))
    ensures var heard := Heard(false, signals);
            match Relayed(env, fates, signals).1
            case Succeeded =>
              && ClientView(env, fates, signals) == ParseMessages(env.codec, heard)
              && ClientView(env, fates, signals).Answered?
            case Failed(_) => ClientView(env, fates, signals).Refused?
                         <==> !(Ending(false, signals).Some? && Ending(false, signals).value.ContextEnd?
                                && DONE in heard && !CompletedIn(env, heard) && !FailedIn(env, heard))
            case _ => true
  {
    hide Run, Heard, ClientView, Trim, IsEvent, Step, Reread, ParseMessages;
    var heard := Heard(false, signals);
    SoundRun(env, fates, RELAY_START, signals);
    RelayVerdict(env, fates, signals);
    RereadExactIffOneLine(heard);
    ClientVerdictIff(env, fates, signals);
    AnsweredOrRefused(env, fates, signals);
    if Ending(false, signals).Some? && Ending(false, signals).value.OpenFailed? {
      NeverOpened(false, signals);
    }
  }

  lemma AnsweredOrRefused(env: Env, fates: seq<Fate>, signals: seq<Signal>)
    ensures ClientView(env, fates, signals).Answered? || ClientView(env, fates, signals).Refused?
  {
    hide Run, Delivered, DataMessages, ParseFrom;
  }

  /** A response that never opened forwarded nothing. */
  lemma {:induction false} NeverOpened(open: bool, signals: seq<Signal>)
    requires Ending(open, signals).Some? && Ending(open, signals).value.OpenFailed?
    ensures !open && Heard(open, signals) == []
    decreases |signals|
  {
    hide Trim;
    if !Ends(open, signals[0]) {
      NeverOpened(open || signals[0].Opened?, signals[1..]);
    }
  }

  lemma NothingIgnored(c: Codec, st: ParseState)
    ensures ParseFrom(c, st, []) == Going(st)
  {
  }

  /** Which suffix goes with which exit. */
  lemma SuffixOfExit(env: Env, fates: seq<Fate>, signals: seq<Signal>, suffix: seq<string>)
    requires Sound(fates) && GatewaySuffix(env, suffix)
    requires DataTexts(Relayed(env, fates, signals).0.handed) == Heard(false, signals) + suffix
    ensures Relayed(env, fates, signals).1.Succeeded? ==> suffix == [] || suffix == [DONE]
    ensures Relayed(env, fates, signals).1.Failed? ==> (|suffix| == 2 <==> FailureAdded(env, signals))
  {
    hide Run, Heard, IsEvent, FailureData, StreamFailureType, Notes, DataTexts;
    var heard := Heard(false, signals);
    SoundRun(env, fates, RELAY_START, signals);
    RunShape(env, fates, RELAY_START, signals);
    var mid: State :| Shape(env, fates, RELAY_START, signals, mid);
    NotesFlags(env, BLANK_VIEW, heard);
    assert DataTexts(RELAY_START.handed) == [] by { StartData(); }
    assert [] + heard == heard;
    EndingEnds(false, signals);
    DataOfOne(mid.handed, Data(DONE));
    var end := Relayed(env, fates, signals).0;
    if |end.handed| == |mid.handed| + 2 {
      var f := end.handed[|mid.handed|];
      DataOfOne(mid.handed, f);
      DataOfOne(mid.handed + [f], Data(DONE));
    }
  }

  lemma StartData()
    ensures DataTexts(RELAY_START.handed) == []
  {
    assert RELAY_START.handed[1..] == [];
  }

  /** The exceptional case: upstream sends only `[DONE]`, then the context ends. */
  lemma FailureSeenAsRegularEnd(env: Env, fates: seq<Fate>, err: RelayError)
    requires ValidCodec(env.codec) && Sound(fates)
    ensures Relayed(env, fates, [Opened, Message(DONE), ContextEnd(err)]).1.Failed?
    ensures ClientView(env, fates, [Opened, Message(DONE), ContextEnd(err)]).Answered?
  {
    hide Run, ClientView, Trim;
    var signals := [Opened, Message(DONE), ContextEnd(err)];
    TrimFixed(DONE);
    ShortSchedule(DONE, ContextEnd(err));
    assert DONE in [DONE] && !CompletedIn(env, [DONE]) && !FailedIn(env, [DONE]);
    SoundRun(env, fates, RELAY_START, signals);
    RelayVerdict(env, fates, signals);
    VerdictAgreesWithClient(env, fates, signals);
  }

  // ---------- usage accounting ----------

  lemma NoteMetrics(env: Env, v: View, st: ParseState, m: string)
    requires !Blank(m) && v.metrics == st.metrics && MessageStep(env.codec, st, m).Going?
    ensures Note(env, v, m).metrics == MessageStep(env.codec, st, m).st.metrics
  {
    hide Trim, OutputText, UsageMetrics, ToolCallFromValue, ToolCallsFromItems, Kind;
  }

  /** The usage the relay records is the usage a parser finds in the forwarded messages. */
  lemma {:induction false} MetricsAgree(env: Env, v: View, st: ParseState, ms: seq<string>)
    requires v.metrics == st.metrics && ParseFrom(env.codec, st, ms).Going?
    requires forall m :: m in ms ==> !Blank(m)
    ensures Notes(env, v, ms).metrics == ParseFrom(env.codec, st, ms).st.metrics
    decreases |ms|
  {
    hide Note, MessageStep, Trim;
    if ms != [] {
      NoteMetrics(env, v, st, ms[0]);
      MetricsAgree(env, Note(env, v, ms[0]), MessageStep(env.codec, st, ms[0]).st, ms[1..]);
    }
  }

  /** A success records the reported usage, or the estimate for the text sent when upstream reported none. */
  lemma SuccessMetrics(env: Env, fates: seq<Fate>, signals: seq<Signal>)
    requires Relayed(env, fates, signals).1.Succeeded?
    ensures var seen := ParseMessages(env.codec, Heard(false, signals));
            && seen.Answered?
            && FinalMetrics(env, Relayed(env, fates, signals).0.view)
            == if seen.metrics.total > 0 then seen.metrics
                else env.estimate(SentText(env, Heard(false, signals)))
  {
    hide Run, Heard, Trim, IsEvent, FailureData, StreamFailureType, Note, ParseFrom, Notes, SentText;
    var added := RelayOutcome(env, fates, signals);
    var heard := Heard(false, signals);
    RunShape(env, fates, RELAY_START, signals);
    var mid: State :| Shape(env, fates, RELAY_START, signals, mid);
    RelayVerdict(env, fates, signals);
    EndingEnds(false, signals);
    HeardNotBlank(false, signals);
    RefusedIffFailed(env, PARSE_START, heard);
    MetricsAgree(env, BLANK_VIEW, PARSE_START, heard);
  }

  /**
   * Two gateways in a row: relaying a stream another gateway printed, under any heartbeats, ends in
   * success, hands the client the printed answer and records the printed token counts.
   */
  lemma RelayPrintedStream(env: Env, fates: seq<Fate>, signals: seq<Signal>, a: Answer)
    requires ValidCodec(env.codec) && Sound(fates)
    requires Heard(false, signals) == DataMessages(StreamText(env.codec, a))
    requires Ending(false, signals) == Some(UpstreamEnd(None))
    ensures Relayed(env, fates, signals).1 == Succeeded
    ensures ClientView(env, fates, signals)
         == Answered(Trim(a.content), RecoveredReasoning(a.reasoning, a.now), Recovered(a.calls, 0, a.now),
                     RecoveredMetrics(a.metrics))
    ensures RecoveredMetrics(a.metrics).total > 0 ==>
              FinalMetrics(env, Relayed(env, fates, signals).0.view) == RecoveredMetrics(a.metrics)
  {
    hide Run, Heard, Trim, IsEvent, DataMessages, StreamText, StreamEvents, ParseFrom, Delivered, Recovered;
    var heard := Heard(false, signals);
    StreamMessages(env.codec, a);
    PrintedStreamParses(env.codec, a);
    assert heard[|heard| - 1] == DONE;
    SoundRun(env, fates, RELAY_START, signals);
    HeardNotBlank(false, signals);
    RefusedIffFailed(env, PARSE_START, heard);
    RelayVerdict(env, fates, signals);
    VerdictAgreesWithClient(env, fates, signals);
    SuccessMetrics(env, fates, signals);
  }
}
