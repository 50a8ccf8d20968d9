/** What the relay guarantees over every interleaving of its signals. */
module RelayProperties {
  import opened Wrappers
  import opened Sequences
  import opened Text
  import opened Json
  import opened SseFraming
  import opened ResponsesStream
  import opened Relay

  // ---------- schedules ----------

  /** Does this signal end the run? Before the response opens, only a failed open or the context can. */
  predicate Ends(open: bool, sig: Signal) {
    sig.ContextEnd? || (sig.OpenFailed? && !open) || (sig.UpstreamEnd? && open)
  }

  /** The messages the loop picks up before the run ends: non-blank, after the response opened. */
  function Heard(open: bool, signals: seq<Signal>): seq<string>
    decreases |signals|
  {
    if signals == [] || Ends(open, signals[0]) then []
    else if signals[0].Message? && open && !Blank(signals[0].data) then [signals[0].data] + Heard(open, signals[1..])
    else Heard(open || signals[0].Opened?, signals[1..])
  }

  function Ending(open: bool, signals: seq<Signal>): Option<Signal>
    decreases |signals|
  {
    if signals == [] then None
    else if Ends(open, signals[0]) then Some(signals[0])
    else Ending(open || signals[0].Opened?, signals[1..])
  }

  lemma {:induction false} DataOfConcat(xs: seq<Frame>, ys: seq<Frame>)
    ensures DataTexts(xs + ys) == DataTexts(xs) + DataTexts(ys)
    decreases |xs|
  {
    if xs == [] {
      assert xs + ys == ys;
    } else {
      assert (xs + ys)[1..] == xs[1..] + ys && (xs + ys)[0] == xs[0];
      DataOfConcat(xs[1..], ys);
      ConcatAssociates(if xs[0].Data? then [xs[0].text] else [], DataTexts(xs[1..]), DataTexts(ys));
    }
  }

  lemma DataOfOne(xs: seq<Frame>, f: Frame)
    ensures DataTexts(xs + [f]) == DataTexts(xs) + if f.Data? then [f.text] else []
  {
    DataOfConcat(xs, [f]);
    assert [f][1..] == [];
  }

  // ---------- messages, seen as a whole ----------

  predicate IsEvent(env: Env, m: string, kind: string) {
    m != DONE && env.codec.decode(m).Some? && Kind(env.codec.decode(m).value) == kind
  }

  predicate CompletedIn(env: Env, ms: seq<string>) {
    exists m :: m in ms && IsEvent(env, m, "response.completed")
  }

  predicate FailedIn(env: Env, ms: seq<string>) {
    exists m :: m in ms && (IsEvent(env, m, "response.failed") || IsEvent(env, m, "response.incomplete"))
  }

  function CountEvents(ms: seq<string>): nat {
    if ms == [] then 0 else (if ms[0] == DONE then 0 else 1) + CountEvents(ms[1..])
  }

  function Notes(env: Env, v: View, ms: seq<string>): View
    decreases |ms|
  {
    if ms == [] then v else Notes(env, Note(env, v, ms[0]), ms[1..])
  }

  lemma ObserveFlags(env: Env, v: View, data: string, event: Json)
    ensures var w := Observe(env, v, data, event);
            && w.done == v.done && w.events == v.events
            && w.completed == (v.completed || Kind(event) == "response.completed")
            && w.failed == (v.failed || Kind(event) == "response.failed" || Kind(event) == "response.incomplete")
  {
    hide Kind, OutputText, UsageMetrics, Trim, Field, MapValue, StringValue;
    assert |"response.output_text.delta"| == 26 && |"response.output_item.done"| == 25;
    assert |"response.completed"| == 18 && |"response.failed"| == 15 && |"response.incomplete"| == 19;
  }

  lemma NoteFlags(env: Env, v: View, m: string)
    ensures var w := Note(env, v, m);
            && w.done == (v.done || m == DONE)
            && w.completed == (v.completed || IsEvent(env, m, "response.completed"))
            && w.failed == (v.failed || IsEvent(env, m, "response.failed") || IsEvent(env, m, "response.incomplete"))
            && w.events == v.events + if m == DONE then 0 else 1
  {
    hide Kind, Observe;
    if m != DONE && env.codec.decode(m).Some? {
      ObserveFlags(env, v.(events := v.events + 1), m, env.codec.decode(m).value);
    }
  }

  /** The loop's three flags and its counter say exactly what the forwarded messages contained. */
  lemma {:induction false} NotesFlags(env: Env, v: View, ms: seq<string>)
    ensures var w := Notes(env, v, ms);
            && w.done == (v.done || DONE in ms)
            && w.completed == (v.completed || CompletedIn(env, ms))
            && w.failed == (v.failed || FailedIn(env, ms))
            && w.events == v.events + CountEvents(ms)
    decreases |ms|
  {
    hide Note, IsEvent;
    if ms != [] {
      NoteFlags(env, v, ms[0]);
      NotesFlags(env, Note(env, v, ms[0]), ms[1..]);
      assert CompletedIn(env, ms) == (IsEvent(env, ms[0], "response.completed") || CompletedIn(env, ms[1..])) by {
        assert forall m :: m in ms <==> m == ms[0] || m in ms[1..];
      }
      assert FailedIn(env, ms) == (IsEvent(env, ms[0], "response.failed") || IsEvent(env, ms[0], "response.incomplete")
                                   || FailedIn(env, ms[1..])) by {
        assert forall m :: m in ms <==> m == ms[0] || m in ms[1..];
      }
    }
  }

  // ---------- the run, seen as a whole ----------

  /** A run whose writes all succeed has forwarded everything it heard and then took its last step. */
  lemma {:induction false} RunShape(env: Env, fates: seq<Fate>, st: State, signals: seq<Signal>)
    requires !Run(env, fates, st, signals).1.ClientGone?
    ensures exists mid: State :: Shape(env, fates, st, signals, mid)
    decreases |signals|
  {
    hide Note, Trim;
    if signals == [] {
      assert DataTexts(st.handed) == DataTexts(st.handed) + [];
      assert Shape(env, fates, st, signals, st);
    } else if Ends(st.open, signals[0]) {
      assert DataTexts(st.handed) == DataTexts(st.handed) + [];
      assert Shape(env, fates, st, signals, st);
    } else {
      var next := Step(env, fates, st, signals[0]).0;
      DataOfOne(st.handed, KEEPALIVE);
      if signals[0].Message? { DataOfOne(st.handed, Data(signals[0].data)); }
      RunShape(env, fates, next, signals[1..]);
      var mid: State :| Shape(env, fates, next, signals[1..], mid);
      ShapeBack(env, fates, st, signals, mid);
    }
  }

  /** `mid` is the state in which the run from `st` takes its last step, if it takes one. */
  ghost predicate Shape(env: Env, fates: seq<Fate>, st: State, signals: seq<Signal>, mid: State) {
    var heard := Heard(st.open, signals);
    && DataTexts(mid.handed) == DataTexts(st.handed) + heard
    && mid.view == Notes(env, st.view, heard)
    && match Ending(st.open, signals)
       case None => Run(env, fates, st, signals) == (mid, Running)
       case Some(sig) => Ends(mid.open, sig) && Run(env, fates, st, signals) == Step(env, fates, mid, sig)
  }

  lemma ShapeBack(env: Env, fates: seq<Fate>, st: State, signals: seq<Signal>, mid: State)
    requires signals != [] && !Ends(st.open, signals[0]) && Step(env, fates, st, signals[0]).1.Running?
    requires Shape(env, fates, Step(env, fates, st, signals[0]).0, signals[1..], mid)
    ensures Shape(env, fates, st, signals, mid)
  {
    hide Note, Trim;
    var next := Step(env, fates, st, signals[0]).0;
    DataOfOne(st.handed, KEEPALIVE);
    if signals[0].Message? && st.open && !Blank(signals[0].data) {
      var d := signals[0].data;
      DataOfOne(st.handed, Data(d));
      ConcatAssociates(DataTexts(st.handed), [d], Heard(st.open, signals[1..]));
      assert ([d] + Heard(st.open, signals[1..]))[1..] == Heard(st.open, signals[1..]);
    }
  }

  // ---------- fidelity ----------

  /** What the gateway may add after the forwarded messages. */
  ghost predicate GatewaySuffix(env: Env, suffix: seq<string>) {
    suffix == [] || suffix == [DONE]
    || exists kind, message :: suffix == [FailureData(env, kind, message), DONE]
  }

  /** The data handed to the connection: some of the heard messages in order, then a gateway suffix. */
  ghost predicate Faithful(env: Env, before: seq<string>, heard: seq<string>, after: seq<string>, k: nat,
                           suffix: seq<string>) {
    && k <= |heard|
    && after == before + (heard[..k] + suffix)
    && GatewaySuffix(env, suffix)
    && (suffix != [] ==> DONE !in before && DONE !in heard[..k])
  }

  lemma AbortSuffix(env: Env, st: State, kind: string, err: RelayError) returns (suffix: seq<string>)
    requires st.view.done == (DONE in DataTexts(st.handed))
    ensures var end := Abort(env, st, kind, err);
            && DataTexts(end.handed) == DataTexts(st.handed) + suffix && GatewaySuffix(env, suffix)
            && (suffix != [] ==> DONE !in DataTexts(st.handed))
            && DONE in DataTexts(end.handed)
  {
    hide FailureData;
    if st.view.done {
      suffix := [];
    } else {
      var text := FailureData(env, kind, err.message);
      suffix := [text, DONE];
      DataOfOne(st.handed, Data(text));
      DataOfOne(st.handed + [Data(text)], Data(DONE));
    }
  }

  lemma CleanEndSuffix(env: Env, fates: seq<Fate>, st: State) returns (suffix: seq<string>)
    requires st.view.done == (DONE in DataTexts(st.handed))
    ensures var (end, exit) := CleanEnd(env, fates, st);
            && DataTexts(end.handed) == DataTexts(st.handed) + suffix && GatewaySuffix(env, suffix)
            && (suffix != [] ==> DONE !in DataTexts(st.handed))
            && !exit.Running? && (exit.Failed? ==> DONE in DataTexts(end.handed))
  {
    hide StreamFailureType, Abort;
    var v := st.view;
    if !v.failed && !v.done && !v.completed {
      suffix := AbortSuffix(env, st, StreamFailureType(v, UNEXPECTED_EOF), UNEXPECTED_EOF);
    } else {
      suffix := if v.done then [] else [DONE];
      DataOfOne(st.handed, Data(DONE));
    }
  }

  /** The last step adds at most a suffix, and only if no `[DONE]` was forwarded. */
  lemma EndingSuffix(env: Env, fates: seq<Fate>, st: State, sig: Signal) returns (suffix: seq<string>)
    requires Ends(st.open, sig) && st.view.done == (DONE in DataTexts(st.handed))
    ensures var (end, exit) := Step(env, fates, st, sig);
            && DataTexts(end.handed) == DataTexts(st.handed) + suffix && GatewaySuffix(env, suffix)
            && (suffix != [] ==> DONE !in DataTexts(st.handed))
            && !exit.Running? && (exit.Failed? ==> DONE in DataTexts(end.handed))
  {
    hide StreamFailureType, Abort, CleanEnd, GatewaySuffix, DataTexts;
    assert GatewaySuffix(env, []) by { NoSuffix(env); }
    suffix := [];
    match sig
    case OpenFailed(err) => suffix := AbortSuffix(env, st, err.kind, err);
    case UpstreamEnd(None) => suffix := CleanEndSuffix(env, fates, st);
    case UpstreamEnd(Some(err)) =>
      if !((st.view.completed || st.view.done) && !st.view.failed) {
        suffix := AbortSuffix(env, st, StreamFailureType(st.view, err), err);
      }
    case ContextEnd(err) =>
      if !(st.view.completed && !st.view.failed) {
        suffix := AbortSuffix(env, st, err.kind, err);
      }
  }

  lemma FaithfulNext(env: Env, before: seq<string>, d: string, rest: seq<string>, after: seq<string>, k: nat,
                     suffix: seq<string>)
    requires Faithful(env, before + [d], rest, after, k, suffix)
    ensures Faithful(env, before, [d] + rest, after, k + 1, suffix)
  {
    hide GatewaySuffix;
    assert ([d] + rest)[..k + 1] == [d] + rest[..k];
    ConcatAssociates(before, [d], rest[..k] + suffix);
    ConcatAssociates([d], rest[..k], suffix);
  }

  lemma {:induction false} FidelityFrom(env: Env, fates: seq<Fate>, st: State, signals: seq<Signal>)
    returns (k: nat, suffix: seq<string>)
    requires st.view.done == (DONE in DataTexts(st.handed))
    ensures var (end, exit) := Run(env, fates, st, signals);
            && Faithful(env, DataTexts(st.handed), Heard(st.open, signals), DataTexts(end.handed), k, suffix)
            && (!exit.ClientGone? ==> k == |Heard(st.open, signals)|)
            && (exit.Failed? ==> DONE in DataTexts(end.handed))
    decreases |signals|
  {
    hide Note, Trim, GatewaySuffix, DataTexts, Abort, CleanEnd, StreamFailureType;
    k, suffix := 0, [];
    assert GatewaySuffix(env, []) by { NoSuffix(env); }
    assert DataTexts(st.handed) + ([] + []) == DataTexts(st.handed);
    if signals == [] {
    } else if Ends(st.open, signals[0]) {
      suffix := EndingSuffix(env, fates, st, signals[0]);
      assert [] + suffix == suffix;
    } else {
      var sig := signals[0];
      var (next, exit) := Step(env, fates, st, sig);
      DataOfOne(st.handed, KEEPALIVE);
      if exit.Running? {
        if sig.Message? && st.open && !Blank(sig.data) {
          DataOfOne(st.handed, Data(sig.data));
          NoteFlags(env, st.view, sig.data);
          k, suffix := FidelityFrom(env, fates, next, signals[1..]);
          FaithfulNext(env, DataTexts(st.handed), sig.data, Heard(st.open, signals[1..]),
                       DataTexts(Run(env, fates, st, signals).0.handed), k, suffix);
          k := k + 1;
        } else {
          k, suffix := FidelityFrom(env, fates, next, signals[1..]);
        }
      } else if sig.Message? {
        DataOfOne(st.handed, Data(sig.data));
        assert Heard(st.open, signals)[..1] == [sig.data] && [sig.data] + [] == [sig.data];
        k := 1;
      }
    }
  }

  lemma NoSuffix(env: Env)
    ensures GatewaySuffix(env, [])
  {
  }

  /**
   * For every schedule and every behaviour of the client connection: the data handed over is a
   * prefix of upstream's non-blank messages in order, then at most one gateway suffix, which is
   * added only if no `[DONE]` was forwarded. Unless the client went away, nothing heard is lost and
   * an error exit has told the client `[DONE]`.
   */
  lemma RelayFidelity(env: Env, fates: seq<Fate>, signals: seq<Signal>) returns (k: nat, suffix: seq<string>)
    ensures var (end, exit) := Relayed(env, fates, signals);
            && Faithful(env, [], Heard(false, signals), DataTexts(end.handed), k, suffix)
            && (!exit.ClientGone? ==> k == |Heard(false, signals)|)
            && (exit.Failed? ==> DONE in DataTexts(end.handed))
  {
    hide Run, GatewaySuffix;
    assert DataTexts(RELAY_START.handed) == [] by { assert RELAY_START.handed[1..] == []; }
    if FateAt(fates, 0).Healthy? {
      k, suffix := FidelityFrom(env, fates, RELAY_START, signals);
    } else {
      k, suffix := 0, [];
      NoSuffix(env);
    }
  }

  // ---------- verdict ----------

  /** The exit the gateway promises for what was heard and how the run ended. */
  ghost predicate VerdictFits(env: Env, heard: seq<string>, ending: Option<Signal>, exit: Exit) {
    match ending
    case None => exit == Running
    case Some(OpenFailed(err)) => exit == Failed(err)
    case Some(UpstreamEnd(_)) =>
      && !exit.Running?
      && (exit.Succeeded? <==> !FailedIn(env, heard) && (CompletedIn(env, heard) || DONE in heard))
    case Some(ContextEnd(_)) =>
      && !exit.Running?
      && (exit.Succeeded? <==> !FailedIn(env, heard) && CompletedIn(env, heard))
    case Some(_) => false
  }

  lemma {:induction false} EndingEnds(open: bool, signals: seq<Signal>)
    ensures match Ending(open, signals)
            case None => true
            case Some(sig) => sig.OpenFailed? || sig.UpstreamEnd? || sig.ContextEnd?
    decreases |signals|
  {
    if signals != [] && !Ends(open, signals[0]) {
      EndingEnds(open || signals[0].Opened?, signals[1..]);
    }
  }

  /** Absent client write failures the exit is decided by the messages heard and the kind of ending. */
  lemma RelayVerdict(env: Env, fates: seq<Fate>, signals: seq<Signal>)
    requires !Relayed(env, fates, signals).1.ClientGone?
    ensures VerdictFits(env, Heard(false, signals), Ending(false, signals), Relayed(env, fates, signals).1)
  {
    hide Run, Note, FailureData, StreamFailureType, IsEvent;
    RunShape(env, fates, RELAY_START, signals);
    var mid: State :| Shape(env, fates, RELAY_START, signals, mid);
    NotesFlags(env, BLANK_VIEW, Heard(false, signals));
    EndingEnds(false, signals);
    assert !FailedIn(env, []) && !CompletedIn(env, []);
  }

  predicate Sound(fates: seq<Fate>) {
    forall i :: 0 <= i < |fates| ==> fates[i].Healthy?
  }

  lemma {:induction false} SoundRun(env: Env, fates: seq<Fate>, st: State, signals: seq<Signal>)
    requires Sound(fates)
    ensures !Run(env, fates, st, signals).1.ClientGone?
    decreases |signals|
  {
    hide Note, Trim, FailureData;
    if signals != [] && Step(env, fates, st, signals[0]).1.Running? {
      SoundRun(env, fates, Step(env, fates, st, signals[0]).0, signals[1..]);
    }
  }

  /** Once a failed or incomplete event was forwarded, no continuation of the run succeeds. */
  lemma {:induction false} FailureIsFinal(env: Env, fates: seq<Fate>, st: State, signals: seq<Signal>)
    requires st.view.failed
    ensures !Run(env, fates, st, signals).1.Succeeded?
    decreases |signals|
  {
    hide Note, Trim, FailureData, IsEvent;
    if signals != [] && Step(env, fates, st, signals[0]).1.Running? {
      if signals[0].Message? { NoteFlags(env, st.view, signals[0].data); }
      FailureIsFinal(env, fates, Step(env, fates, st, signals[0]).0, signals[1..]);
    }
  }

  /**
   * A successful run ends with `[DONE]` at the client exactly when upstream sent it or closed the
   * stream cleanly: the success exits after a read error and at context end write none.
   */
  lemma SuccessEndsWithDone(env: Env, fates: seq<Fate>, signals: seq<Signal>)
    requires Relayed(env, fates, signals).1.Succeeded?
    ensures DONE in DataTexts(Relayed(env, fates, signals).0.handed)
       <==> DONE in Heard(false, signals) || Ending(false, signals) == Some(UpstreamEnd(None))
  {
    hide Run, Note, FailureData, IsEvent, Abort, Heard, FailedIn, CompletedIn;
    RunShape(env, fates, RELAY_START, signals);
    var mid: State :| Shape(env, fates, RELAY_START, signals, mid);
    NotesFlags(env, BLANK_VIEW, Heard(false, signals));
    DataOfOne(mid.handed, Data(DONE));
    EndingEnds(false, signals);
    assert DataTexts(RELAY_START.handed) == [] by { assert RELAY_START.handed[1..] == []; }
    assert [] + Heard(false, signals) == Heard(false, signals);
  }

  /** A completed event as upstream sends it. */
  function CompletedMessage(env: Env): string {
    env.codec.encode(Event("response.completed", map[]))
  }

  /** The two success exits without `[DONE]`: a completed event, then a read error or the end of the context. */
  lemma SuccessWithoutDone(env: Env, fates: seq<Fate>, last: Signal)
    requires ValidCodec(env.codec) && Sound(fates)
    requires last.ContextEnd? || (last.UpstreamEnd? && last.readError.Some?)
    ensures Relayed(env, fates, [Opened, Message(CompletedMessage(env)), last]).1 == Succeeded
    ensures DONE !in DataTexts(Relayed(env, fates, [Opened, Message(CompletedMessage(env)), last]).0.handed)
  {
    hide Run, Kind, Trim;
    var m := CompletedMessage(env);
    var signals := [Opened, Message(m), last];
    TrimFixed("response.completed");
    KindOf("response.completed", map[]);
    EncodedIsMessage(env.codec, Event("response.completed", map[]));
    ShortSchedule(m, last);
    SoundRun(env, fates, RELAY_START, signals);
    RelayVerdict(env, fates, signals);
    assert m in [m] && IsEvent(env, m, "response.completed");
    assert |"response.completed"| == 18 && |"response.failed"| == 15 && |"response.incomplete"| == 19;
    assert !FailedIn(env, [m]);
    SuccessEndsWithDone(env, fates, signals);
  }

  lemma ShortSchedule(m: string, last: Signal)
    requires !Blank(m) && (last.ContextEnd? || last.UpstreamEnd?)
    ensures Heard(false, [Opened, Message(m), last]) == [m] && Ending(false, [Opened, Message(m), last]) == Some(last)
  {
    hide Trim;
    var signals := [Opened, Message(m), last];
    assert signals[1..] == [Message(m), last] && [Message(m), last][1..] == [last];
    assert Heard(true, [last]) == [] && Ending(true, [last]) == Some(last);
    assert Heard(true, [Message(m), last]) == [m] + [];
  }

  // ---------- the counter ----------

  /** The data of the writes that met no error. */
  function WrittenData(fates: seq<Fate>, frames: seq<Frame>): seq<string> {
    if frames == [] then [] else
    var n := |frames| - 1;
    WrittenData(fates, frames[..n]) + if frames[n].Data? && FateAt(fates, n).Healthy? then [frames[n].text] else []
  }

  lemma WrittenMore(fates: seq<Fate>, frames: seq<Frame>, f: Frame)
    ensures WrittenData(fates, frames + [f])
         == if f.Data? && FateAt(fates, |frames|).Healthy? then WrittenData(fates, frames) + [f.text]
             else WrittenData(fates, frames)
  {
    assert (frames + [f])[..|frames|] == frames;
  }

  /** From `st` to `end`, `k` more of the heard messages were written and counted. */
  predicate Counted(fates: seq<Fate>, st: State, heard: seq<string>, end: State, gone: bool, k: nat) {
    && k <= |heard| && (!gone ==> k == |heard|)
    && end.view.events == st.view.events + CountEvents(heard[..k])
    && WrittenData(fates, st.handed) + heard[..k] <= WrittenData(fates, end.handed)
    && (gone ==> WrittenData(fates, end.handed) == WrittenData(fates, st.handed) + heard[..k])
  }

  lemma EndingCounted(env: Env, fates: seq<Fate>, st: State, sig: Signal)
    requires Ends(st.open, sig)
    ensures !Step(env, fates, st, sig).1.Running?
    ensures Counted(fates, st, [], Step(env, fates, st, sig).0, Step(env, fates, st, sig).1.ClientGone?, 0)
  {
    hide FailureData, StreamFailureType, WrittenData;
    assert WrittenData(fates, st.handed) + [] == WrittenData(fates, st.handed);
    WrittenMore(fates, st.handed, Data(DONE));
    var end := Step(env, fates, st, sig).0;
    if |end.handed| == |st.handed| + 2 {
      var f := end.handed[|st.handed|];
      WrittenMore(fates, st.handed, f);
      WrittenMore(fates, st.handed + [f], Data(DONE));
    }
  }

  lemma CountedNext(fates: seq<Fate>, st: State, next: State, d: string, rest: seq<string>, end: State, gone: bool,
                    k: nat)
    requires Counted(fates, next, rest, end, gone, k)
    requires next.view.events == st.view.events + if d == DONE then 0 else 1
    requires WrittenData(fates, next.handed) == WrittenData(fates, st.handed) + [d]
    ensures Counted(fates, st, [d] + rest, end, gone, k + 1)
  {
    hide WrittenData;
    assert ([d] + rest)[..k + 1] == [d] + rest[..k];
    assert ([d] + rest[..k])[1..] == rest[..k];
    ConcatAssociates(WrittenData(fates, st.handed), [d], rest[..k]);
  }

  lemma {:induction false} CountedFrom(env: Env, fates: seq<Fate>, st: State, signals: seq<Signal>) returns (k: nat)
    ensures var (end, exit) := Run(env, fates, st, signals);
            Counted(fates, st, Heard(st.open, signals), end, exit.ClientGone?, k)
    decreases |signals|
  {
    hide Note, Trim, Abort, CleanEnd, StreamFailureType, WrittenData, Counted;
    k := 0;
    if signals == [] {
      NothingCounted(fates, st, [], st, false);
    } else if Ends(st.open, signals[0]) {
      EndingCounted(env, fates, st, signals[0]);
    } else {
      var sig := signals[0];
      var (next, exit) := Step(env, fates, st, sig);
      WrittenMore(fates, st.handed, KEEPALIVE);
      if sig.Message? && st.open && !Blank(sig.data) {
        WrittenMore(fates, st.handed, Data(sig.data));
        if exit.Running? {
          NoteFlags(env, st.view, sig.data);
          k := CountedFrom(env, fates, next, signals[1..]);
          CountedNext(fates, st, next, sig.data, Heard(st.open, signals[1..]), Run(env, fates, st, signals).0,
                      Run(env, fates, st, signals).1.ClientGone?, k);
          k := k + 1;
        } else {
          NothingCounted(fates, st, Heard(st.open, signals), next, true);
        }
      } else if exit.Running? {
        k := CountedFrom(env, fates, next, signals[1..]);
        CountedHere(fates, st, next, Heard(st.open, signals), Run(env, fates, st, signals).0,
                    Run(env, fates, st, signals).1.ClientGone?, k);
      } else {
        NothingCounted(fates, st, Heard(st.open, signals), next, true);
      }
    }
  }

  lemma NothingCounted(fates: seq<Fate>, st: State, heard: seq<string>, end: State, gone: bool)
    requires end.view == st.view
    requires WrittenData(fates, end.handed) == WrittenData(fates, st.handed) && (!gone ==> heard == [])
    ensures Counted(fates, st, heard, end, gone, 0)
  {
    hide WrittenData;
    assert WrittenData(fates, st.handed) + heard[..0] == WrittenData(fates, st.handed);
  }

  lemma CountedHere(fates: seq<Fate>, st: State, next: State, heard: seq<string>, end: State, gone: bool, k: nat)
    requires Counted(fates, next, heard, end, gone, k)
    requires next.view.events == st.view.events && WrittenData(fates, next.handed) == WrittenData(fates, st.handed)
    ensures Counted(fates, st, heard, end, gone, k)
  {
    hide WrittenData;
  }

  /**
   * For every exit `UpstreamStreamEvents` counts exactly the heard messages, other than `[DONE]`,
   * that were written without error: the first `k`, which are all of them unless the client went
   * away, and then nothing else was written.
   */
  lemma EventsCounted(env: Env, fates: seq<Fate>, signals: seq<Signal>) returns (k: nat)
    ensures var (end, exit) := Relayed(env, fates, signals);
            var heard := Heard(false, signals);
            && k <= |heard| && (!exit.ClientGone? ==> k == |heard|)
            && end.view.events == CountEvents(heard[..k])
            && heard[..k] <= WrittenData(fates, end.handed)
            && (exit.ClientGone? ==> WrittenData(fates, end.handed) == heard[..k])
  {
    hide Run, Heard;
    assert WrittenData(fates, RELAY_START.handed) == [] by { assert RELAY_START.handed[..0] == []; }
    if FateAt(fates, 0).Healthy? {
      k := CountedFrom(env, fates, RELAY_START, signals);
      var heard := Heard(false, signals);
      assert [] + heard[..k] == heard[..k];
    } else {
      k := 0;
      assert Heard(false, signals)[..0] == [];
    }
  }
}
