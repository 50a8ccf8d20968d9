/**
 * The streaming relay: one loop that forwards the upstream event stream to the client while it
 * watches for heartbeats and for the end of the request context.
 */
module Relay {
  import opened Wrappers
  import opened Text
  import opened Json
  import opened SseFraming
  import opened ResponsesStream

  // ---------- the client connection ----------

  /** What becomes of one write: everything arrives, or an error after `Broken.value` characters. */
  datatype Fate = Healthy | Broken(upTo: nat)

  function FateAt(fates: seq<Fate>, i: nat): Fate {
    if i < |fates| then fates[i] else Healthy
  }

  function Arrived(fate: Fate, line: string): string {
    if fate.Broken? && fate.upTo < |line| then line[..fate.upTo] else line
  }

  /** What reached the client when `frames` were handed to the connection, the `from`-th write first. */
  function Delivered(fates: seq<Fate>, frames: seq<Frame>): string
    decreases |frames|
  {
    if frames == [] then ""
    else Delivered(fates, frames[..|frames| - 1])
         + Arrived(FateAt(fates, |frames| - 1), FrameText(frames[|frames| - 1]))
  }

  class Client {
    const fates: seq<Fate>
    var received: string
    ghost var handed: seq<Frame>
    var writes: nat

    ghost predicate Valid() reads this {
      writes == |handed| && received == Delivered(fates, handed)
    }

    constructor (fates: seq<Fate>)
      ensures Valid() && this.fates == fates && handed == []
    {
      this.fates := fates;
      received, handed, writes := "", [], 0;
    }

    method Write(f: Frame) returns (n: nat, ok: bool)
      requires Valid()
      modifies this
      ensures Valid() && handed == old(handed) + [f]
      ensures ok == FateAt(fates, |old(handed)|).Healthy?
      ensures ByteLen(received) == ByteLen(old(received)) + n
    {
      var line := FrameText(f);
      var part := Arrived(FateAt(fates, writes), line);
      ok := FateAt(fates, writes).Healthy?;
      ByteLenConcat(received, part);
      received := received + part;
      n := ByteLen(part);
      handed := handed + [f];
      assert handed[..|handed| - 1] == old(handed);
      writes := writes + 1;
    }
  }

  lemma NothingReceived(client: Client)
    requires client.Valid() && client.handed == []
    ensures client.received == "" && ByteLen(client.received) == 0
  {
  }

  // ---------- what the loop can observe ----------

  /** An error with the category the gateway files it under. */
  datatype RelayError = RelayError(kind: string, message: string)

  datatype Signal =
    | Opened
    | OpenFailed(err: RelayError)
    | Message(data: string)
    | UpstreamEnd(readError: Option<RelayError>)
    | Heartbeat
    | ContextEnd(err: RelayError)

  datatype Exit = Running | Succeeded | ClientGone | Failed(err: RelayError)

  /**
   * The surroundings of one run: the JSON codec, the clock reading used for the response id, the
   * error category a failed event is filed under, and the usage estimate for the text sent.
   */
  datatype Env = Env(codec: Codec, now: int, classify: (string, string) -> string, estimate: string -> Metrics)

  const UNEXPECTED_EOF := RelayError("codex_backend_stream_error", "unexpected EOF")
  const RESPONSE_FAILED := RelayError("codex_backend_response_failed", "codex backend response failed")
  const KEEPALIVE := Comment("keepalive")

  /** What the relay remembers of the stream so far. */
  datatype View = View(done: bool, completed: bool, failed: bool,
                       content: string, metrics: Metrics, events: nat, errorType: string)

  datatype State = State(handed: seq<Frame>, open: bool, view: View)

  const BLANK_VIEW := View(false, false, false, "", NO_METRICS, 0, "")
  const RELAY_START := State([KEEPALIVE], false, BLANK_VIEW)

  // ---------- one turn of the loop ----------

  function Emit(st: State, f: Frame): State {
    st.(handed := st.handed + [f])
  }

  function FailureData(env: Env, kind: string, message: string): string {
    env.codec.encode(Event("response.failed", map["response" := Obj(map[
      "id" := Str("resp_codex_" + Decimal(env.now)), "object" := Str("response"), "created_at" := Num(env.now),
      "status" := Str("failed"), "output" := Arr([]), "output_text" := Str(""), "parallel_tool_calls" := Bool(false),
      "error" := Obj(map["message" := Str(message), "type" := Str("gateway_error"), "code" := Str(kind)])])]))
  }

  /** `writeGatewayResponsesStreamFailure`: a failed event and `[DONE]`, write errors ignored. */
  function EmitFailure(env: Env, st: State, kind: string, message: string): State {
    Emit(Emit(st, Data(FailureData(env, kind, message))), Data(DONE))
  }

  /** `codexBackendStreamFailureType`. */
  function StreamFailureType(v: View, err: RelayError): string {
    if v.events > 0 && !v.completed && !v.done then "codex_backend_stream_interrupted" else err.kind
  }

  /** Leave with an error, telling the client unless it was already told that the stream is done. */
  function Abort(env: Env, st: State, kind: string, err: RelayError): State {
    var told := if st.view.done then st else EmitFailure(env, st, kind, err.message);
    told.(view := st.view.(errorType := kind))
  }

  /** How a forwarded JSON event changes the relay's view of the stream. */
  function Observe(env: Env, v: View, data: string, event: Json): View {
    var kind := Kind(event);
    if kind == "response.output_text.delta" then
      v.(content := v.content + StringValue(Field(event, "delta")))
    else if kind == "response.output_item.done" then
      var text := OutputText(MapValue(Field(event, "item")));
      if text != "" then v.(content := text) else v
    else if kind == "response.completed" then
      var response := MapValue(Field(event, "response"));
      var usage := UsageMetrics(Field(response, "usage"));
      var text := OutputText(response);
      v.(completed := true, metrics := if usage.total > 0 then usage else v.metrics,
         content := if text != "" then text else v.content)
    else if kind == "response.failed" then
      v.(failed := true, errorType := env.classify(data, "codex_backend_response_failed"))
    else if kind == "response.incomplete" then
      v.(failed := true, errorType := env.classify(data, "codex_backend_response_incomplete"))
    else v
  }

  /** The effect of a message once it was written to the client. */
  function Note(env: Env, v: View, data: string): View {
    if data == DONE then v.(done := true)
    else
      var counted := v.(events := v.events + 1);
      if env.codec.decode(data).None? then counted else Observe(env, counted, data, env.codec.decode(data).value)
  }

  function NextOk(fates: seq<Fate>, st: State): bool {
    FateAt(fates, |st.handed|).Healthy?
  }

  /** Upstream closed the stream without a read error. */
  function CleanEnd(env: Env, fates: seq<Fate>, st: State): (State, Exit) {
    var v := st.view;
    if v.failed then
      if !v.done && !NextOk(fates, st) then (Emit(st, Data(DONE)), ClientGone)
      else
        var told := if v.done then st else Emit(st, Data(DONE));
        (told.(view := v.(errorType := if v.errorType == "" then RESPONSE_FAILED.kind else v.errorType)),
         Failed(RESPONSE_FAILED))
    else if v.done then (st, Succeeded)
    else if v.completed then (Emit(st, Data(DONE)), if NextOk(fates, st) then Succeeded else ClientGone)
    else (Abort(env, st, StreamFailureType(v, UNEXPECTED_EOF), UNEXPECTED_EOF), Failed(UNEXPECTED_EOF))
  }

  function Step(env: Env, fates: seq<Fate>, st: State, sig: Signal): (State, Exit) {
    match sig
    case Opened => (st.(open := true), Running)
    case OpenFailed(err) => if st.open then (st, Running) else (Abort(env, st, err.kind, err), Failed(err))
    case Heartbeat => (Emit(st, KEEPALIVE), if NextOk(fates, st) then Running else ClientGone)
    case Message(data) =>
      if !st.open || Blank(data) then (st, Running)
      else if NextOk(fates, st) then (Emit(st, Data(data)).(view := Note(env, st.view, data)), Running)
      else (Emit(st, Data(data)), ClientGone)
    case UpstreamEnd(readError) =>
      if !st.open then (st, Running)
      else if readError.None? then CleanEnd(env, fates, st)
      else if (st.view.completed || st.view.done) && !st.view.failed then (st, Succeeded)
      else (Abort(env, st, StreamFailureType(st.view, readError.value), readError.value), Failed(readError.value))
    case ContextEnd(err) =>
      if st.view.completed && !st.view.failed then (st, Succeeded) else (Abort(env, st, err.kind, err), Failed(err))
  }

  /** The whole run over the signals in the order in which the loop picks them. */
  function Run(env: Env, fates: seq<Fate>, st: State, signals: seq<Signal>): (State, Exit)
    decreases |signals|
  {
    if signals == [] then (st, Running) else
    var next := Step(env, fates, st, signals[0]);
    if next.1.Running? then Run(env, fates, next.0, signals[1..]) else next
  }

  function Relayed(env: Env, fates: seq<Fate>, signals: seq<Signal>): (State, Exit) {
    if FateAt(fates, 0).Healthy? then Run(env, fates, RELAY_START, signals) else (RELAY_START, ClientGone)
  }

  /** `finalizeSuccess`: without reported usage the counts are estimated from the text sent. */
  function FinalMetrics(env: Env, v: View): Metrics {
    if v.metrics.total <= 0 then env.estimate(v.content) else v.metrics
  }

  // ---------- the loop ----------

  datatype Result = Result(metrics: Metrics, responseBytes: nat, events: nat, errorType: string)

  method WriteFailure(client: Client, env: Env, kind: string, message: string) returns (n: nat)
    requires client.Valid()
    modifies client
    ensures client.Valid() && client.handed == old(client.handed) + [Data(FailureData(env, kind, message)), Data(DONE)]
    ensures ByteLen(client.received) == ByteLen(old(client.received)) + n
  {
    var a, _ := client.Write(Data(FailureData(env, kind, message)));
    var b, _ := client.Write(Data(DONE));
    n := a + b;
  }

  /**
   * The relay over one schedule of signals. It refines `Relayed`: same exit, same frames handed to
   * the connection, and every byte that arrived is counted.
   */
  method StreamResponses(client: Client, env: Env, signals: seq<Signal>) returns (result: Result, exit: Exit)
    requires client.Valid() && client.handed == []
    modifies client
    ensures client.Valid()
    ensures client.handed == Relayed(env, client.fates, signals).0.handed
    ensures exit == Relayed(env, client.fates, signals).1
    ensures result.responseBytes == ByteLen(client.received)
    ensures result.events == Relayed(env, client.fates, signals).0.view.events
    ensures result.errorType == Relayed(env, client.fates, signals).0.view.errorType
    ensures result.metrics == if exit.Succeeded? then FinalMetrics(env, Relayed(env, client.fates, signals).0.view)
                              else Relayed(env, client.fates, signals).0.view.metrics
  {
    hide Observe, FailureData, Trim, StreamFailureType, Delivered, ByteLen, FinalMetrics;
    ghost var fates := client.fates;
    NothingReceived(client);
    var bytes, ok := client.Write(KEEPALIVE);
    var view, open := BLANK_VIEW, false;
    if !ok {
      return Result(NO_METRICS, bytes, 0, ""), ClientGone;
    }
    assert client.handed == RELAY_START.handed;
    var n := 0;
    var i := 0;
    assert signals[0..] == signals;
    while i < |signals|
      invariant 0 <= i <= |signals|
      invariant client.Valid() && bytes == ByteLen(client.received)
      invariant Run(env, fates, State(client.handed, open, view), signals[i..]) == Relayed(env, fates, signals)
    {
      var sig := signals[i];
      assert signals[i..][1..] == signals[i + 1..] && signals[i..][0] == sig;
      ghost var after := Step(env, fates, State(client.handed, open, view), sig);
      i := i + 1;
      match sig {
        case Opened =>
          open := true;
        case OpenFailed(err) =>
          if !open {
            if !view.done {
              n := WriteFailure(client, env, err.kind, err.message);
              bytes := bytes + n;
            }
            return Result(view.metrics, bytes, view.events, err.kind), Failed(err);
          }
        case Heartbeat =>
          n, ok := client.Write(KEEPALIVE);
          bytes := bytes + n;
          if !ok {
            return Result(view.metrics, bytes, view.events, view.errorType), ClientGone;
          }
        case Message(data) =>
          if open && Trim(data) != "" {
            n, ok := client.Write(Data(data));
            bytes := bytes + n;
            if !ok {
              return Result(view.metrics, bytes, view.events, view.errorType), ClientGone;
            }
            if data == DONE {
              view := view.(done := true);
            } else {
              view := view.(events := view.events + 1);
              var event := env.codec.decode(data);
              if event.Some? {
                view := Observe(env, view, data, event.value);
              }
            }
          }
        case UpstreamEnd(readError) =>
          if open {
            if readError.Some? {
              if (view.completed || view.done) && !view.failed {
                return Result(FinalMetrics(env, view), bytes, view.events, view.errorType), Succeeded;
              }
              if !view.done {
                n := WriteFailure(client, env, StreamFailureType(view, readError.value), readError.value.message);
                bytes := bytes + n;
              }
              return Result(view.metrics, bytes, view.events, StreamFailureType(view, readError.value)),
                  Failed(readError.value);
            }
            if view.failed {
              if !view.done {
                n, ok := client.Write(Data(DONE));
                bytes := bytes + n;
                if !ok {
                  return Result(view.metrics, bytes, view.events, view.errorType), ClientGone;
                }
              }
              var errorType := if view.errorType == "" then RESPONSE_FAILED.kind else view.errorType;
              return Result(view.metrics, bytes, view.events, errorType), Failed(RESPONSE_FAILED);
            }
            if !view.done {
              if view.completed {
                n, ok := client.Write(Data(DONE));
                bytes := bytes + n;
                if !ok {
                  return Result(view.metrics, bytes, view.events, view.errorType), ClientGone;
                }
              } else {
                n := WriteFailure(client, env, StreamFailureType(view, UNEXPECTED_EOF), UNEXPECTED_EOF.message);
                bytes := bytes + n;
                return Result(view.metrics, bytes, view.events, StreamFailureType(view, UNEXPECTED_EOF)),
                    Failed(UNEXPECTED_EOF);
              }
            }
            return Result(FinalMetrics(env, view), bytes, view.events, view.errorType), Succeeded;
          }
        case ContextEnd(err) =>
          if view.completed && !view.failed {
            return Result(FinalMetrics(env, view), bytes, view.events, view.errorType), Succeeded;
          }
          if !view.done {
            n := WriteFailure(client, env, err.kind, err.message);
            bytes := bytes + n;
          }
          return Result(view.metrics, bytes, view.events, err.kind), Failed(err);
      }
      assert after == (State(client.handed, open, view), Running);
    }
    assert signals[i..] == [];
    return Result(view.metrics, bytes, view.events, view.errorType), Running;
  }
}
