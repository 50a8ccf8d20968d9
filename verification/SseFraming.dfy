/**
 * The event-stream framing the gateway writes and reads: a dialect of sections 9.2.5 and 9.2.6 of
 * the WHATWG HTML standard in which every data line is trimmed, `event` and `id` lines are ignored
 * and an unfinished event is delivered at the end of the input.
 */
module SseFraming {
  import opened Sequences
  import opened Text

  // ---------- reading ----------

  /** Index of the first line break of `text`, or its length. */
  function BreakAt(text: string): (i: nat)
    ensures i <= |text| && '\n' !in text[..i]
    ensures i < |text| ==> text[i] == '\n'
  {
    if text == "" || text[0] == '\n' then 0 else
    var i := 1 + BreakAt(text[1..]);
    assert text[..i] == [text[0]] + text[1..][..i - 1];
    i
  }

  /** `bufio.ScanLines` drops one carriage return before the line break. */
  function DropCR(line: string): string {
    if line != "" && line[|line| - 1] == '\r' then line[..|line| - 1] else line
  }

  /** The lines `bufio.Scanner` yields; a last line without line break counts unless it is empty. */
  function Lines(text: string): seq<string>
    decreases |text|
  {
    if text == "" then [] else
    var i := BreakAt(text);
    [DropCR(text[..i])] + if i < |text| then Lines(text[i + 1..]) else []
  }

  datatype ScanState = ScanState(current: string, messages: seq<string>)

  const SCAN_START := ScanState("", [])

  function ScanLine(st: ScanState, line: string): ScanState {
    if line == "" then
      if st.current != "" then ScanState("", st.messages + [Trim(st.current)]) else st
    else if HasPrefix(line, "data:") then
      st.(current := (if st.current != "" then st.current + "\n" else "") + Trim(line[5..]))
    else
      st
  }

  function ScanAll(st: ScanState, lines: seq<string>): ScanState
    decreases |lines|
  {
    if lines == [] then st else ScanAll(ScanLine(st, lines[0]), lines[1..])
  }

  function Flush(st: ScanState): seq<string> {
    if st.current != "" then st.messages + [Trim(st.current)] else st.messages
  }

  /** The data messages of an event stream, in order. */
  function DataMessages(text: string): seq<string> {
    Flush(ScanAll(SCAN_START, Lines(text)))
  }

  /** The gateway's scanner loop. */
  method SseDataMessages(body: string) returns (messages: seq<string>)
    ensures messages == DataMessages(body)
  {
    messages := [];
    var current := "";
    var pos := 0;
    assert body[0..] == body;
    while pos < |body|
      invariant 0 <= pos <= |body|
      invariant ScanAll(ScanState(current, messages), Lines(body[pos..])) == ScanAll(SCAN_START, Lines(body))
      decreases |body| - pos
    {
      var rest := body[pos..];
      var i := BreakAt(rest);
      var line := DropCR(rest[..i]);
      assert i < |rest| ==> rest[i + 1..] == body[pos + i + 1..];
      pos := if i < |rest| then pos + i + 1 else |body|;
      assert body[|body|..] == "";
      if line == "" {
        if |current| > 0 {
          messages := messages + [Trim(current)];
          current := "";
        }
        continue;
      }
      if HasPrefix(line, "data:") {
        if |current| > 0 {
          current := current + "\n";
        }
        current := current + Trim(line[5..]);
      }
    }
    assert body[pos..] == "";
    if |current| > 0 {
      messages := messages + [Trim(current)];
    }
  }

  // ---------- writing ----------

  datatype Frame = Data(text: string) | Comment(text: string)

  /** The bytes one write of the gateway produces. */
  function FrameText(f: Frame): string {
    match f
    case Data(t) => "data: " + t + "\n\n"
    case Comment(t) => ": " + Trim(t) + "\n\n"
  }

  function Render(frames: seq<Frame>): string {
    if frames == [] then "" else FrameText(frames[0]) + Render(frames[1..])
  }

  predicate OneLine(f: Frame) {
    '\n' !in f.text
  }

  function Payload(f: Frame): seq<string> {
    if f.Data? && !Blank(f.text) then [Trim(f.text)] else []
  }

  /** What a reader of the frames is meant to receive: the trimmed, non-blank data. */
  function Payloads(frames: seq<Frame>): seq<string> {
    if frames == [] then [] else Payload(frames[0]) + Payloads(frames[1..])
  }

  function AsData(messages: seq<string>): seq<Frame> {
    if messages == [] then [] else [Data(messages[0])] + AsData(messages[1..])
  }

  // ---------- the scanner is compositional at line breaks ----------

  /** The first line break is where the text before it ends. */
  lemma {:induction false} BreakAtHead(head: string, tail: string)
    requires '\n' !in head
    ensures BreakAt(head + "\n" + tail) == |head|
  {
    var t := head + "\n" + tail;
    if head == "" {
      assert t[0] == '\n';
    } else {
      assert t[0] == head[0];
      assert t[1..] == head[1..] + "\n" + tail;
      BreakAtHead(head[1..], tail);
    }
  }

  /** A text without line break is at most one line; otherwise the first line splits off. */
  lemma FirstLine(head: string, tail: string)
    requires '\n' !in head
    ensures Lines(head + "\n" + tail) == [DropCR(head)] + Lines(tail)
  {
    var t := head + "\n" + tail;
    BreakAtHead(head, tail);
    assert t[..|head|] == head && t[|head| + 1..] == tail;
  }

  lemma SplitFirst(a: string) returns (head: string, tail: string)
    requires a != "" && a[|a| - 1] == '\n'
    ensures a == head + "\n" + tail && '\n' !in head
    ensures tail != "" ==> tail[|tail| - 1] == '\n'
  {
    var i := BreakAt(a);
    assert a[..|a|] == a;
    head, tail := a[..i], a[i + 1..];
  }

  lemma Reassociate(head: string, tail: string, b: string)
    ensures (head + "\n" + tail) + b == head + "\n" + (tail + b)
  {
  }

  /** Scanning lines is compositional at a line break. */
  lemma {:induction false} LinesConcat(a: string, b: string)
    requires a != "" ==> a[|a| - 1] == '\n'
    ensures Lines(a + b) == Lines(a) + Lines(b)
    decreases |a|
  {
    if a == "" {
      assert a + b == b;
    } else {
      var head, tail := SplitFirst(a);
      calc {
        Lines(a + b);
        { Reassociate(head, tail, b); }
        Lines(head + "\n" + (tail + b));
        { FirstLine(head, tail + b); }
        [DropCR(head)] + Lines(tail + b);
        { LinesConcat(tail, b); }
        [DropCR(head)] + (Lines(tail) + Lines(b));
        ([DropCR(head)] + Lines(tail)) + Lines(b);
        { FirstLine(head, tail); }
        Lines(a) + Lines(b);
      }
    }
  }

  lemma {:induction false} ScanConcat(st: ScanState, xs: seq<string>, ys: seq<string>)
    ensures ScanAll(st, xs + ys) == ScanAll(ScanAll(st, xs), ys)
    decreases |xs|
  {
    if xs == [] {
      assert xs + ys == ys;
    } else {
      assert (xs + ys)[1..] == xs[1..] + ys;
      ScanConcat(ScanLine(st, xs[0]), xs[1..], ys);
    }
  }

  lemma FrameEndsLine(f: Frame)
    ensures FrameText(f) != "" && FrameText(f)[|FrameText(f)| - 1] == '\n'
  {
  }

  /** A one-line write reads as that line and the blank line that ends the event. */
  lemma FrameLines(t: string)
    requires '\n' !in t
    ensures Lines(t + "\n\n") == [DropCR(t), ""]
  {
    assert t + "\n\n" == t + "\n" + "\n";
    FirstLine(t, "\n");
    assert "" + "\n" + "" == "\n";
    FirstLine("", "");
  }

  lemma ScanTwo(st: ScanState, x: string, y: string)
    ensures ScanAll(st, [x, y]) == ScanLine(ScanLine(st, x), y)
  {
    assert [x, y][1..] == [y] && [y][1..] == [];
    assert ScanAll(ScanLine(st, x), [y]) == ScanLine(ScanLine(st, x), y);
  }

  lemma CommentLine(t: string)
    ensures var line := DropCR(": " + t); line != "" && !HasPrefix(line, "data:")
  {
    var line := DropCR(": " + t);
    assert line[0] == ':';
  }

  /** The scanner reads the trimmed payload off a data line. */
  lemma DataLineContent(m: string)
    ensures var line := DropCR("data: " + m); HasPrefix(line, "data:") && line != "" && Trim(line[5..]) == Trim(m)
  {
    var t := "data: " + m;
    if m != "" && m[|m| - 1] == '\r' {
      var body := m[..|m| - 1];
      assert t[|t| - 1] == '\r';
      assert DropCR(t) == "data:" + (" " + body);
      assert ("data:" + (" " + body))[5..] == " " + body;
      DataLinePadding(m, body);
    } else {
      assert t[|t| - 1] == if m == "" then ' ' else m[|m| - 1];
      assert DropCR(t) == "data:" + (" " + m);
      assert ("data:" + (" " + m))[5..] == " " + m + "";
      TrimPadded(" ", m, "");
    }
  }

  lemma DataLinePadding(m: string, body: string)
    requires m == body + "\r"
    ensures Trim(" " + body) == Trim(m)
  {
    TrimPadded("", body, "\r");
    assert "" + body + "\r" == m;
    TrimPadded(" ", body, "");
    assert " " + body + "" == " " + body;
  }

  lemma DataFrameScan(m: string, messages: seq<string>)
    requires '\n' !in m
    ensures ScanAll(ScanState("", messages), Lines(FrameText(Data(m)))) == ScanState("", messages + Payload(Data(m)))
  {
    var st := ScanState("", messages);
    var line := DropCR("data: " + m);
    FrameLines("data: " + m);
    DataLineContent(m);
    ScanTwo(st, line, "");
    calc {
      ScanLine(ScanLine(st, line), "");
      ScanLine(ScanState(Trim(m), messages), "");
      { TrimFixed(m); }
      ScanState("", messages + Payload(Data(m)));
    }
  }

  lemma CommentFrameScan(t: string, messages: seq<string>)
    requires '\n' !in t
    ensures ScanAll(ScanState("", messages), Lines(FrameText(Comment(t)))) == ScanState("", messages)
  {
    TrimKeepsOnly(t, '\n');
    FrameLines(": " + Trim(t));
    CommentLine(Trim(t));
    ScanTwo(ScanState("", messages), DropCR(": " + Trim(t)), "");
  }

  /** A one-line frame adds its payload and leaves the scanner between two events. */
  lemma FrameThen(f: Frame, tail: string, messages: seq<string>)
    requires OneLine(f)
    ensures ScanAll(ScanState("", messages), Lines(FrameText(f) + tail))
         == ScanAll(ScanState("", messages + Payload(f)), Lines(tail))
  {
    FrameEndsLine(f);
    LinesConcat(FrameText(f), tail);
    ScanConcat(ScanState("", messages), Lines(FrameText(f)), Lines(tail));
    match f
    case Data(m) => DataFrameScan(m, messages);
    case Comment(t) => CommentFrameScan(t, messages); assert messages + [] == messages;
  }

  // ---------- round trip ----------

  lemma {:induction false} RenderScans(frames: seq<Frame>, messages: seq<string>)
    requires forall f :: f in frames ==> OneLine(f)
    ensures ScanAll(ScanState("", messages), Lines(Render(frames))) == ScanState("", messages + Payloads(frames))
    decreases |frames|
  {
    if frames == [] {
      assert messages + [] == messages;
    } else {
      var f, rest := frames[0], frames[1..];
      var next := messages + Payload(f);
      calc {
        ScanAll(ScanState("", messages), Lines(Render(frames)));
        ScanAll(ScanState("", messages), Lines(FrameText(f) + Render(rest)));
        { FrameThen(f, Render(rest), messages); }
        ScanAll(ScanState("", next), Lines(Render(rest)));
        { RenderScans(rest, next); }
        ScanState("", next + Payloads(rest));
        { ConcatAssociates(messages, Payload(f), Payloads(rest)); }
        ScanState("", messages + (Payload(f) + Payloads(rest)));
      }
    }
  }

  /** Any run of one-line frames, comments interleaved, reads back as its trimmed non-blank data. */
  lemma RenderRoundTrip(frames: seq<Frame>)
    requires forall f :: f in frames ==> OneLine(f)
    ensures DataMessages(Render(frames)) == Payloads(frames)
  {
    RenderScans(frames, []);
    assert [] + Payloads(frames) == Payloads(frames);
  }

  /** Every message the scanner delivers is trimmed and not blank. */
  lemma {:induction false} MessagesClean(text: string)
    ensures forall m :: m in DataMessages(text) ==> m != "" && Trimmed(m)
  {
    ScanClean(SCAN_START, Lines(text));
    var end := ScanAll(SCAN_START, Lines(text));
    if end.current != "" { CurrentClean(end); }
  }

  predicate CleanState(st: ScanState) {
    && (st.current != "" ==> !IsSpace(st.current[0]))
    && forall m :: m in st.messages ==> m != "" && Trimmed(m)
  }

  lemma CurrentClean(st: ScanState)
    requires CleanState(st) && st.current != ""
    ensures Trim(st.current) != "" && Trimmed(Trim(st.current))
  {
    var i, j := TrimCut(st.current);
  }

  lemma {:induction false} ScanClean(st: ScanState, lines: seq<string>)
    requires CleanState(st)
    ensures CleanState(ScanAll(st, lines))
    decreases |lines|
  {
    if lines != [] {
      if st.current != "" { CurrentClean(st); }
      if HasPrefix(lines[0], "data:") {
        var i, j := TrimCut(lines[0][5..]);
      }
      ScanClean(ScanLine(st, lines[0]), lines[1..]);
    }
  }

  // ---------- a message with a line break shrinks when it is written again ----------

  function TotalLength(xs: seq<string>): nat {
    if xs == [] then 0 else |xs[0]| + TotalLength(xs[1..])
  }

  lemma {:induction false} TotalLengthConcat(xs: seq<string>, ys: seq<string>)
    ensures TotalLength(xs + ys) == TotalLength(xs) + TotalLength(ys)
  {
    if xs == [] {
      assert xs + ys == ys;
    } else {
      assert (xs + ys)[1..] == xs[1..] + ys;
      TotalLengthConcat(xs[1..], ys);
    }
  }

  lemma {:induction false} LinesLength(text: string)
    ensures TotalLength(Lines(text)) <= |text|
    ensures text != "" && text[|text| - 1] == '\n' ==> TotalLength(Lines(text)) < |text|
    decreases |text|
  {
    if text != "" {
      var i := BreakAt(text);
      if i < |text| {
        LinesLength(text[i + 1..]);
      } else {
        assert text[..i] == text;
        assert Lines(text)[1..] == [];
      }
      if i < |text| {
        assert Lines(text)[1..] == Lines(text[i + 1..]);
      }
    }
  }

  /** Scanning adds at most the characters of the lines. */
  lemma {:induction false} ScanLength(st: ScanState, lines: seq<string>)
    ensures var end := ScanAll(st, lines);
            |end.current| + TotalLength(end.messages) <= |st.current| + TotalLength(st.messages) + TotalLength(lines)
    decreases |lines|
  {
    if lines != [] {
      var next := ScanLine(st, lines[0]);
      TotalLengthConcat(st.messages, [Trim(st.current)]);
      TrimFixed(st.current);
      if HasPrefix(lines[0], "data:") { TrimFixed(lines[0][5..]); }
      assert |next.current| + TotalLength(next.messages) <= |st.current| + TotalLength(st.messages) + |lines[0]|;
      ScanLength(next, lines[1..]);
    }
  }

  lemma {:induction false} ScanAppends(st: ScanState, lines: seq<string>)
    ensures st.messages <= ScanAll(st, lines).messages
    ensures lines != [] && lines[|lines| - 1] == "" ==> ScanAll(st, lines).current == ""
    decreases |lines|
  {
    if lines != [] {
      ScanAppends(ScanLine(st, lines[0]), lines[1..]);
    }
  }

  lemma SplitMessage(m: string) returns (head: string, tail: string)
    requires '\n' in m
    ensures m == head + "\n" + tail && '\n' !in head
  {
    var i := BreakAt(m);
    assert m[..|m|] == m;
    head, tail := m[..i], m[i + 1..];
  }

  /** The lines after the first one of a re-written message add less than their length. */
  lemma TailLines(head: string, tail: string) returns (rest: seq<string>)
    requires '\n' !in head
    ensures Lines(FrameText(Data(head + "\n" + tail))) == [DropCR("data: " + head)] + (rest + [""])
    ensures TotalLength(rest) <= |tail|
  {
    rest := Lines(tail + "\n");
    calc {
      Lines(FrameText(Data(head + "\n" + tail)));
      { assert FrameText(Data(head + "\n" + tail)) == ("data: " + head) + "\n" + ((tail + "\n") + "\n"); }
      Lines(("data: " + head) + "\n" + ((tail + "\n") + "\n"));
      { FirstLine("data: " + head, (tail + "\n") + "\n"); }
      [DropCR("data: " + head)] + Lines((tail + "\n") + "\n");
      { LinesConcat(tail + "\n", "\n"); }
      [DropCR("data: " + head)] + (rest + Lines("\n"));
      { assert "" + "\n" + "" == "\n"; FirstLine("", ""); }
      [DropCR("data: " + head)] + (rest + [""]);
    }
    LinesLength(tail + "\n");
  }

  lemma TailScan(head: string, rest: seq<string>, messages: seq<string>)
    ensures var end := ScanAll(ScanState("", messages), [DropCR("data: " + head)] + (rest + [""]));
            end.current == "" && TotalLength(end.messages) <= |head| + TotalLength(messages) + TotalLength(rest)
  {
    hide Trim, DropCR;
    var line, more := DropCR("data: " + head), rest + [""];
    DataLineContent(head);
    TrimFixed(head);
    var next := ScanState(Trim(head), messages);
    assert ScanLine(ScanState("", messages), line) == next;
    assert ([line] + more)[1..] == more;
    TotalLengthConcat(rest, [""]);
    ScanLength(next, more);
    ScanAppends(next, more);
  }

  /** Re-writing `m` as one data frame and reading it: never longer, shorter if `m` has a line break. */
  lemma FrameShrinks(m: string, messages: seq<string>)
    ensures var end := ScanAll(ScanState("", messages), Lines(FrameText(Data(m))));
            && end.current == ""
            && TotalLength(end.messages) <= TotalLength(messages) + |m|
            && ('\n' in m ==> TotalLength(end.messages) < TotalLength(messages) + |m|)
  {
    var st := ScanState("", messages);
    if '\n' !in m {
      DataFrameScan(m, messages);
      TrimFixed(m);
      TotalLengthConcat(messages, Payload(Data(m)));
    } else {
      var head, tail := SplitMessage(m);
      var rest := TailLines(head, tail);
      TailScan(head, rest, messages);
    }
  }

  lemma {:induction false} RewriteShrinks(ms: seq<string>, messages: seq<string>)
    ensures var end := ScanAll(ScanState("", messages), Lines(Render(AsData(ms))));
            && end.current == ""
            && TotalLength(end.messages) <= TotalLength(messages) + TotalLength(ms)
            && ((exists m :: m in ms && '\n' in m) ==>
                      TotalLength(end.messages) < TotalLength(messages) + TotalLength(ms))
  {
    if ms != [] {
      var f := Data(ms[0]);
      FrameEndsLine(f);
      LinesConcat(FrameText(f), Render(AsData(ms[1..])));
      ScanConcat(ScanState("", messages), Lines(FrameText(f)), Lines(Render(AsData(ms[1..]))));
      FrameShrinks(ms[0], messages);
      RewriteShrinks(ms[1..], ScanAll(ScanState("", messages), Lines(FrameText(f))).messages);
      assert AsData(ms)[1..] == AsData(ms[1..]);
    }
  }

  lemma PayloadOf(m: string)
    requires m != "" && Trimmed(m)
    ensures Payload(Data(m)) == [m]
  {
    hide Trim;
    TrimFixed(m);
  }

  lemma {:induction false} AsDataPayloads(ms: seq<string>)
    requires forall i :: 0 <= i < |ms| ==> ms[i] != "" && Trimmed(ms[i])
    ensures Payloads(AsData(ms)) == ms
  {
    hide Trimmed, Payload;
    if ms != [] {
      AsDataPayloads(ms[1..]);
      PayloadOf(ms[0]);
      assert AsData(ms)[1..] == AsData(ms[1..]) && ms == [ms[0]] + ms[1..];
    }
  }

  lemma {:induction false} AsDataOneLine(ms: seq<string>)
    requires forall m :: m in ms ==> '\n' !in m
    ensures forall f :: f in AsData(ms) ==> OneLine(f)
  {
    if ms != [] {
      AsDataOneLine(ms[1..]);
    }
  }

  /**
   * Messages that a scanner delivered, written again one frame each, read back unchanged exactly
   * when none of them holds a line break, that is, when upstream never used a multi-line event.
   */
  lemma RewriteExactIffOneLine(ms: seq<string>)
    requires forall m :: m in ms ==> m != "" && Trimmed(m)
    ensures DataMessages(Render(AsData(ms))) == ms <==> forall m :: m in ms ==> '\n' !in m
  {
    hide DataMessages, Trimmed, AsData, Render;
    if forall m :: m in ms ==> '\n' !in m {
      OneLineRewritesExactly(ms);
    } else {
      var m :| m in ms && '\n' in m;
      LineBreakShrinks(ms, m);
    }
  }

  lemma OneLineRewritesExactly(ms: seq<string>)
    requires forall m :: m in ms ==> m != "" && Trimmed(m)
    requires forall m :: m in ms ==> '\n' !in m
    ensures DataMessages(Render(AsData(ms))) == ms
  {
    hide DataMessages, Trimmed, Payloads, AsData, Render;
    forall i | 0 <= i < |ms| ensures ms[i] != "" && Trimmed(ms[i]) { assert ms[i] in ms; }
    AsDataOneLine(ms);
    RenderRoundTrip(AsData(ms));
    AsDataPayloads(ms);
  }

  lemma LineBreakShrinks(ms: seq<string>, m: string)
    requires m in ms && '\n' in m
    ensures DataMessages(Render(AsData(ms))) != ms
  {
    hide Lines, ScanAll, AsData, Render;
    RewriteShrinks(ms, []);
  }

  // ---------- what becomes of any message when it is written again ----------

  /** What a reader finds in the frame of one message. */
  function FrameMessages(m: string): seq<string> {
    DataMessages(FrameText(Data(m)))
  }

  /** What a reader finds in the frames of the messages, whatever they hold. */
  function Reread(ms: seq<string>): seq<string> {
    if ms == [] then [] else FrameMessages(ms[0]) + Reread(ms[1..])
  }

  lemma {:induction false} RereadConcat(xs: seq<string>, ys: seq<string>)
    ensures Reread(xs + ys) == Reread(xs) + Reread(ys)
    decreases |xs|
  {
    hide FrameMessages;
    if xs == [] {
      assert xs + ys == ys;
    } else {
      assert (xs + ys)[1..] == xs[1..] + ys && (xs + ys)[0] == xs[0];
      RereadConcat(xs[1..], ys);
      ConcatAssociates(FrameMessages(xs[0]), Reread(xs[1..]), Reread(ys));
    }
  }

  /** Messages found earlier are only carried along. */
  lemma {:induction false} ScanCarries(current: string, before: seq<string>, found: seq<string>, lines: seq<string>)
    ensures var end := ScanAll(ScanState(current, found), lines);
            ScanAll(ScanState(current, before + found), lines) == ScanState(end.current, before + end.messages)
    decreases |lines|
  {
    hide Trim;
    if lines != [] {
      var next := ScanLine(ScanState(current, found), lines[0]);
      ConcatAssociates(before, found, [Trim(current)]);
      ScanCarries(next.current, before, next.messages, lines[1..]);
    }
  }

  /** A data frame ends its event: the scanner is between two events and has found the frame's messages. */
  lemma DataFrameAdds(m: string, messages: seq<string>)
    ensures ScanAll(ScanState("", messages), Lines(FrameText(Data(m)))) == ScanState("", messages + FrameMessages(m))
  {
    hide Lines, ScanAll;
    FrameShrinks(m, []);
    ScanCarries("", messages, [], Lines(FrameText(Data(m))));
    assert messages + [] == messages;
  }

  lemma {:induction false} RenderRereadsFrom(frames: seq<Frame>, messages: seq<string>)
    requires forall f :: f in frames && f.Comment? ==> OneLine(f)
    ensures ScanAll(ScanState("", messages), Lines(Render(frames)))
         == ScanState("", messages + Reread(DataTexts(frames)))
    decreases |frames|
  {
    hide FrameText, FrameMessages, Lines, ScanAll;
    if frames == [] {
      assert messages + [] == messages;
      NothingScanned(messages);
    } else {
      var f, rest := frames[0], frames[1..];
      FrameEndsLine(f);
      LinesConcat(FrameText(f), Render(rest));
      ScanConcat(ScanState("", messages), Lines(FrameText(f)), Lines(Render(rest)));
      match f
      case Data(m) =>
        DataFrameAdds(m, messages);
        RenderRereadsFrom(rest, messages + FrameMessages(m));
        ConcatAssociates(messages, FrameMessages(m), Reread(DataTexts(rest)));
        assert DataTexts(frames)[0] == m && DataTexts(frames)[1..] == DataTexts(rest);
      case Comment(t) =>
        CommentFrameScan(t, messages);
        RenderRereadsFrom(rest, messages);
        assert [] + DataTexts(rest) == DataTexts(rest);
    }
  }

  lemma NothingScanned(messages: seq<string>)
    ensures ScanAll(ScanState("", messages), Lines("")) == ScanState("", messages)
  {
  }

  function DataTexts(frames: seq<Frame>): seq<string> {
    if frames == [] then [] else (if frames[0].Data? then [frames[0].text] else []) + DataTexts(frames[1..])
  }

  /** Reading any frames, one-line comments interleaved, is reading their data frames one by one. */
  lemma RenderRereads(frames: seq<Frame>)
    requires forall f :: f in frames && f.Comment? ==> OneLine(f)
    ensures DataMessages(Render(frames)) == Reread(DataTexts(frames))
  {
    hide Lines, ScanAll, Reread, Render;
    RenderRereadsFrom(frames, []);
    assert [] + Reread(DataTexts(frames)) == Reread(DataTexts(frames));
  }

  /** Messages a scanner delivered are read again unchanged exactly when none of them holds a line break. */
  lemma RereadExactIffOneLine(ms: seq<string>)
    requires forall m :: m in ms ==> m != "" && Trimmed(m)
    ensures Reread(ms) == ms <==> forall m :: m in ms ==> '\n' !in m
  {
    hide Reread, DataMessages, Trimmed;
    RewriteExactIffOneLine(ms);
    AsDataTexts(ms);
    RenderRereads(AsData(ms));
  }

  lemma {:induction false} AsDataTexts(ms: seq<string>)
    ensures DataTexts(AsData(ms)) == ms && forall f :: f in AsData(ms) ==> f.Data?
    decreases |ms|
  {
    if ms != [] {
      AsDataTexts(ms[1..]);
      assert AsData(ms)[1..] == AsData(ms[1..]);
    }
  }

  lemma {:induction false} RereadClean(ms: seq<string>)
    ensures forall m :: m in Reread(ms) ==> m != "" && Trimmed(m)
    decreases |ms|
  {
    hide Trimmed, DataMessages;
    if ms != [] {
      MessagesClean(FrameText(Data(ms[0])));
      RereadClean(ms[1..]);
    }
  }

  /** An event of two data lines scans to one message with a line feed; forwarded, it loses its second line. */
  lemma TwoLineEventIsCut()
    ensures DataMessages("data: a\ndata: b\n\n") == ["a\nb"]
    ensures DataMessages(Render(AsData(["a\nb"]))) == ["a"]
  {
    TwoDataLines();
    RewrittenTwoLines();
  }

  lemma TwoDataLines()
    ensures DataMessages("data: a\ndata: b\n\n") == ["a\nb"]
  {
    hide Lines, ScanAll, ScanLine, Trim;
    assert "data: a\ndata: b\n\n" == "data: a" + "\n" + ("data: b" + "\n" + "\n");
    TwoLines("data: a", "data: b");
    ScanThree("data: a", "data: b");
    FirstDataLine();
    SecondDataLine();
    EventEnds("a\nb");
  }

  lemma SecondDataLine()
    ensures ScanLine(ScanState("a", []), "data: b") == ScanState("a\nb", [])
  {
    hide Trim, DropCR;
    PlainLine("data: b");
    DataLineContent("b");
    TrimFixed("b");
    assert "a" + "\n" + "b" == "a\nb" && "data: " + "b" == "data: b";
  }

  lemma EventEnds(m: string)
    requires m != "" && Trimmed(m)
    ensures ScanLine(ScanState(m, []), "") == ScanState("", [m])
  {
    hide Trim;
    TrimFixed(m);
    assert [] + [m] == [m];
  }

  lemma RewrittenTwoLines()
    ensures DataMessages(Render(AsData(["a\nb"]))) == ["a"]
  {
    hide Lines, ScanAll, Trim;
    assert Render(AsData(["a\nb"])) == "data: a" + "\n" + ("b" + "\n" + "\n") by { OneFrame("a\nb"); }
    TwoLines("data: a", "b");
    ScanThree("data: a", "b");
    FirstDataLine();
    assert !HasPrefix("b", "data:");
    TrimFixed("a");
    assert [] + ["a"] == ["a"];
  }

  lemma OneFrame(m: string)
    ensures Render(AsData([m])) == "data: " + m + "\n\n"
  {
    assert [m][1..] == [] && [Data(m)] + [] == [Data(m)] && [Data(m)][1..] == [];
    assert FrameText(Data(m)) + "" == FrameText(Data(m));
  }

  lemma PlainLine(line: string)
    requires line != "" && line[|line| - 1] != '\r'
    ensures DropCR(line) == line
  {
  }

  lemma FirstDataLine()
    ensures ScanLine(SCAN_START, "data: a") == ScanState("a", [])
  {
    hide Trim;
    PlainLine("data: a");
    DataLineContent("a");
    TrimFixed("a");
    assert "" + "a" == "a" && "data: " + "a" == "data: a";
  }

  lemma TwoLines(x: string, y: string)
    requires '\n' !in x && '\n' !in y && x != "" && y != "" && x[|x| - 1] != '\r' && y[|y| - 1] != '\r'
    ensures Lines(x + "\n" + (y + "\n" + "\n")) == [x, y, ""]
  {
    FirstLine(x, y + "\n" + "\n");
    FirstLine(y, "\n");
    assert "" + "\n" + "" == "\n";
    FirstLine("", "");
  }

  lemma ScanThree(x: string, y: string)
    ensures ScanAll(SCAN_START, [x, y, ""]) == ScanLine(ScanLine(ScanLine(SCAN_START, x), y), "")
  {
    assert [x, y, ""][1..] == [y, ""];
    ScanTwo(ScanLine(SCAN_START, x), y, "");
  }
}
