/**
 * Event streams as upstream writes them: events of any lines, each ended by a blank line, and at the
 * end an event that was cut off. Each event is read as its data lines joined by line feeds.
 */
module SseEvents {
  import opened Sequences
  import opened Text
  import opened SseFraming

  /** A line of an event: anything but the blank line that ends it. */
  predicate Inner(line: string) {
    '\n' !in line && line != "" && line != "\r"
  }

  predicate AllInner(lines: seq<string>) {
    forall i :: 0 <= i < |lines| ==> Inner(lines[i])
  }

  /** The lines as they stand in the stream, each ended by a line feed. */
  function LinesText(lines: seq<string>): string {
    if lines == [] then "" else lines[0] + "\n" + LinesText(lines[1..])
  }

  /** Every event followed by a blank line. */
  function EventsText(events: seq<seq<string>>): string {
    if events == [] then "" else LinesText(events[0]) + "\n" + EventsText(events[1..])
  }

  /** What stands behind "data:" on the data lines, trimmed; every other line is passed over. */
  function DataParts(lines: seq<string>): seq<string> {
    if lines == [] then []
    else (if "data:" <= lines[0] then [Trim(lines[0][5..])] else []) + DataParts(lines[1..])
  }

  /** The message of an event, unless it is blank. */
  function EventMessage(lines: seq<string>): seq<string> {
    var text := Trim(Join(DataParts(lines), "\n"));
    if text == "" then [] else [text]
  }

  function EventMessages(events: seq<seq<string>>): seq<string> {
    if events == [] then [] else EventMessage(events[0]) + EventMessages(events[1..])
  }

  // ---------- the scanner on the lines of one event ----------

  /** What the scanner has collected of an event after these parts. */
  function Collected(current: string, parts: seq<string>): string
    decreases |parts|
  {
    if parts == [] then current
    else Collected((if current != "" then current + "\n" else "") + parts[0], parts[1..])
  }

  lemma {:induction false} CollectedJoins(current: string, parts: seq<string>)
    requires current != ""
    ensures Collected(current, parts) == if parts == [] then current else current + "\n" + Join(parts, "\n")
    decreases |parts|
  {
    if parts != [] {
      CollectedJoins(current + "\n" + parts[0], parts[1..]);
      if |parts| > 1 { Grouped(current, parts[0], Join(parts[1..], "\n")); }
    }
  }

  lemma Grouped(a: string, b: string, d: string)
    ensures (a + "\n" + b) + "\n" + d == a + "\n" + (b + "\n" + d)
  {
  }

  /** Leading empty parts add no line feed, and those that a join would add are trimmed off. */
  lemma {:induction false} CollectedTrims(parts: seq<string>)
    requires forall i :: 0 <= i < |parts| ==> Trimmed(parts[i])
    ensures Trim(Collected("", parts)) == Trim(Join(parts, "\n"))
    ensures Collected("", parts) == "" <==> Trim(Join(parts, "\n")) == ""
    decreases |parts|
  {
    hide Trim, IsSpace;
    TrimFixed("");
    if parts != [] {
      var rest := parts[1..];
      assert "" + parts[0] == parts[0];
      if parts[0] == "" {
        CollectedTrims(rest);
        var joined := Join(rest, "\n");
        LeadingBreak(joined);
        assert "" + "\n" + joined == "\n" + joined + "";
      } else {
        CollectedJoins(parts[0], rest);
        var whole := Collected("", parts);
        assert whole[0] == parts[0][0];
        FirstStays(whole);
      }
    }
  }

  lemma LeadingBreak(s: string)
    ensures Trim("\n" + s + "") == Trim(s)
  {
    TrimPadded("\n", s, "");
  }

  lemma FirstStays(s: string)
    requires s != "" && !IsSpace(s[0])
    ensures Trim(s) != ""
  {
    var i, j := TrimCut(s);
  }

  function Dropped(lines: seq<string>): seq<string> {
    if lines == [] then [] else [DropCR(lines[0])] + Dropped(lines[1..])
  }

  lemma {:induction false} LinesRead(lines: seq<string>, tail: string)
    requires AllInner(lines)
    ensures Lines(LinesText(lines) + tail) == Dropped(lines) + Lines(tail)
    decreases |lines|
  {
    hide Lines, DropCR;
    if lines == [] {
      assert "" + tail == tail;
      assert [] + Lines(tail) == Lines(tail);
    } else {
      var rest := LinesText(lines[1..]);
      assert Inner(lines[0]);
      Reassociate(lines[0], rest, tail);
      FirstLine(lines[0], rest + tail);
      LinesRead(lines[1..], tail);
      ConcatAssociates([DropCR(lines[0])], Dropped(lines[1..]), Lines(tail));
    }
  }

  /** One line of an event: the scanner takes the part, if any, as it stands in the stream. */
  lemma InnerScan(line: string, st: ScanState)
    requires Inner(line)
    ensures ScanLine(st, DropCR(line)) == st.(current := Collected(st.current, DataParts([line])))
  {
    hide Trim;
    assert [line][1..] == [] && DataParts([]) == [];
    var kept := DropCR(line);
    assert kept != "";
    if "data:" <= line {
      assert "data:" <= kept;
      if kept != line {
        assert line == kept + "\r" && line[5..] == kept[5..] + "\r";
        TrimPadded("", kept[5..], "\r");
        assert "" + kept[5..] + "\r" == kept[5..] + "\r";
      }
      assert DataParts([line]) == [Trim(line[5..])];
      assert Trim(kept[5..]) == Trim(line[5..]);
    } else {
      assert DataParts([line]) == [];
      assert kept <= line;
      assert HasPrefix(kept, "data:") ==> "data:" <= line;
    }
  }

  lemma {:induction false} CollectedConcat(current: string, xs: seq<string>, ys: seq<string>)
    ensures Collected(current, xs + ys) == Collected(Collected(current, xs), ys)
    decreases |xs|
  {
    if xs == [] {
      assert xs + ys == ys;
    } else {
      assert (xs + ys)[1..] == xs[1..] + ys && (xs + ys)[0] == xs[0];
      CollectedConcat((if current != "" then current + "\n" else "") + xs[0], xs[1..], ys);
    }
  }

  lemma {:induction false} EventScan(lines: seq<string>, st: ScanState)
    requires AllInner(lines)
    ensures ScanAll(st, Dropped(lines)) == st.(current := Collected(st.current, DataParts(lines)))
    decreases |lines|
  {
    hide DropCR, Trim, ScanLine;
    if lines != [] {
      assert Inner(lines[0]);
      InnerScan(lines[0], st);
      var part := DataParts([lines[0]]);
      assert [lines[0]][1..] == [] && DataParts([]) == [];
      assert DataParts(lines) == part + DataParts(lines[1..]);
      CollectedConcat(st.current, part, DataParts(lines[1..]));
      assert Dropped(lines)[1..] == Dropped(lines[1..]);
      EventScan(lines[1..], st.(current := Collected(st.current, part)));
    }
  }

  lemma {:induction false} PartsTrimmed(lines: seq<string>)
    ensures forall i :: 0 <= i < |DataParts(lines)| ==> Trimmed(DataParts(lines)[i])
    decreases |lines|
  {
    hide Trim;
    if lines != [] {
      if "data:" <= lines[0] {
        TrimFixed(lines[0][5..]);
        TrimFixed(Trim(lines[0][5..]));
      }
      PartsTrimmed(lines[1..]);
    }
  }

  // ---------- whole streams ----------

  lemma {:induction false} EventsScan(events: seq<seq<string>>, tail: string, messages: seq<string>)
    requires forall i :: 0 <= i < |events| ==> AllInner(events[i])
    ensures ScanAll(ScanState("", messages), Lines(EventsText(events) + tail))
         == ScanAll(ScanState("", messages + EventMessages(events)), Lines(tail))
    decreases |events|
  {
    hide Trim, Lines, Join, DataParts, ScanAll;
    if events == [] {
      assert "" + tail == tail && messages + [] == messages;
    } else {
      var e, more := events[0], EventsText(events[1..]) + tail;
      var parts := DataParts(e);
      var st := ScanState("", messages);
      assert AllInner(e);
      assert EventsText(events) + tail == LinesText(e) + ("\n" + more);
      LinesRead(e, "\n" + more);
      BlankFirst(more);
      ScanConcat(st, Dropped(e), [""] + Lines(more));
      EventScan(e, st);
      PartsTrimmed(e);
      CollectedTrims(parts);
      EventEndsHere(Collected("", parts), messages, Lines(more));
      ConcatAssociates(messages, EventMessage(e), EventMessages(events[1..]));
      assert messages + [] == messages;
      EventsScan(events[1..], tail, messages + EventMessage(e));
    }
  }

  lemma BlankFirst(more: string)
    ensures Lines("\n" + more) == [""] + Lines(more)
  {
    assert "" + "\n" + more == "\n" + more;
    FirstLine("", more);
  }

  lemma EventEndsHere(current: string, messages: seq<string>, lines: seq<string>)
    ensures ScanAll(ScanState(current, messages), [""] + lines)
         == ScanAll(ScanState("", messages + if current != "" then [Trim(current)] else []), lines)
  {
    hide Trim;
    assert ([""] + lines)[1..] == lines && messages + [] == messages;
  }

  /**
   * Any events of any lines, and the lines of an event that was cut off: each event gives its data
   * lines joined by line feeds, also the last one.
   */
  lemma EventsRead(events: seq<seq<string>>, last: seq<string>)
    requires (forall i :: 0 <= i < |events| ==> AllInner(events[i])) && AllInner(last)
    ensures DataMessages(EventsText(events) + LinesText(last)) == EventMessages(events) + EventMessage(last)
  {
    hide Trim, Lines, Join, DataParts, ScanAll, EventsText, EventMessages;
    var before := EventMessages(events);
    EventsScan(events, LinesText(last), []);
    assert [] + before == before && before + [] == before;
    LinesRead(last, "");
    assert LinesText(last) + "" == LinesText(last) && Lines("") == [] by { NoLines(); }
    assert Dropped(last) + [] == Dropped(last);
    EventScan(last, ScanState("", before));
    PartsTrimmed(last);
    CollectedTrims(DataParts(last));
  }

  lemma NoLines()
    ensures Lines("") == []
  {
  }

  /** The last line may lack its line feed. */
  lemma LastLineFeedOptional(events: seq<seq<string>>, last: seq<string>, line: string)
    requires (forall i :: 0 <= i < |events| ==> AllInner(events[i])) && AllInner(last) && Inner(line)
    ensures DataMessages(EventsText(events) + (LinesText(last) + line))
         == EventMessages(events) + EventMessage(last + [line])
  {
    hide Trim, Join, DataParts, ScanAll, EventsText, EventMessages, EventMessage;
    EventsRead(events, last + [line]);
    EventsScan(events, LinesText(last) + line, []);
    EventsScan(events, LinesText(last + [line]), []);
    LinesRead(last, line);
    LinesRead(last, line + "\n");
    LinesTextSnoc(last, line);
    FirstLine(line, "");
    assert line + "\n" + "" == line + "\n";
    LoneLine(line);
  }

  lemma {:induction false} NoBreakAt(s: string)
    requires '\n' !in s
    ensures BreakAt(s) == |s|
  {
    if s != "" { NoBreakAt(s[1..]); }
  }

  lemma LoneLine(line: string)
    requires Inner(line)
    ensures Lines(line) == [DropCR(line)] && Lines("") == [] && [DropCR(line)] + [] == [DropCR(line)]
  {
    NoBreakAt(line);
    assert line[..|line|] == line;
  }

  lemma {:induction false} LinesTextSnoc(lines: seq<string>, line: string)
    ensures LinesText(lines + [line]) == LinesText(lines) + (line + "\n")
    decreases |lines|
  {
    if lines == [] {
      assert ([] + [line])[1..] == [] && "" + (line + "\n") == line + "\n" && line + "\n" + "" == line + "\n";
    } else {
      assert (lines + [line])[1..] == lines[1..] + [line];
      LinesTextSnoc(lines[1..], line);
      assert (lines[0] + "\n" + LinesText(lines[1..])) + (line + "\n")
          == lines[0] + "\n" + (LinesText(lines[1..]) + (line + "\n"));
    }
  }

  /** Frames the writers produce, then one data line cut off, with or without its line feed: its text is delivered. */
  lemma CutOffDataRead(frames: seq<Frame>, m: string)
    requires (forall f :: f in frames ==> OneLine(f)) && '\n' !in m
    ensures DataMessages(Render(frames) + ("data: " + m)) == Payloads(frames) + Payload(Data(m))
    ensures DataMessages(Render(frames) + ("data: " + m + "\n")) == Payloads(frames) + Payload(Data(m))
  {
    hide Trim, Lines, ScanAll, Render, DropCR;
    var line := "data: " + m;
    RenderEnds(frames);
    LinesConcat(Render(frames), line);
    LinesConcat(Render(frames), line + "\n");
    ScanConcat(SCAN_START, Lines(Render(frames)), Lines(line));
    ScanConcat(SCAN_START, Lines(Render(frames)), Lines(line + "\n"));
    RenderScans(frames, []);
    assert [] + Payloads(frames) == Payloads(frames);
    LoneLine(line);
    FirstLine(line, "");
    assert line + "\n" + "" == line + "\n";
    DataLineContent(m);
    TrimFixed(m);
    OneLineScanned(ScanState("", Payloads(frames)), DropCR(line));
    assert "" + Trim(m) == Trim(m);
    assert Payloads(frames) + [] == Payloads(frames);
  }

  lemma OneLineScanned(st: ScanState, line: string)
    ensures ScanAll(st, [line]) == ScanLine(st, line)
  {
    assert [line][1..] == [];
  }

  lemma {:induction false} RenderEnds(frames: seq<Frame>)
    ensures Render(frames) != "" ==> Render(frames)[|Render(frames)| - 1] == '\n'
    decreases |frames|
  {
    hide FrameText;
    if frames != [] {
      FrameEndsLine(frames[0]);
      RenderEnds(frames[1..]);
    }
  }
}
