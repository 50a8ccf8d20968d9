/** Where the summary of a compaction ends up: the first item that holds the placeholder takes it. */
module SummaryLanding {
  import opened Text
  import opened Json
  import opened ContentText
  import opened TreeCompaction
  import opened ContextCompaction
  import opened CompactionPairing

  // ---------- looking for a mark in joined and trimmed text ----------

  /** Text that neither trimming nor joining lines can break or make. */
  predicate Solid(mark: string) {
    mark != "" && !IsSpace(mark[0]) && !IsSpace(mark[|mark| - 1]) && '\n' !in mark
  }

  predicate FoundAt(s: string, mark: string, i: nat) {
    i + |mark| <= |s| && s[i..i + |mark|] == mark
  }

  lemma ContainsAt(s: string, mark: string)
    ensures Contains(s, mark) <==> exists i :: FoundAt(s, mark, i)
  {
    if Contains(s, mark) {
      var i :| 0 <= i <= |s| && mark <= s[i..];
      assert s[i..i + |mark|] == s[i..][..|mark|];
      assert FoundAt(s, mark, i);
    }
    if i: nat :| FoundAt(s, mark, i) {
      assert s[i..][..|mark|] == s[i..i + |mark|];
    }
  }

  lemma MarkLetter(s: string, mark: string, i: nat, k: nat)
    requires FoundAt(s, mark, i) && k < |mark|
    ensures s[i + k] == mark[k] && mark[k] in mark
  {
    assert s[i..i + |mark|][k] == s[i + k];
  }

  /** A mark in a middle piece is one in the whole, and the other way round if it lies in the piece. */
  lemma FoundInPiece(s: string, mark: string, a: nat, b: nat, i: nat)
    requires a <= b <= |s| && i + |mark| <= b - a
    ensures FoundAt(s[a..b], mark, i) <==> FoundAt(s, mark, a + i)
  {
    var inner, outer := s[a..b][i..i + |mark|], s[a + i..a + i + |mark|];
    assert forall k :: 0 <= k < |mark| ==> inner[k] == s[a + i + k] == outer[k];
    assert inner == outer;
  }

  lemma TrimKeepsMark(s: string, mark: string)
    requires Solid(mark)
    ensures Contains(Trim(s), mark) <==> Contains(s, mark)
  {
    hide Trim, Contains, IsSpace;
    ContainsAt(s, mark);
    ContainsAt(Trim(s), mark);
    var a, b := TrimCut(s);
    if i: nat :| FoundAt(Trim(s), mark, i) {
      FoundInPiece(s, mark, a, b, i);
    }
    if i: nat :| FoundAt(s, mark, i) {
      MarkLetter(s, mark, i, 0);
      MarkLetter(s, mark, i, |mark| - 1);
      assert a <= i && i + |mark| - 1 < b;
      FoundInPiece(s, mark, a, b, i - a);
    }
  }

  lemma LinesKeepMark(x: string, y: string, mark: string)
    requires Solid(mark)
    ensures Contains(x + "\n" + y, mark) <==> Contains(x, mark) || Contains(y, mark)
  {
    hide Contains, IsSpace;
    var s := x + "\n" + y;
    ContainsAt(s, mark);
    ContainsAt(x, mark);
    ContainsAt(y, mark);
    if i: nat :| FoundAt(x, mark, i) {
      assert s[i..i + |mark|] == x[i..i + |mark|];
      assert FoundAt(s, mark, i);
    }
    if i: nat :| FoundAt(y, mark, i) {
      assert s[|x| + 1 + i..|x| + 1 + i + |mark|] == y[i..i + |mark|];
      assert FoundAt(s, mark, |x| + 1 + i);
    }
    if i: nat :| FoundAt(s, mark, i) {
      assert i + |mark| <= |x| || |x| < i by {
        if i <= |x| < i + |mark| { MarkLetter(s, mark, i, |x| - i); }
      }
      if i + |mark| <= |x| {
        assert x[i..i + |mark|] == s[i..i + |mark|];
        assert FoundAt(x, mark, i);
      } else {
        assert y[i - |x| - 1..i - |x| - 1 + |mark|] == s[i..i + |mark|];
        assert FoundAt(y, mark, i - |x| - 1);
      }
    }
  }

  predicate SomeHolds(parts: seq<string>, mark: string) {
    exists i :: 0 <= i < |parts| && Contains(parts[i], mark)
  }

  lemma {:induction false} JoinKeepsMark(parts: seq<string>, mark: string)
    requires Solid(mark)
    ensures Contains(Join(parts, "\n"), mark) <==> SomeHolds(parts, mark)
  {
    hide Contains;
    if parts == [] {
      assert !Contains("", mark) by { NothingContains(mark); }
    } else if |parts| > 1 {
      JoinKeepsMark(parts[1..], mark);
      LinesKeepMark(parts[0], Join(parts[1..], "\n"), mark);
      assert forall i :: 0 <= i < |parts| - 1 ==> parts[1..][i] == parts[i + 1];
      assert forall i :: 1 <= i < |parts| ==> parts[i] == parts[1..][i - 1];
    }
  }

  lemma NothingContains(mark: string)
    requires mark != ""
    ensures !Contains("", mark)
  {
  }

  // ---------- which items hold the placeholder after compaction ----------

  /** Does the item hold the placeholder? The first one that does takes the summary. */
  predicate Holds(item: Json) {
    item.Obj? && Contains(ItemText(item), PLACEHOLDER)
  }

  /** A text that holds the placeholder already, or is long and will be replaced by it. */
  predicate TextHolds(text: string) {
    Contains(text, PLACEHOLDER) || Long(text)
  }

  predicate FieldHolds(value: Json) {
    value.Str? && TextHolds(value.s)
  }

  /** A content part: only the string under "text" is open to compaction. */
  predicate PartHolds(part: Json) {
    match part
    case Str(s) => Contains(s, PLACEHOLDER)
    case Obj(_) => (Field(part, "text").Str? && Long(Field(part, "text").s)) || Contains(PartText(part), PLACEHOLDER)
    case _ => false
  }

  predicate ContentHolds(content: Json) {
    match content
    case Str(s) => TextHolds(s)
    case Arr(parts) => exists i :: 0 <= i < |parts| && PartHolds(parts[i])
    case Obj(_) => PartHolds(content)
    case _ => false
  }

  /** An item that will hold the placeholder, read off the item before compaction. */
  predicate WillHold(item: Json) {
    item.Obj? && (ContentHolds(Field(item, "content")) || FieldHolds(Field(item, "arguments"))
                  || FieldHolds(Field(item, "output")))
  }

  lemma PlaceholderSolid()
    ensures Solid(PLACEHOLDER)
  {
    assert |PLACEHOLDER| == 25 && PLACEHOLDER[0] == '[' && PLACEHOLDER[24] == ']';
  }

  lemma CompactedTextHolds(w: Wording, text: string, path: seq<string>)
    ensures Contains(CompactText(w, text, path), PLACEHOLDER) <==> TextHolds(text)
  {
    if Long(text) {
      var r := Replacement(w, Join(path, "."), text);
      assert r[0..] == r && PLACEHOLDER <= r;
    }
  }

  /** A field of an object under one of the text keys. */
  lemma TextFieldCompacts(w: Wording, item: Json, path: seq<string>, key: string)
    requires key == "content" || key == "arguments" || key == "output" || key == "text"
    requires !Skip(path)
    ensures !Skip(path + [key]) && CompactableKey(key)
    ensures Field(item, key).Str? ==>
              Field(Compact(w, item, path), key) == Str(CompactText(w, Field(item, key).s, path + [key]))
    ensures !Field(item, key).Str? ==> Field(Compact(w, item, path), key) == Compact(w, Field(item, key), path + [key])
  {
    hide Trim, CompactText;
    TrimFixed(key);
    forall i | 0 <= i < |path + [key]| ensures !Protected((path + [key])[i]) {
      if i < |path| { assert (path + [key])[i] == path[i]; }
    }
  }

  lemma StringFieldHolds(value: Json)
    ensures Contains(StringValue(value), PLACEHOLDER) <==> value.Str? && Contains(value.s, PLACEHOLDER)
  {
    hide Trim, Contains;
    PlaceholderSolid();
    NothingContains(PLACEHOLDER);
    if value.Str? { TrimKeepsMark(value.s, PLACEHOLDER); }
  }

  lemma InputTextNotCompactable()
    ensures !CompactableKey("input_text")
  {
    hide Trim;
    TrimFixed("input_text");
    assert |"input_text"| == 10 && |"instructions"| == 12 && |"input"| == 5 && |"content"| == 7;
    assert |"text"| == 4 && |"arguments"| == 9 && |"output"| == 6;
  }

  lemma InputTextKept(w: Wording, part: Json, path: seq<string>)
    ensures StringValue(Field(Compact(w, part, path), "input_text")) == StringValue(Field(part, "input_text"))
  {
    hide CompactText, Skip, CompactableKey, Trim;
    InputTextNotCompactable();
    if part.Obj? && "input_text" in part.fields {
      var child := part.fields["input_text"];
      CompactKeepsKind(w, child, path + ["input_text"]);
      if child.Str? { CompactPlain(w, child, path + ["input_text"]); }
    }
  }

  /** A part read after compaction. */
  lemma PartCompacts(w: Wording, part: Json, path: seq<string>)
    requires part.Obj? && !Skip(path)
    ensures Contains(PartText(Compact(w, part, path)), PLACEHOLDER) <==> PartHolds(part)
  {
    hide Trim, Contains, CompactText, Long, Skip, Compact, CompactableKey;
    NothingContains(PLACEHOLDER);
    var text, next := Field(part, "text"), Field(Compact(w, part, path), "text");
    TextFieldCompacts(w, part, path, "text");
    InputTextKept(w, part, path);
    StringFieldHolds(next);
    CompactKeepsKind(w, text, path + ["text"]);
    if text.Str? {
      CompactedTextHolds(w, text.s, path + ["text"]);
      ShortTextKept(w, text.s, path + ["text"]);
    }
  }

  lemma ShortTextKept(w: Wording, text: string, path: seq<string>)
    ensures !Long(text) ==> CompactText(w, text, path) == text
  {
  }

  /** The text of one element of a content list. */
  function ElementText(part: Json): string {
    match part case Str(s) => s case Obj(_) => PartText(part) case _ => ""
  }

  lemma {:induction false} PartTextsHold(parts: seq<Json>)
    ensures SomeHolds(PartTexts(parts), PLACEHOLDER)
       <==> exists i :: 0 <= i < |parts| && Contains(ElementText(parts[i]), PLACEHOLDER)
  {
    hide Contains, PartText, Trim;
    if parts != [] {
      var text, rest := ElementText(parts[0]), PartTexts(parts[1..]);
      PartTextsHold(parts[1..]);
      BlankHoldsNothing(text);
      assert PartTexts(parts) == (if Blank(text) then [] else [text]) + rest;
      SomeHoldsFirst(text, rest);
      assert forall i :: 0 <= i < |parts| - 1 ==> parts[1..][i] == parts[i + 1];
      assert forall i :: 1 <= i < |parts| ==> parts[i] == parts[1..][i - 1];
    }
  }

  lemma SomeHoldsFirst(text: string, rest: seq<string>)
    ensures SomeHolds([text] + rest, PLACEHOLDER) <==> Contains(text, PLACEHOLDER) || SomeHolds(rest, PLACEHOLDER)
    ensures [] + rest == rest
  {
    hide Contains;
    var all := [text] + rest;
    assert forall i :: 0 <= i < |rest| ==> all[i + 1] == rest[i];
    if i :| 0 <= i < |rest| && Contains(rest[i], PLACEHOLDER) { assert Contains(all[i + 1], PLACEHOLDER); }
    if Contains(text, PLACEHOLDER) { assert all[0] == text; }
    if i :| 0 <= i < |all| && Contains(all[i], PLACEHOLDER) { assert i > 0 ==> rest[i - 1] == all[i]; }
  }

  lemma BlankHoldsNothing(text: string)
    ensures Blank(text) ==> !Contains(text, PLACEHOLDER)
  {
    hide Trim, Contains;
    PlaceholderSolid();
    TrimKeepsMark(text, PLACEHOLDER);
    NothingContains(PLACEHOLDER);
  }

  lemma ContentCompacts(w: Wording, item: Json, path: seq<string>)
    requires item.Obj? && !Skip(path)
    ensures Contains(ValueText(Field(Compact(w, item, path), "content")), PLACEHOLDER)
       <==> ContentHolds(Field(item, "content"))
  {
    hide Trim, Contains, CompactText, TextHolds, Skip, CompactChild, CompactableKey, PartText, PartHolds, PartTexts,
        IndexPart;
    var content, next := Field(item, "content"), Field(Compact(w, item, path), "content");
    var inner := path + ["content"];
    PlaceholderSolid();
    NothingContains(PLACEHOLDER);
    TextFieldCompacts(w, item, path, "content");
    match content
    case Str(s) => CompactedTextHolds(w, s, inner);
    case Obj(_) => PartCompacts(w, content, inner);
    case Arr(parts) =>
      ListCompacts(w, parts, inner);
      PartTextsHold(next.items);
      JoinKeepsMark(PartTexts(next.items), PLACEHOLDER);
    case _ =>
  }

  lemma IndexPartOpen(path: seq<string>, i: nat)
    requires !Skip(path)
    ensures !Skip(path + [IndexPart(i)])
  {
    var next := path + [IndexPart(i)];
    assert IndexPart(i)[0] == '[';
    assert "tools"[0] == 't' && "tool_choice"[0] == 't' && "metadata"[0] == 'm';
    assert forall k :: 0 <= k < |path| ==> next[k] == path[k];
  }

  lemma ListCompacts(w: Wording, parts: seq<Json>, path: seq<string>)
    requires !Skip(path)
    ensures Compact(w, Arr(parts), path).Arr? && |Compact(w, Arr(parts), path).items| == |parts|
    ensures forall i :: 0 <= i < |parts| ==>
              (Contains(ElementText(Compact(w, Arr(parts), path).items[i]), PLACEHOLDER) <==> PartHolds(parts[i]))
  {
    hide Trim, Contains, CompactText, Skip, CompactChild, PartText, IndexPart;
    NothingContains(PLACEHOLDER);
    var next := Compact(w, Arr(parts), path).items;
    forall i | 0 <= i < |parts| ensures Contains(ElementText(next[i]), PLACEHOLDER) <==> PartHolds(parts[i]) {
      IndexPartOpen(path, i);
      assert next[i] == Compact(w, parts[i], path + [IndexPart(i)]);
      if parts[i].Obj? { PartCompacts(w, parts[i], path + [IndexPart(i)]); }
    }
  }

  lemma ThreeTexts(a: string, b: string, c: string)
    ensures Contains(Trim(Join(NotEmpty(a) + NotEmpty(b) + NotEmpty(c), "\n")), PLACEHOLDER)
       <==> Contains(a, PLACEHOLDER) || Contains(b, PLACEHOLDER) || Contains(c, PLACEHOLDER)
  {
    hide Trim, Contains, Join;
    PlaceholderSolid();
    NothingContains(PLACEHOLDER);
    var parts := NotEmpty(a) + NotEmpty(b) + NotEmpty(c);
    TrimKeepsMark(Join(parts, "\n"), PLACEHOLDER);
    JoinKeepsMark(parts, PLACEHOLDER);
    forall text | Contains(text, PLACEHOLDER) && (text == a || text == b || text == c)
      ensures SomeHolds(parts, PLACEHOLDER) {
      assert text in parts;
    }
  }

  /** What an item holds after compaction can be read off before it. */
  lemma HoldsAfterIff(w: Wording, item: Json, path: seq<string>)
    requires !Skip(path)
    ensures Holds(Compact(w, item, path)) <==> WillHold(item)
  {
    hide Trim, Contains, CompactText, TextHolds, Skip, Compact, CompactableKey, ContentHolds, ValueText, Join;
    if item.Obj? {
      var next := Compact(w, item, path);
      assert next.Obj? by { ObjectStays(w, item, path); }
      ContentCompacts(w, item, path);
      FieldCompactsHolds(w, item, path, "arguments");
      FieldCompactsHolds(w, item, path, "output");
      ThreeTexts(ValueText(Field(next, "content")), StringValue(Field(next, "arguments")),
                 StringValue(Field(next, "output")));
    } else {
      assert !Compact(w, item, path).Obj? by { ObjectStays(w, item, path); }
    }
  }

  lemma ObjectStays(w: Wording, item: Json, path: seq<string>)
    ensures Compact(w, item, path).Obj? <==> item.Obj?
  {
  }

  lemma FieldCompactsHolds(w: Wording, item: Json, path: seq<string>, key: string)
    requires item.Obj? && !Skip(path) && (key == "arguments" || key == "output")
    ensures Contains(StringValue(Field(Compact(w, item, path), key)), PLACEHOLDER) <==> FieldHolds(Field(item, key))
  {
    hide Trim, Contains, CompactText, TextHolds, Skip, Compact, CompactableKey;
    TextFieldCompacts(w, item, path, key);
    StringFieldHolds(Field(Compact(w, item, path), key));
    CompactKeepsKind(w, Field(item, key), path + [key]);
    if Field(item, key).Str? { CompactedTextHolds(w, Field(item, key).s, path + [key]); }
  }

  // ---------- where the summary lands ----------

  /** The first item that will hold the placeholder, or the number of items. */
  function Landing(items: seq<Json>): (k: nat)
    ensures k <= |items| && forall i :: 0 <= i < k ==> !WillHold(items[i])
    ensures k < |items| ==> WillHold(items[k])
  {
    if items == [] || WillHold(items[0]) then 0 else 1 + Landing(items[1..])
  }

  /** The item with the summary in the place of the placeholder. */
  function Filled(item: Json, message: string): Json
    requires item.Obj?
  {
    ReplaceContent(item, ReplaceFirst(ItemText(item), PLACEHOLDER, message))
  }

  lemma {:induction false} InsertedAtFirst(items: seq<Json>, message: string, k: nat)
    requires k <= |items| && (forall i :: 0 <= i < k ==> !Holds(items[i])) && (k < |items| ==> Holds(items[k]))
    ensures InsertSummary(items, message) == if k < |items| then items[k := Filled(items[k], message)] else items
    decreases |items|
  {
    hide Contains, ItemText, ReplaceContent, ReplaceFirst;
    if items != [] && k > 0 {
      assert !Holds(items[0]);
      assert forall i :: 0 <= i < k - 1 ==> items[1..][i] == items[i + 1];
      InsertedAtFirst(items[1..], message, k - 1);
      assert items == [items[0]] + items[1..];
    }
  }

  /** For every list: the summary goes to the landing place and every other item stays as compacted. */
  lemma SummaryLandsThere(w: Wording, items: seq<Json>, path: seq<string>, message: string)
    requires !Skip(path)
    ensures var compacted := Items(Compact(w, Arr(items), path));
            |compacted| == |items| && (Landing(items) < |items| ==> compacted[Landing(items)].Obj?)
            && Finish(w, items, path, message)
            == if Landing(items) < |items|
               then compacted[Landing(items) := Filled(compacted[Landing(items)], message)] else compacted
  {
    hide CompactChild, WillHold, Holds, Filled, IndexPart, Skip, InsertSummary;
    var compacted := Items(Compact(w, Arr(items), path));
    forall i | 0 <= i < |items| ensures Holds(compacted[i]) <==> WillHold(items[i]) {
      IndexPartOpen(path, i);
      HoldsAfterIff(w, items[i], path + [IndexPart(i)]);
    }
    assert Landing(items) < |items| ==> compacted[Landing(items)].Obj? by { HoldsObject(compacted); }
    InsertedAtFirst(compacted, message, Landing(items));
  }

  lemma HoldsObject(items: seq<Json>)
    ensures forall i :: 0 <= i < |items| && Holds(items[i]) ==> items[i].Obj?
  {
  }

  lemma StartsContains(s: string)
    requires PLACEHOLDER <= s
    ensures Contains(s, PLACEHOLDER)
  {
    assert s[0..] == s;
  }

  lemma SummaryTextStarts(style: Style, dropped: seq<Segment>)
    ensures PLACEHOLDER <= SummaryText(style, dropped) && Contains(SummaryText(style, dropped), PLACEHOLDER)
  {
    StartsContains(SummaryText(style, dropped));
  }

  lemma SummaryWillHold(style: Style, dropped: seq<Segment>)
    ensures WillHold(ChatSummary(style, dropped)) && WillHold(ResponseSummary(style, dropped))
  {
    hide Contains, SummaryText, Trim, Long;
    SummaryTextStarts(style, dropped);
    var part := Obj(map["type" := Str("input_text"), "text" := Str(SummaryText(style, dropped))]);
    var chat, response := ChatSummary(style, dropped), ResponseSummary(style, dropped);
    assert Field(chat, "content") == Str(SummaryText(style, dropped));
    assert Field(response, "content") == Arr([part]);
    PlaceholderSolid();
    NothingContains(PLACEHOLDER);
    TrimKeepsMark(SummaryText(style, dropped), PLACEHOLDER);
    assert PartHolds(part) by { assert Field(part, "text") == Str(SummaryText(style, dropped)); }
    assert [part][0] == part;
  }

  /** Behind a cut Responses history the summary always lands in its own message. */
  lemma ResponseSummaryLands(style: Style, items: seq<Json>, cut: nat, next: seq<Json>, dropped: seq<Segment>)
    requires CutOut(style, items, cut, next, dropped)
    ensures Landing(next) == 0 && WillHold(next[0])
  {
    hide ResponseSummary, Segments, ShortenRecent, WillHold;
    SummaryWillHold(style, Segments(ResponseSegment, items[..cut]));
  }

  /**
   * Behind a cut chat history the summary lands in its own message if and only if no leading system
   * or developer message holds the placeholder or a long text that compaction replaces by it.
   */
  lemma ChatSummaryLandsIff(style: Style, messages: seq<Json>, keep: nat, segments: seq<Segment>)
    requires keep >= 2
    ensures Landing(CutChat(style, messages, keep, segments)) <= LeadEnd(messages)
    ensures Landing(CutChat(style, messages, keep, segments)) == LeadEnd(messages)
       <==> forall i :: 0 <= i < LeadEnd(messages) ==> !WillHold(messages[i])
  {
    hide ChatSummary, WillHold, ChatCut;
    SummaryWillHold(style, segments);
    var next, lead := CutChat(style, messages, keep, segments), LeadEnd(messages);
    assert next[lead] == ChatSummary(style, segments);
    assert forall i :: 0 <= i < lead ==> next[i] == messages[i];
  }

  // ---------- a long system prompt ----------

  lemma TrimKeepsStart(s: string)
    requires PLACEHOLDER <= s
    ensures PLACEHOLDER <= Trim(s)
  {
    hide Trim, IsSpace;
    PlaceholderSolid();
    var a, b := TrimCut(s);
    assert s[0] == PLACEHOLDER[0] && s[|PLACEHOLDER| - 1] == PLACEHOLDER[|PLACEHOLDER| - 1];
    assert a == 0 && |PLACEHOLDER| <= b;
  }

  lemma JoinStarts(first: string, rest: seq<string>)
    ensures first <= Join([first] + rest, "\n")
  {
    assert ([first] + rest)[0] == first;
  }

  lemma ItemTextStarts(item: Json)
    requires item.Obj? && Field(item, "content").Str? && PLACEHOLDER <= Field(item, "content").s
    ensures PLACEHOLDER <= ItemText(item)
  {
    hide Trim, Join;
    var first := Field(item, "content").s;
    var rest := NotEmpty(StringValue(Field(item, "arguments"))) + NotEmpty(StringValue(Field(item, "output")));
    assert |PLACEHOLDER| == 25 && first != "";
    var parts := NotEmpty(first) + NotEmpty(StringValue(Field(item, "arguments")))
                 + NotEmpty(StringValue(Field(item, "output")));
    assert parts == [first] + rest;
    JoinStarts(first, rest);
    TrimKeepsStart(Join(parts, "\n"));
  }

  lemma SummaryUntouched(style: Style, dropped: seq<Segment>, path: seq<string>)
    ensures Compact(style.wording, ChatSummary(style, dropped), path) == ChatSummary(style, dropped)
  {
    hide Trim, SummaryText, CompactableKey, Contains, Skip;
    SummaryTextStarts(style, dropped);
    TrimFixed("role");
    var item := ChatSummary(style, dropped);
    assert !CompactableKey("role") by { LinkKeyNotCompactable("role"); }
    forall k | k in item.fields ensures CompactChild(style.wording, item.fields[k], k, path) == item.fields[k] {
      if k == "content" {
        ShortTextKept(style.wording, SummaryText(style, dropped), path + [k]);
      } else {
        CompactPlain(style.wording, item.fields[k], path + [k]);
      }
    }
    assert (map k | k in item.fields :: CompactChild(style.wording, item.fields[k], k, path)) == item.fields;
  }

  /**
   * A long leading prompt: its text is replaced by the summary, and the message made for the
   * summary keeps its bare placeholder.
   */
  lemma LongPromptTakesSummary(style: Style, messages: seq<Json>, keep: nat, segments: seq<Segment>,
                               path: seq<string>, message: string)
    requires keep >= 2 && !Skip(path) && LeadEnd(messages) > 0
    requires Field(messages[0], "content").Str? && Long(Field(messages[0], "content").s)
    ensures var out := Finish(style.wording, CutChat(style, messages, keep, segments), path, message);
            |out| > LeadEnd(messages) && out[LeadEnd(messages)] == ChatSummary(style, segments)
            && Field(out[0], "content").Str? && message <= Field(out[0], "content").s
  {
    hide ChatSummary, ChatCut, Skip, Long, IndexPart, CompactChild, Contains, ReplaceFirst, ItemText, Finish, LeadEnd;
    var next, w := CutChat(style, messages, keep, segments), style.wording;
    var compacted := Items(Compact(w, Arr(next), path));
    assert next[0] == messages[0] && WillHold(next[0]);
    assert Landing(next) == 0;
    SummaryLandsThere(w, next, path, message);
    SummaryUntouched(style, segments, path + [IndexPart(LeadEnd(messages))]);
    assert next[LeadEnd(messages)] == ChatSummary(style, segments);
    IndexPartOpen(path, 0);
    PromptFilled(w, messages[0], path + [IndexPart(0)], message);
  }

  lemma PromptFilled(w: Wording, prompt: Json, path: seq<string>, message: string)
    requires !Skip(path) && Field(prompt, "content").Str? && Long(Field(prompt, "content").s)
    ensures Compact(w, prompt, path).Obj?
    ensures var filled := Filled(Compact(w, prompt, path), message);
            Field(filled, "content").Str? && message <= Field(filled, "content").s
  {
    hide Skip, Long, CompactChild, Contains, ItemText, CompactableKey;
    ObjectStays(w, prompt, path);
    TextFieldCompacts(w, prompt, path, "content");
    ItemTextStarts(Compact(w, prompt, path));
  }
}
