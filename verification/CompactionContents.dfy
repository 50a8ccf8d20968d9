/** What a compaction does to single items: what is collected of them, under which role, and what stands in for it. */
module CompactionContents {
  import opened Text
  import opened Json
  import opened Settling
  import opened ContentText
  import opened TreeCompaction
  import opened InputConversion
  import opened ContextCompaction
  import Contents = InputContents
  import Cut = HistoryCut

  // ---------- the text of an item ----------

  function TextIf(text: string): seq<string> {
    if text == "" then [] else [text]
  }

  /** An item's text: its content, arguments and output, each on its own line, the missing ones left out. */
  lemma ItemTextIs(item: Json)
    requires item.Obj?
    ensures ItemText(item)
         == Trim(Join(TextIf(Contents.ResultText(Field(item, "content")))
                      + TextIf(Contents.TextUnder(item, "arguments"))
                      + TextIf(Contents.TextUnder(item, "output")), "\n"))
  {
    hide Trim, Join, PartTexts, Contents.ListTexts;
    var content := Field(item, "content");
    Contents.FirstOfTwo(Contents.TextUnder(content, "text"), Contents.TextUnder(content, "input_text"));
    if content.Arr? { Contents.ListTextsRead(content.items); }
  }

  // ---------- what is collected ----------

  /** Every item that has text gives one segment, in order. */
  lemma {:induction false} SegmentsAre(segment: Json -> Segment, items: seq<Json>)
    ensures Segments(segment, items) == Concat(item => if ItemText(item) == "" then [] else [segment(item)], items)
  {
    hide ItemText;
    if items != [] {
      var init, last := items[..|items| - 1], items[|items| - 1];
      assert items == init + [last];
      SegmentsAre(segment, init);
      ConcatSnoc(item => if ItemText(item) == "" then [] else [segment(item)], init, last);
    }
  }

  /** A long item that does not stand for compacted text already. */
  predicate LongAndOwn(item: Json) {
    item.Obj? && |ItemText(item)| >= 4000 && !Contains(ItemText(item), "[gateway_context_summary]")
  }

  lemma {:induction false} RecentSegmentsAre(items: seq<Json>)
    ensures RecentSegments(items) == Concat(item => if LongAndOwn(item) then [RecentSegment(item)] else [], items)
    ensures forall w, item :: ShortenRecent(w, item)
              == if LongAndOwn(item) then Shorten(w, item, RecentSegment(item).origin) else item
  {
    hide ItemText, Contains, RecentSegment, Shorten;
    assert forall item :: Recent(item) == LongAndOwn(item);
    if items != [] {
      var init, last := items[..|items| - 1], items[|items| - 1];
      assert items == init + [last];
      RecentSegmentsAre(init);
      ConcatSnoc(item => if LongAndOwn(item) then [RecentSegment(item)] else [], init, last);
    }
  }

  /** The speaker the first part of a list names: output text is the assistant's, input text the user's. */
  function PartsSpeaker(parts: seq<Json>): string {
    if parts == [] then "" else
    var kind := Contents.TextUnder(parts[0], "type");
    if kind == "output_text" then "assistant" else if kind == "input_text" then "user" else PartsSpeaker(parts[1..])
  }

  lemma {:induction false} PartsSpeakerIs(parts: seq<Json>)
    ensures PartsRole(parts) == PartsSpeaker(parts)
  {
    hide Trim;
    if parts != [] { PartsSpeakerIs(parts[1..]); }
  }

  /** Under which role and origin the text of an item is kept. */
  lemma SegmentsNameTheSpeaker(item: Json)
    ensures ChatSegment(item) == Segment("chat." + Contents.TextUnder(item, "role"), Contents.TextUnder(item, "role"),
                                         ItemText(item))
    ensures var kind, role := Contents.TextUnder(item, "type"), Contents.TextUnder(item, "role");
            var speaker := if role != "" then role else if kind == "function_call_output" then "tool"
                           else if kind == "message" then PartsSpeaker(Items(Field(item, "content"))) else "";
            && ResponseSegment(item) == Segment("responses." + kind, speaker, ItemText(item))
            && RecentSegment(item) == Segment("responses.recent." + kind, speaker, ItemText(item))
  {
    hide Trim, ItemText, PartsRole, PartsSpeaker;
    PartsSpeakerIs(Items(Field(item, "content")));
  }

  // ---------- what stands in for a long text ----------

  predicate TextKind(part: Json)
    ensures TextKind(part) ==> part.Obj?
  {
    part.Obj? && (Contents.TextUnder(part, "type") == "text" || Contents.TextUnder(part, "type") == "input_text"
                  || Contents.TextUnder(part, "type") == "output_text")
  }

  predicate FirstTextAt(parts: seq<Json>, k: nat) {
    k < |parts| && TextKind(parts[k]) && forall i :: 0 <= i < k ==> !TextKind(parts[i])
  }

  /** The first text part takes the text, the later ones are emptied, and nothing else changes. */
  predicate Replaced(parts: seq<Json>, next: seq<Json>, k: nat, text: string) {
    && |next| == |parts|
    && forall i :: 0 <= i < |parts| ==>
         if TextKind(parts[i]) && i >= k
         then next[i] == Obj(parts[i].fields["text" := Str(if i == k then text else "")]) else next[i] == parts[i]
  }

  lemma {:induction false} Emptied(parts: seq<Json>)
    ensures |ReplaceParts(parts, "")| == |parts|
    ensures forall i :: 0 <= i < |parts| ==>
              ReplaceParts(parts, "")[i]
              == if TextKind(parts[i]) then Obj(parts[i].fields["text" := Str("")]) else parts[i]
    decreases |parts|
  {
    hide Trim;
    if parts != [] {
      Emptied(parts[1..]);
      assert forall i :: 1 <= i < |parts| ==> parts[i] == parts[1..][i - 1];
    }
  }

  lemma ReplacedBehind(first: Json, rest: seq<Json>, next: seq<Json>, k: nat, text: string)
    requires !TextKind(first) && Replaced(rest, next, k, text)
    ensures Replaced([first] + rest, [first] + next, k + 1, text)
  {
    hide TextKind;
    var parts, all := [first] + rest, [first] + next;
    assert forall i :: 1 <= i < |parts| ==> parts[i] == rest[i - 1] && all[i] == next[i - 1];
  }

  lemma {:induction false} PartsReplaced(parts: seq<Json>, text: string, k: nat)
    requires FirstTextAt(parts, k)
    ensures Replaced(parts, ReplaceParts(parts, text), k, text)
    decreases |parts|
  {
    hide TextKind, TextPart, Replaced;
    var first, rest := parts[0], parts[1..];
    assert parts == [first] + rest;
    SameKinds(first);
    assert forall i :: 0 <= i < |rest| ==> rest[i] == parts[i + 1];
    if k == 0 {
      Emptied(rest);
      FirstReplaced(first, rest, text);
    } else {
      assert FirstTextAt(rest, k - 1);
      PartsReplaced(rest, text, k - 1);
      ReplacedBehind(first, rest, ReplaceParts(rest, text), k - 1, text);
    }
  }

  lemma FirstReplaced(first: Json, rest: seq<Json>, text: string)
    requires TextKind(first)
    ensures Replaced([first] + rest, [Obj(first.fields["text" := Str(text)])] + ReplaceParts(rest, ""), 0, text)
  {
    hide TextKind, TextPart, ReplaceParts;
    Emptied(rest);
    var parts, all := [first] + rest, [Obj(first.fields["text" := Str(text)])] + ReplaceParts(rest, "");
    assert forall i :: 1 <= i < |parts| ==> parts[i] == rest[i - 1] && all[i] == ReplaceParts(rest, "")[i - 1];
  }

  lemma SameKinds(part: Json)
    ensures TextPart(part) == TextKind(part)
  {
  }

  lemma {:induction false} SomeFirstText(parts: seq<Json>) returns (k: nat)
    requires exists i :: 0 <= i < |parts| && TextPart(parts[i])
    ensures FirstTextAt(parts, k)
    decreases |parts|
  {
    hide TextPart, TextKind;
    SameKinds(parts[0]);
    assert forall i :: 1 <= i < |parts| ==> parts[i] == parts[1..][i - 1];
    if TextPart(parts[0]) {
      k := 0;
    } else {
      var j := SomeFirstText(parts[1..]);
      k := j + 1;
    }
  }

  /** The content field after a long item was shortened. */
  ghost predicate ContentReplaced(before: Json, after: Json, text: string) {
    match before
    case Str(_) => after == Str(text)
    case Arr(parts) =>
      after.Arr? &&
      if exists i :: 0 <= i < |parts| && TextKind(parts[i])
      then exists k: nat :: FirstTextAt(parts, k) && Replaced(parts, after.items, k, text)
      else after.items == [Obj(map["type" := Str("input_text"), "text" := Str(text)])] + parts
    case _ => after == Str(text)
  }

  /** Where the stand-in goes: into text or list content, else into arguments or output, else into new content. */
  function StandInField(item: Json): string {
    if Field(item, "content").Str? || Field(item, "content").Arr? then "content"
    else if item.Obj? && "arguments" in item.fields then "arguments"
    else if item.Obj? && "output" in item.fields then "output" else "content"
  }

  /** Shortening changes that one field of a long item, and no other item. */
  lemma ShortenChanges(w: Wording, item: Json, origin: string)
    ensures !item.Obj? || |ItemText(item)| < 4000 ==> Shorten(w, item, origin) == item
    ensures item.Obj? && |ItemText(item)| >= 4000 ==>
              ShortenedBy(item, Shorten(w, item, origin),
                          "[gateway_context_summary]\n\n" + w.anchor(origin, ItemText(item)))
  {
    hide ItemText, ReplaceContent;
    if item.Obj? && |ItemText(item)| >= 4000 {
      ReplaceChanges(item, "[gateway_context_summary]\n\n" + w.anchor(origin, ItemText(item)));
      assert PLACEHOLDER + "\n\n" == "[gateway_context_summary]\n\n";
    }
  }

  ghost predicate ShortenedBy(item: Json, next: Json, text: string) {
    && item.Obj? && next.Obj?
    && next.fields == item.fields[StandInField(item) := Field(next, StandInField(item))]
    && if StandInField(item) == "content" then ContentReplaced(Field(item, "content"), Field(next, "content"), text)
       else Field(next, StandInField(item)) == Str(text)
  }

  lemma ReplaceChanges(item: Json, text: string)
    requires item.Obj?
    ensures ShortenedBy(item, ReplaceContent(item, text), text)
  {
    hide TextPart, TextKind, ReplaceParts;
    var content := Field(item, "content");
    if content.Arr? {
      var parts := content.items;
      forall i | 0 <= i < |parts| ensures TextPart(parts[i]) == TextKind(parts[i]) { SameKinds(parts[i]); }
      if exists i :: 0 <= i < |parts| && TextPart(parts[i]) {
        var k := SomeFirstText(parts);
        PartsReplaced(parts, text, k);
      }
    }
  }

  // ---------- the summary and the cut ----------

  /** The message that stands for what was cut: the user's, with the placeholder and the hand-over note. */
  lemma SummariesAre(style: Style, dropped: seq<Segment>)
    ensures var note := style.handoff(dropped);
            var text := if note == "" then "[gateway_context_summary]" else "[gateway_context_summary]\n\n" + note;
            && ChatSummary(style, dropped) == Obj(map["role" := Str("user"), "content" := Str(text)])
            && ResponseSummary(style, dropped)
               == Obj(map["type" := Str("message"), "role" := Str("user"),
                          "content" := Arr([Obj(map["type" := Str("input_text"), "text" := Str(text)])])])
  {
    assert PLACEHOLDER + "\n\n" == "[gateway_context_summary]\n\n";
  }

  /** The leading messages are those of system and developer before the first of anyone else. */
  lemma LeadIs(messages: seq<Json>)
    ensures LeadEnd(messages) <= |messages|
    ensures forall i :: 0 <= i < LeadEnd(messages) ==>
              Contents.TextUnder(messages[i], "role") in ["system", "developer"]
    ensures LeadEnd(messages) < |messages| ==>
              Contents.TextUnder(messages[LeadEnd(messages)], "role") !in ["system", "developer"]
  {
    hide Trim;
    assert forall i :: 0 <= i < |messages| ==> LeadFlags(messages)[i] == LeadRole(messages[i]);
  }

  /** A tool result, in a chat or in a Responses list, which must not come first. */
  predicate ToolResult(chat: bool, item: Json) {
    if chat then Contents.TextUnder(item, "role") == "tool"
    else Contents.TextUnder(item, "type") == "function_call_output"
  }

  /** The last place at or below `top`, and behind `lead`, that is no tool result; or `lead`. */
  predicate CutsAt(items: seq<Json>, chat: bool, cut: nat, lead: nat, top: int) {
    && lead <= cut <= |items| && cut <= (if top < lead then lead else top)
    && (cut > lead ==> cut < |items| && !ToolResult(chat, items[cut]))
    && forall i :: cut < i <= top && i < |items| ==> ToolResult(chat, items[i])
  }

  /**
   * Where the cut falls: as close before the kept items as possible, but never right before a tool
   * result, and not into the leading messages.
   */
  lemma CutsAre(items: seq<Json>, keep: nat)
    requires keep >= 2
    ensures CutsAt(items, true, ChatCut(items, keep), LeadEnd(items), |items| - keep)
    ensures CutsAt(items, false, ResponseCut(items, keep), 0, |items| - keep)
  {
    hide Trim, LeadEnd, Contents.TextUnder, StringValue;
    var chat, responses := Slots(ChatSlot, items), Slots(ResponseSlot, items);
    forall i | 0 <= i < |items|
      ensures chat[i].needs == ToolResult(true, items[i]) && responses[i].needs == ToolResult(false, items[i]) {
      SlotNeeds(items[i]);
    }
  }

  lemma SlotNeeds(item: Json)
    ensures ChatSlot(item).needs == ToolResult(true, item) && ResponseSlot(item).needs == ToolResult(false, item)
  {
    hide Trim;
  }
}
