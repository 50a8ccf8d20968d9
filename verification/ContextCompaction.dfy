/**
 * Compaction of a request that is too large: old history is cut out behind a summary message, long
 * items and long strings are replaced, and no tool output loses its call on the way.
 */
module ContextCompaction {
  import opened Sequences
  import opened Text
  import opened Json
  import opened ContentText
  import opened OrphanFilter
  import opened TreeCompaction
  import opened InputConversion
  import Cut = HistoryCut

  /** The wording used by the rewrites: stand-in texts and the hand-over note of the summary. */
  datatype Style = Style(wording: Wording, handoff: seq<Segment> -> string)

  // ---------- rewriting one item ----------

  predicate TextPart(part: Json) {
    part.Obj? && (TypeOf(part) == "text" || TypeOf(part) == "input_text" || TypeOf(part) == "output_text")
  }

  /** The first text part takes the new text, later text parts are emptied. */
  function ReplaceParts(parts: seq<Json>, text: string): seq<Json> {
    if parts == [] then []
    else if TextPart(parts[0]) then [Obj(parts[0].fields["text" := Str(text)])] + ReplaceParts(parts[1..], "")
    else [parts[0]] + ReplaceParts(parts[1..], text)
  }

  /** `replaceContentText`. */
  function ReplaceContent(item: Json, text: string): Json
    requires item.Obj?
  {
    var fields := item.fields;
    match Field(item, "content")
    case Str(_) => Obj(fields["content" := Str(text)])
    case Arr(parts) =>
      Obj(fields["content" := Arr(
        if exists i :: 0 <= i < |parts| && TextPart(parts[i]) then ReplaceParts(parts, text)
        else [Obj(map["type" := Str("input_text"), "text" := Str(text)])] + parts)])
    case _ =>
      if "arguments" in fields then Obj(fields["arguments" := Str(text)])
      else if "output" in fields then Obj(fields["output" := Str(text)])
      else Obj(fields["content" := Str(text)])
  }

  /** `compactLargeContent`: a long item keeps only a stand-in. */
  function Shorten(w: Wording, item: Json, origin: string): Json {
    if item.Obj? && |ItemText(item)| >= MIN_RUNES
    then ReplaceContent(item, Replacement(w, origin, ItemText(item)))
    else item
  }

  // ---------- segments ----------

  function ResponseRole(item: Json): string {
    if RoleOf(item) != "" then RoleOf(item)
    else if TypeOf(item) == "function_call_output" then "tool"
    else if TypeOf(item) == "message" then PartsRole(Items(Field(item, "content")))
    else ""
  }

  function PartsRole(parts: seq<Json>): string {
    if parts == [] then ""
    else if TypeOf(parts[0]) == "output_text" then "assistant"
    else if TypeOf(parts[0]) == "input_text" then "user"
    else PartsRole(parts[1..])
  }

  function ChatSegment(message: Json): Segment {
    Segment("chat." + RoleOf(message), RoleOf(message), ItemText(message))
  }

  function ResponseSegment(item: Json): Segment {
    Segment("responses." + TypeOf(item), ResponseRole(item), ItemText(item))
  }

  /** One segment for every item that has text. */
  function Segments(segment: Json -> Segment, items: seq<Json>): seq<Segment> {
    if items == [] then [] else
    var last := items[|items| - 1];
    Segments(segment, items[..|items| - 1]) + if ItemText(last) != "" then [segment(last)] else []
  }

  function SummaryText(style: Style, dropped: seq<Segment>): string {
    if style.handoff(dropped) == "" then PLACEHOLDER else PLACEHOLDER + "\n\n" + style.handoff(dropped)
  }

  function ChatSummary(style: Style, dropped: seq<Segment>): Json {
    Obj(map["role" := Str("user"), "content" := Str(SummaryText(style, dropped))])
  }

  function ResponseSummary(style: Style, dropped: seq<Segment>): Json {
    Obj(map["type" := Str("message"), "role" := Str("user"),
            "content" := Arr([Obj(map["type" := Str("input_text"), "text" := Str(SummaryText(style, dropped))])])])
  }

  // ---------- the cut ----------

  predicate LeadRole(message: Json) {
    RoleOf(message) == "system" || RoleOf(message) == "developer"
  }

  function LeadFlags(messages: seq<Json>): seq<bool> {
    seq(|messages|, i requires 0 <= i < |messages| => LeadRole(messages[i]))
  }

  /** How many messages the leading system/developer run holds. */
  function LeadEnd(messages: seq<Json>): (lead: nat)
    ensures lead <= |messages|
  {
    Cut.RunEnd(LeadFlags(messages), 0)
  }

  /** Where the kept suffix of a chat history starts. */
  function ChatCut(messages: seq<Json>, keep: nat): (cut: nat)
    requires keep >= 2
    ensures cut <= |messages|
  {
    Cut.CutAt(Slots(ChatSlot, messages), LeadEnd(messages), keep)
  }

  function ResponseCut(items: seq<Json>, keep: nat): (cut: nat)
    requires keep >= 2
    ensures cut <= |items|
  {
    Cut.CutAt(Slots(ResponseSlot, items), 0, keep)
  }

  predicate Largest(items: seq<Json>, k: nat) {
    && k < |items|
    && (forall i :: 0 <= i < k ==> |ItemText(items[i])| < |ItemText(items[k])|)
    && (forall i :: k < i < |items| ==> |ItemText(items[i])| <= |ItemText(items[k])|)
  }

  predicate SomeLong(items: seq<Json>) {
    exists i :: 0 <= i < |items| && |ItemText(items[i])| >= MIN_RUNES
  }

  /** Only the largest item was replaced, and its text became the one segment. */
  predicate ShortenedAt(w: Wording, items: seq<Json>, segment: Json -> Segment, next: seq<Json>, dropped: seq<Segment>,
                        k: nat) {
    && Largest(items, k)
    && next == items[k := Shorten(w, items[k], segment(items[k]).origin)]
    && dropped == [segment(items[k])]
  }

  /** Without a cut: the first of the longest items is replaced if some item is long enough. */
  ghost predicate LargestShortened(w: Wording, items: seq<Json>, segment: Json -> Segment,
                                   next: seq<Json>, dropped: seq<Segment>, changed: bool) {
    && (changed <==> SomeLong(items))
    && (!changed ==> next == items && dropped == [])
    && (changed ==> exists k :: ShortenedAt(w, items, segment, next, dropped, k))
  }

  method ShortenLargest(w: Wording, items: seq<Json>, segment: Json -> Segment)
    returns (next: seq<Json>, dropped: seq<Segment>, changed: bool)
    ensures LargestShortened(w, items, segment, next, dropped, changed)
  {
    hide Shorten, ItemText;
    next, dropped, changed := items, [], false;
    var largestIndex, largestLen := -1, 0;
    for i := 0 to |items|
      invariant -1 <= largestIndex < i && (largestIndex < 0 ==> largestLen == 0)
      invariant largestIndex >= 0 ==> largestLen == |ItemText(items[largestIndex])|
      invariant forall j :: 0 <= j < i ==> |ItemText(items[j])| <= largestLen
      invariant forall j :: 0 <= j < largestIndex ==> |ItemText(items[j])| < largestLen
    {
      if |ItemText(items[i])| > largestLen {
        largestIndex, largestLen := i, |ItemText(items[i])|;
      }
    }
    if largestIndex < 0 || largestLen < MIN_RUNES {
      return;
    }
    var item := items[largestIndex];
    next := items[largestIndex := Shorten(w, item, segment(item).origin)];
    dropped := [segment(item)];
    changed := true;
    assert ShortenedAt(w, items, segment, next, dropped, largestIndex);
  }

  /** `compactChatPayload` on a list of messages; callers pass at least two items to keep. */
  method CompactChat(style: Style, messages: seq<Json>, keepItems: nat)
    returns (next: seq<Json>, dropped: seq<Segment>, changed: bool)
    requires keepItems >= 2
    ensures |messages| >= 2 && ChatCut(messages, keepItems) > LeadEnd(messages) ==>
              && dropped == Segments(ChatSegment, messages[LeadEnd(messages)..ChatCut(messages, keepItems)])
              && next == messages[..LeadEnd(messages)] + [ChatSummary(style, dropped)]
                  + messages[ChatCut(messages, keepItems)..]
              && (changed <==> dropped != [])
    ensures |messages| < 2 || ChatCut(messages, keepItems) <= LeadEnd(messages) ==>
              LargestShortened(style.wording, messages, ChatSegment, next, dropped, changed)
  {
    hide Shorten, ItemText, ChatSlot, LeadRole, LargestShortened;
    if |messages| < 2 {
      next, dropped, changed := ShortenLargest(style.wording, messages, ChatSegment);
      return;
    }
    var leadEnd := 0;
    while leadEnd < |messages|
      invariant leadEnd <= |messages| && forall i :: 0 <= i < leadEnd ==> LeadRole(messages[i])
    {
      if !LeadRole(messages[leadEnd]) {
        break;
      }
      leadEnd := leadEnd + 1;
    }
    ghost var flags := LeadFlags(messages);
    assert forall i :: 0 <= i < leadEnd ==> flags[i];
    assert leadEnd < |messages| ==> !flags[leadEnd];
    assert leadEnd == LeadEnd(messages);
    ghost var slots := Slots(ChatSlot, messages);
    var keepStart: int := |messages| - keepItems;
    if keepStart < leadEnd {
      keepStart := leadEnd;
    }
    while keepStart > leadEnd && ChatSlot(messages[keepStart]).needs
      invariant leadEnd <= keepStart <= |messages| && (keepStart == |messages| ==> keepStart == leadEnd)
      invariant Cut.BackUp(slots, leadEnd, keepStart) == ChatCut(messages, keepItems)
    {
      keepStart := keepStart - 1;
    }
    assert keepStart == ChatCut(messages, keepItems);
    if keepStart <= leadEnd {
      next, dropped, changed := ShortenLargest(style.wording, messages, ChatSegment);
      return;
    }
    dropped := TextSegments(ChatSegment, messages[leadEnd..keepStart]);
    next := messages[..leadEnd] + [ChatSummary(style, dropped)] + messages[keepStart..];
    changed := |dropped| > 0;
  }

  /** The loop that collects the text of the dropped items. */
  method TextSegments(segment: Json -> Segment, items: seq<Json>) returns (dropped: seq<Segment>)
    ensures dropped == Segments(segment, items)
  {
    hide ItemText;
    dropped := [];
    for i := 0 to |items|
      invariant dropped == Segments(segment, items[..i])
    {
      assert items[..i + 1][..i] == items[..i];
      if ItemText(items[i]) != "" {
        dropped := dropped + [segment(items[i])];
      }
    }
    assert items[..|items|] == items;
  }

  predicate Recent(item: Json) {
    item.Obj? && !Contains(ItemText(item), PLACEHOLDER) && |ItemText(item)| >= MIN_RUNES
  }

  function RecentSegment(item: Json): Segment {
    Segment("responses.recent." + TypeOf(item), ResponseRole(item), ItemText(item))
  }

  function ShortenRecent(w: Wording, item: Json): Json {
    if Recent(item) then Shorten(w, item, RecentSegment(item).origin) else item
  }

  /** The segments of the long items among those kept, in order. */
  function RecentSegments(items: seq<Json>): seq<Segment> {
    if items == [] then [] else
    var last := items[|items| - 1];
    RecentSegments(items[..|items| - 1]) + if Recent(last) then [RecentSegment(last)] else []
  }

  /** `compactLargeResponsesItems`: the kept items that are long are shortened as well. */
  method ShortenKept(w: Wording, items: seq<Json>, dropped0: seq<Segment>)
    returns (next: seq<Json>, dropped: seq<Segment>)
    ensures |next| == |items| && forall i :: 0 <= i < |items| ==> next[i] == ShortenRecent(w, items[i])
    ensures dropped == dropped0 + RecentSegments(items)
  {
    hide Shorten, Recent, RecentSegment;
    next, dropped := items, dropped0;
    for i := 0 to |items|
      invariant |next| == |items| && forall j :: 0 <= j < i ==> next[j] == ShortenRecent(w, items[j])
      invariant forall j :: i <= j < |items| ==> next[j] == items[j]
      invariant dropped == dropped0 + RecentSegments(items[..i])
    {
      assert items[..i + 1][..i] == items[..i];
      if Recent(items[i]) {
        ConcatAssociates(dropped0, RecentSegments(items[..i]), [RecentSegment(items[i])]);
        dropped := dropped + [RecentSegment(items[i])];
      }
      next := next[i := ShortenRecent(w, items[i])];
    }
    assert items[..|items|] == items;
  }

  /** The items before the cut gave way to one summary; those behind it are kept, the long ones shortened. */
  predicate CutOut(style: Style, items: seq<Json>, cut: nat, next: seq<Json>, dropped: seq<Segment>) {
    && cut <= |items| && |next| == 1 + |items| - cut
    && next[0] == ResponseSummary(style, Segments(ResponseSegment, items[..cut]))
    && (forall i :: 1 <= i < |next| ==> next[i] == ShortenRecent(style.wording, items[cut + i - 1]))
    && dropped == Segments(ResponseSegment, items[..cut]) + RecentSegments(items[cut..])
  }

  /** `compactResponsesPayload` on a list of items, up to the summary text. */
  method CompactResponses(style: Style, items: seq<Json>, keepItems: nat)
    returns (next: seq<Json>, dropped: seq<Segment>, changed: bool)
    requires keepItems >= 2
    ensures ResponseCut(items, keepItems) > 0 ==>
              CutOut(style, items, ResponseCut(items, keepItems), next, dropped) && (changed <==> dropped != [])
    ensures ResponseCut(items, keepItems) == 0 ==>
              LargestShortened(style.wording, items, ResponseSegment, next, dropped, changed)
  {
    hide Shorten, ItemText, ResponseSlot, ShortenRecent, ResponseSegment, LargestShortened;
    if |items| < 2 {
      assert ResponseCut(items, keepItems) == 0;
      next, dropped, changed := ShortenLargest(style.wording, items, ResponseSegment);
      return;
    }
    ghost var slots := Slots(ResponseSlot, items);
    var keepStart: int := |items| - keepItems;
    if keepStart < 0 {
      keepStart := 0;
    }
    while keepStart > 0 && ResponseSlot(items[keepStart]).needs
      invariant 0 <= keepStart < |items|
      invariant Cut.BackUp(slots, 0, keepStart) == ResponseCut(items, keepItems)
    {
      keepStart := keepStart - 1;
    }
    if keepStart == 0 {
      next, dropped, changed := ShortenLargest(style.wording, items, ResponseSegment);
      return;
    }
    dropped := TextSegments(ResponseSegment, items[..keepStart]);
    var summary := ResponseSummary(style, dropped);
    var kept;
    kept, dropped := ShortenKept(style.wording, items[keepStart..], dropped);
    next := [summary] + kept;
    changed := |dropped| > 0;
  }

  /** `compactResponsesPayload`: the input may also be one text, or nothing that can be compacted. */
  method CompactResponsesInput(style: Style, input: Json, keepItems: nat)
    returns (next: Json, dropped: seq<Segment>, changed: bool)
    requires keepItems >= 2
    ensures !changed && !input.Arr? ==> next == input && dropped == []
    ensures input.Str? ==> (changed <==> |input.s| >= MIN_RUNES)
    ensures input.Str? && changed ==> next == Str(Replacement(style.wording, "responses.input", input.s))
    ensures input.Str? && changed ==> dropped == [Segment("responses.input", "user", input.s)]
    ensures !input.Str? && !input.Arr? ==> !changed
    ensures input.Arr? ==> next.Arr?
    ensures input.Arr? && ResponseCut(input.items, keepItems) == 0 ==>
              LargestShortened(style.wording, input.items, ResponseSegment, next.items, dropped, changed)
    ensures input.Arr? && ResponseCut(input.items, keepItems) > 0 ==>
              CutOut(style, input.items, ResponseCut(input.items, keepItems), next.items, dropped)
                  && (changed <==> dropped != [])
  {
    hide CutOut, LargestShortened, ResponseCut;
    match input
    case Str(text) =>
      if |text| < MIN_RUNES {
        return input, [], false;
      }
      dropped := [Segment("responses.input", "user", text)];
      next := Str(Replacement(style.wording, "responses.input", text));
      changed := true;
    case Arr(items) =>
      var list;
      list, dropped, changed := CompactResponses(style, items, keepItems);
      next := Arr(list);
    case _ =>
      return input, [], false;
  }
}
