/** From a large request to the upstream input: compaction never costs a tool output its call. */
module CompactionPairing {
  import opened Wrappers
  import opened Text
  import opened Json
  import opened ContentText
  import opened OrphanFilter
  import opened TreeCompaction
  import opened InputConversion
  import opened ContextCompaction
  import Cut = HistoryCut

  // ---------- the summary text is filled in last ----------

  /** `strings.Replace(s, old, new, 1)` for a non-empty `from`. */
  function ReplaceFirst(s: string, from: string, to: string): string {
    if HasPrefix(s, from) then to + s[|from|..]
    else if s == "" then ""
    else [s[0]] + ReplaceFirst(s[1..], from, to)
  }

  predicate OccursAt(s: string, from: string, i: nat) {
    i <= |s| && from <= s[i..]
  }

  lemma OccursBehind(s: string, from: string)
    requires s != ""
    ensures forall i: nat :: OccursAt(s[1..], from, i) == OccursAt(s, from, i + 1)
  {
    forall i: nat | i < |s| ensures s[1..][i..] == s[i + 1..] {
    }
  }

  /** The first occurrence gives way and everything around it stays; without one nothing changes. */
  lemma {:induction false} ReplaceFirstIs(s: string, from: string, to: string, i: nat)
    requires from != "" && forall k: nat :: k < i ==> !OccursAt(s, from, k)
    ensures OccursAt(s, from, i) ==> ReplaceFirst(s, from, to) == s[..i] + to + s[i + |from|..]
    ensures i > |s| ==> ReplaceFirst(s, from, to) == s
    decreases |s|
  {
    assert s[0..] == s;
    if i == 0 {
      assert s[..0] == "" && "" + to == to;
    } else {
      assert !OccursAt(s, from, 0);
      if s != "" {
        OccursBehind(s, from);
        ReplaceFirstIs(s[1..], from, to, i - 1);
        if OccursAt(s, from, i) { Prepended(s, to, i, |from|); }
      }
    }
  }

  lemma Prepended(s: string, to: string, i: nat, n: nat)
    requires 0 < i && i + n <= |s|
    ensures [s[0]] + (s[1..][..i - 1] + to + s[1..][i - 1 + n..]) == s[..i] + to + s[i + n..]
  {
    assert s[..i] == [s[0]] + s[1..][..i - 1] && s[1..][i - 1 + n..] == s[i + n..];
  }

  /** `insertGatewayContextSummary` on a list: the first item with the placeholder gets the summary. */
  function InsertSummary(items: seq<Json>, message: string): seq<Json> {
    if items == [] then []
    else if items[0].Obj? && Contains(ItemText(items[0]), PLACEHOLDER) then
      [ReplaceContent(items[0], ReplaceFirst(ItemText(items[0]), PLACEHOLDER, message))] + items[1..]
    else [items[0]] + InsertSummary(items[1..], message)
  }

  // ---------- links survive every rewrite ----------

  /** The fields that link calls and outputs read the same in both items. */
  predicate SameLinks(a: Json, b: Json) {
    && TypeOf(a) == TypeOf(b) && RoleOf(a) == RoleOf(b)
    && FirstString(a, "call_id", "tool_call_id") == FirstString(b, "call_id", "tool_call_id")
    && FirstString(a, "tool_call_id", "call_id") == FirstString(b, "tool_call_id", "call_id")
    && CallName(a) == CallName(b) && CalledId(a) == CalledId(b)
    && ValidCallIds(Items(Field(a, "tool_calls"))) == ValidCallIds(Items(Field(b, "tool_calls")))
  }

  lemma SameSlots(a: Json, b: Json)
    requires SameLinks(a, b)
    ensures ResponseSlot(a) == ResponseSlot(b) && ChatSlot(a) == ChatSlot(b)
  {
    hide TypeOf, RoleOf, FirstString, CallName, CalledId, ValidCallIds;
  }

  /** Changing a field that holds text leaves every link alone. */
  lemma TextFieldKeepsLinks(item: Json, key: string, value: Json)
    requires item.Obj? && (key == "content" || key == "arguments" || key == "output")
    ensures SameLinks(item, Obj(item.fields[key := value]))
  {
    hide StringValue, ValidCallIds;
  }

  lemma ReplaceContentKeepsLinks(item: Json, text: string)
    requires item.Obj?
    ensures SameLinks(item, ReplaceContent(item, text))
  {
    hide SameLinks, ReplaceParts, TextPart;
    var parts := Items(Field(item, "content"));
    var next := if exists i :: 0 <= i < |parts| && TextPart(parts[i]) then ReplaceParts(parts, text)
                else [Obj(map["type" := Str("input_text"), "text" := Str(text)])] + parts;
    TextFieldKeepsLinks(item, "content", Str(text));
    TextFieldKeepsLinks(item, "content", Arr(next));
    TextFieldKeepsLinks(item, "arguments", Str(text));
    TextFieldKeepsLinks(item, "output", Str(text));
  }

  lemma SelfLinked(a: Json)
    ensures SameLinks(a, a)
  {
  }

  lemma ShortenKeepsLinks(w: Wording, item: Json, origin: string)
    ensures SameLinks(item, Shorten(w, item, origin))
  {
    hide SameLinks, ReplaceContent, Replacement;
    SelfLinked(item);
    if item.Obj? {
      ReplaceContentKeepsLinks(item, Replacement(w, origin, ItemText(item)));
    }
  }

  lemma ShortenRecentKeepsLinks(w: Wording, item: Json)
    ensures SameLinks(item, ShortenRecent(w, item))
  {
    hide SameLinks, Shorten, Recent, RecentSegment;
    SelfLinked(item);
    ShortenKeepsLinks(w, item, RecentSegment(item).origin);
  }

  /** A key whose strings compaction never touches. */
  predicate LinkKey(key: string) {
    key == "type" || key == "role" || key == "call_id" || key == "tool_call_id" || key == "id" || key == "name"
  }

  lemma LinkKeyNotCompactable(key: string)
    requires LinkKey(key)
    ensures !CompactableKey(key)
  {
    hide Trim;
    TrimFixed(key);
  }

  lemma LinkFieldKept(w: Wording, item: Json, path: seq<string>, key: string)
    requires LinkKey(key)
    ensures StringValue(Field(Compact(w, item, path), key)) == StringValue(Field(item, key))
  {
    hide CompactableKey, Skip, Trim, CompactText, LinkKey;
    LinkKeyNotCompactable(key);
    if item.Obj? && key in item.fields {
      CompactKeepsKind(w, item.fields[key], path + [key]);
      if item.fields[key].Str? { CompactPlain(w, item.fields[key], path + [key]); }
    }
  }

  lemma CallLinksKept(w: Wording, call: Json, path: seq<string>)
    ensures CalledId(Compact(w, call, path)) == CalledId(call)
    ensures CallName(Compact(w, call, path)) == CallName(call)
  {
    hide CompactableKey, Skip, StringValue, CompactText;
    LinkFieldKept(w, call, path, "call_id");
    LinkFieldKept(w, call, path, "id");
    LinkFieldKept(w, call, path, "name");
    FieldCompacts(w, call, path, "function");
    if Field(Compact(w, call, path), "function") != Field(call, "function") {
      LinkFieldKept(w, Field(call, "function"), path + ["function"], "name");
    }
  }

  /** A field that is no text key is left alone or compacted as a whole. */
  lemma FieldCompacts(w: Wording, item: Json, path: seq<string>, key: string)
    requires key == "function" || key == "tool_calls"
    ensures Field(Compact(w, item, path), key) == Field(item, key)
         || Field(Compact(w, item, path), key) == Compact(w, Field(item, key), path + [key])
  {
    hide Skip, CompactText, Trim;
    TrimFixed(key);
  }

  lemma ToolCallsKept(w: Wording, calls: Json, path: seq<string>)
    ensures ValidCallIds(Items(Compact(w, calls, path))) == ValidCallIds(Items(calls))
  {
    hide CallName, CalledId, CompactChild, IndexPart;
    if calls.Arr? {
      var next := Compact(w, calls, path).items;
      forall i | 0 <= i < |calls.items|
        ensures CalledId(next[i]) == CalledId(calls.items[i]) && CallName(next[i]) == CallName(calls.items[i]) {
        CallLinksKept(w, calls.items[i], path + [IndexPart(i)]);
      }
    }
  }

  lemma CompactKeepsLinks(w: Wording, item: Json, path: seq<string>)
    ensures SameLinks(item, Compact(w, item, path))
  {
    hide Compact, StringValue, ValidCallIds, CallName, CalledId, LinkKey;
    forall key | LinkKey(key) ensures StringValue(Field(Compact(w, item, path), key)) == StringValue(Field(item, key)) {
      LinkFieldKept(w, item, path, key);
    }
    LinkKeys();
    CallLinksKept(w, item, path);
    FieldCompacts(w, item, path, "tool_calls");
    ToolCallsKept(w, Field(item, "tool_calls"), path + ["tool_calls"]);
  }

  lemma LinkKeys()
    ensures LinkKey("type") && LinkKey("role") && LinkKey("call_id") && LinkKey("tool_call_id")
  {
  }

  lemma {:induction false} InsertKeepsLinks(items: seq<Json>, message: string)
    ensures |InsertSummary(items, message)| == |items|
    ensures forall i :: 0 <= i < |items| ==> SameLinks(items[i], InsertSummary(items, message)[i])
    decreases |items|
  {
    hide SameLinks, ReplaceContent, ItemText, ReplaceFirst, Contains;
    forall i | 0 <= i < |items| ensures SameLinks(items[i], items[i]) {
      SelfLinked(items[i]);
    }
    if items != [] {
      if items[0].Obj? && Contains(ItemText(items[0]), PLACEHOLDER) {
        ReplaceContentKeepsLinks(items[0], ReplaceFirst(ItemText(items[0]), PLACEHOLDER, message));
      } else {
        InsertKeepsLinks(items[1..], message);
      }
    }
  }

  // ---------- the finished request ----------

  /** After the cut: compact the long strings of the whole payload, then fill in the summary. */
  function Finish(w: Wording, items: seq<Json>, path: seq<string>, message: string): seq<Json> {
    InsertSummary(Items(Compact(w, Arr(items), path)), message)
  }

  lemma FinishKeepsSlots(w: Wording, items: seq<Json>, path: seq<string>, message: string, slot: Json -> Cut.Item)
    requires slot == ResponseSlot || slot == ChatSlot
    ensures Slots(slot, Finish(w, items, path, message)) == Slots(slot, items)
  {
    hide SameLinks, ResponseSlot, ChatSlot, CompactChild, IndexPart;
    var compacted := Items(Compact(w, Arr(items), path));
    InsertKeepsLinks(compacted, message);
    forall i | 0 <= i < |items| ensures slot(Finish(w, items, path, message)[i]) == slot(items[i]) {
      CompactKeepsLinks(w, items[i], path + [IndexPart(i)]);
      SameSlots(items[i], compacted[i]);
      SameSlots(compacted[i], InsertSummary(compacted, message)[i]);
    }
  }

  /** An item that neither calls nor answers. */
  predicate Plain(slot: Cut.Item) {
    slot.answers.None? && slot.calls == {}
  }

  /** Plain items in front change nothing about pairing. */
  lemma PlainPrefix(front: seq<Cut.Item>, rest: seq<Cut.Item>)
    requires forall i :: 0 <= i < |front| ==> Plain(front[i])
    ensures Cut.Paired(front + rest) <==> Cut.Paired(rest)
  {
    var all := front + rest;
    if Cut.Paired(rest) {
      forall i | 0 <= i < |all| && all[i].answers.Some?
        ensures exists j :: 0 <= j < i && all[i].answers.value in all[j].calls {
        assert all[i] == rest[i - |front|];
        var j :| 0 <= j < i - |front| && rest[i - |front|].answers.value in rest[j].calls;
        assert all[|front| + j] == rest[j];
      }
    }
    if Cut.Paired(all) {
      forall i | 0 <= i < |rest| && rest[i].answers.Some?
        ensures exists j :: 0 <= j < i && rest[i].answers.value in rest[j].calls {
        assert all[|front| + i] == rest[i];
        var j :| 0 <= j < |front| + i && all[|front| + i].answers.value in all[j].calls;
        assert j >= |front| && all[j] == rest[j - |front|];
      }
    }
  }

  lemma ResponseSummaryPlain(style: Style, segments: seq<Segment>)
    ensures Plain(ResponseSlot(ResponseSummary(style, segments)))
  {
    hide Trim, SummaryText;
    TrimFixed("message");
    assert |"message"| == 7 && |"function_call"| == 13 && |"function_call_output"| == 20;
  }

  lemma ChatSummaryPlain(style: Style, segments: seq<Segment>)
    ensures Plain(ChatSlot(ChatSummary(style, segments)))
  {
    hide Trim, SummaryText;
    TrimFixed("user");
    assert "user"[0] != "tool"[0] && |"assistant"| == 9;
  }

  lemma SlotConverses(item: Json)
    ensures var s := ResponseSlot(item); (s.answers.Some? ==> s.needs) && (s.needs ==> s.calls == {})
    ensures var s := ChatSlot(item); (s.answers.Some? ==> s.needs) && (s.needs ==> s.calls == {})
  {
    hide TypeOf, RoleOf, FirstString, CallName, CalledId, ValidCallIds;
    assert |"function_call"| != |"function_call_output"| && |"tool"| != |"assistant"|;
  }

  lemma ResponseSlotsConverse(items: seq<Json>)
    ensures Cut.Conversation(Slots(ResponseSlot, items)) && Cut.Conversation(Slots(ChatSlot, items))
  {
    hide ResponseSlot, ChatSlot;
    forall i | 0 <= i < |items| {
      SlotConverses(items[i]);
    }
  }

  lemma SlotsSuffix(slot: Json -> Cut.Item, items: seq<Json>, cut: nat)
    requires cut <= |items|
    ensures Slots(slot, items)[cut..] == Slots(slot, items[cut..])
  {
  }

  lemma SlotsConcat(slot: Json -> Cut.Item, xs: seq<Json>, ys: seq<Json>)
    ensures Slots(slot, xs + ys) == Slots(slot, xs) + Slots(slot, ys)
  {
  }

  lemma CutOutSlots(style: Style, items: seq<Json>, cut: nat, next: seq<Json>, dropped: seq<Segment>)
    requires CutOut(style, items, cut, next, dropped)
    ensures cut <= |items| && |next| > 0
    ensures next == [ResponseSummary(style, Segments(ResponseSegment, items[..cut]))] + next[1..]
    ensures Slots(ResponseSlot, next[1..]) == Slots(ResponseSlot, items[cut..])
  {
    hide ResponseSlot, ShortenRecent, ResponseSummary, Segments;
    forall i | 0 <= i < |next| - 1 ensures ResponseSlot(next[1..][i]) == ResponseSlot(items[cut..][i]) {
      assert next[1..][i] == next[i + 1] && items[cut..][i] == items[cut + i];
      ShortenRecentKeepsLinks(style.wording, items[cut + i]);
      SameSlots(items[cut + i], ShortenRecent(style.wording, items[cut + i]));
    }
  }

  /** The last two rewrites decide nothing: the filter's verdict is the pairing of the list before them. */
  lemma FinishedDropsNothingIff(one: Json -> Option<seq<Json>>, slot: Json -> Cut.Item, w: Wording, next: seq<Json>,
                                path: seq<string>, message: string)
    requires slot == ResponseSlot || slot == ChatSlot
    requires Faithful(one, slot) && Convert(one, Finish(w, next, path, message)).Some?
    ensures DropsNothing(one, Finish(w, next, path, message)) <==> Cut.Paired(Slots(slot, next))
  {
    hide Finish, Filter, Convert, Faithful, Slots, Cut.Paired;
    FinishKeepsSlots(w, next, path, message, slot);
    NothingDroppedIffPaired(one, slot, Finish(w, next, path, message));
  }

  /** The orphan filter leaves the converted list as it is. */
  predicate DropsNothing(one: Json -> Option<seq<Json>>, items: seq<Json>)
    requires Convert(one, items).Some?
  {
    Filter(Convert(one, items).value) == Convert(one, items).value
  }

  lemma CutOutPaired(style: Style, items: seq<Json>, cut: nat, next: seq<Json>, dropped: seq<Segment>)
    requires CutOut(style, items, cut, next, dropped)
    ensures Cut.Paired(Slots(ResponseSlot, next)) <==> Cut.Paired(Slots(ResponseSlot, items[cut..]))
  {
    hide ResponseSlot, CutOut, ResponseSummary, Segments, Plain, Cut.Paired;
    CutOutSlots(style, items, cut, next, dropped);
    var summary := ResponseSummary(style, Segments(ResponseSegment, items[..cut]));
    SlotsConcat(ResponseSlot, [summary], next[1..]);
    ResponseSummaryPlain(style, Segments(ResponseSegment, items[..cut]));
    PlainPrefix(Slots(ResponseSlot, [summary]), Slots(ResponseSlot, next[1..]));
  }

  /** Responses history with a cut: the filter drops nothing exactly when the kept items are paired among themselves. */
  lemma CutResponsesDropNothingIff(style: Style, c: Codec, r: Renderer, items: seq<Json>, cut: nat,
                                   next: seq<Json>, dropped: seq<Segment>, path: seq<string>, message: string)
    requires PlainRenderer(r) && CutOut(style, items, cut, next, dropped)
    requires Convert(ResponseConverter(c, r), Finish(style.wording, next, path, message)).Some?
    ensures DropsNothing(ResponseConverter(c, r), Finish(style.wording, next, path, message))
       <==> Cut.Paired(Slots(ResponseSlot, items[cut..]))
  {
    hide Slots, Finish, CutOut, PlainRenderer, Convert, Faithful, DropsNothing, Cut.Paired;
    CutOutPaired(style, items, cut, next, dropped);
    FaithfulResponses(c, r);
    FinishedDropsNothingIff(ResponseConverter(c, r), ResponseSlot, style.wording, next, path, message);
  }

  /** Chat history with a cut: the same, the leading system prompt and the summary being plain. */
  lemma CutChatDropsNothingIff(style: Style, c: Codec, r: Renderer, messages: seq<Json>, keep: nat,
                               segments: seq<Segment>, path: seq<string>, message: string)
    requires PlainRenderer(r) && keep >= 2
    requires Convert(ChatConverter(c, r),
                     Finish(style.wording, CutChat(style, messages, keep, segments), path, message)).Some?
    ensures DropsNothing(ChatConverter(c, r),
                         Finish(style.wording, CutChat(style, messages, keep, segments), path, message))
       <==> Cut.Paired(Slots(ChatSlot, messages[ChatCut(messages, keep)..]))
  {
    hide ChatSlot, ChatItems, Finish, ChatSummary, PlainRenderer, Convert, Faithful, DropsNothing, Plain, ChatCut;
    var lead, cut := LeadEnd(messages), ChatCut(messages, keep);
    var front := messages[..lead] + [ChatSummary(style, segments)];
    LeadPlain(messages);
    ChatSummaryPlain(style, segments);
    SlotsConcat(ChatSlot, front, messages[cut..]);
    PlainPrefix(Slots(ChatSlot, front), Slots(ChatSlot, messages[cut..]));
    FaithfulChat(c, r);
    FinishedDropsNothingIff(ChatConverter(c, r), ChatSlot, style.wording, CutChat(style, messages, keep, segments),
                            path, message);
  }

  /** Without a cut, one item shortened or none: the links are those of the whole history. */
  lemma ShortenedSlots(w: Wording, items: seq<Json>, segment: Json -> Segment, next: seq<Json>, dropped: seq<Segment>,
                       changed: bool, slot: Json -> Cut.Item)
    requires slot == ResponseSlot || slot == ChatSlot
    requires LargestShortened(w, items, segment, next, dropped, changed)
    ensures Slots(slot, next) == Slots(slot, items)
  {
    hide ShortenedAt, SomeLong, Slots;
    if changed {
      var k: nat :| ShortenedAt(w, items, segment, next, dropped, k);
      ShortenedAtSlots(w, items, segment, next, dropped, k, slot);
    }
  }

  lemma ShortenedAtSlots(w: Wording, items: seq<Json>, segment: Json -> Segment, next: seq<Json>, dropped: seq<Segment>,
                         k: nat, slot: Json -> Cut.Item)
    requires slot == ResponseSlot || slot == ChatSlot
    requires ShortenedAt(w, items, segment, next, dropped, k)
    ensures Slots(slot, next) == Slots(slot, items)
  {
    hide ResponseSlot, ChatSlot, Shorten, SameLinks, ItemText;
    ShortenKeepsLinks(w, items[k], segment(items[k]).origin);
    SameSlots(items[k], next[k]);
  }

  /** Responses history without a cut: the filter drops nothing exactly when the whole history was paired. */
  lemma UncutResponsesDropNothingIff(style: Style, c: Codec, r: Renderer, items: seq<Json>, next: seq<Json>,
                                     dropped: seq<Segment>, changed: bool, path: seq<string>, message: string)
    requires PlainRenderer(r) && LargestShortened(style.wording, items, ResponseSegment, next, dropped, changed)
    requires Convert(ResponseConverter(c, r), Finish(style.wording, next, path, message)).Some?
    ensures DropsNothing(ResponseConverter(c, r), Finish(style.wording, next, path, message))
       <==> Cut.Paired(Slots(ResponseSlot, items))
  {
    hide LargestShortened, Finish, PlainRenderer, Convert, Faithful, DropsNothing;
    ShortenedSlots(style.wording, items, ResponseSegment, next, dropped, changed, ResponseSlot);
    FaithfulResponses(c, r);
    FinishedDropsNothingIff(ResponseConverter(c, r), ResponseSlot, style.wording, next, path, message);
  }

  /** Chat history without a cut: the same. */
  lemma UncutChatDropsNothingIff(style: Style, c: Codec, r: Renderer, messages: seq<Json>, next: seq<Json>,
                                 dropped: seq<Segment>, changed: bool, path: seq<string>, message: string)
    requires PlainRenderer(r) && LargestShortened(style.wording, messages, ChatSegment, next, dropped, changed)
    requires Convert(ChatConverter(c, r), Finish(style.wording, next, path, message)).Some?
    ensures DropsNothing(ChatConverter(c, r), Finish(style.wording, next, path, message))
       <==> Cut.Paired(Slots(ChatSlot, messages))
  {
    hide LargestShortened, Finish, PlainRenderer, Convert, Faithful, DropsNothing;
    ShortenedSlots(style.wording, messages, ChatSegment, next, dropped, changed, ChatSlot);
    FaithfulChat(c, r);
    FinishedDropsNothingIff(ChatConverter(c, r), ChatSlot, style.wording, next, path, message);
  }

  /**
   * Responses history: if every output follows its call through outputs only, then cutting,
   * shortening, compacting and filling in the summary leaves each remaining output its call, and
   * the orphan filter has nothing to drop.
   */
  lemma ResponsesCompactionLosesNoOutput(style: Style, c: Codec, r: Renderer, items: seq<Json>, keep: nat,
                                         next: seq<Json>, dropped: seq<Segment>, path: seq<string>, message: string)
    requires PlainRenderer(r) && keep >= 2
    requires Cut.SerialBehind(Slots(ResponseSlot, items), 0) && ResponseCut(items, keep) > 0
    requires CutOut(style, items, ResponseCut(items, keep), next, dropped)
    requires Convert(ResponseConverter(c, r), Finish(style.wording, next, path, message)).Some?
    ensures DropsNothing(ResponseConverter(c, r), Finish(style.wording, next, path, message))
  {
    hide ResponseSlot, Finish, CutOut, PlainRenderer, Convert, DropsNothing;
    var cut := ResponseCut(items, keep);
    ResponseSlotsConverse(items);
    Cut.CutKeepsEnough(Slots(ResponseSlot, items), 0, keep);
    Cut.SerialCutSafe(Slots(ResponseSlot, items), 0, cut);
    SlotsSuffix(ResponseSlot, items, cut);
    CutResponsesDropNothingIff(style, c, r, items, cut, next, dropped, path, message);
  }

  lemma LeadPlain(messages: seq<Json>)
    ensures forall i :: 0 <= i < LeadEnd(messages) ==> Plain(ChatSlot(messages[i]))
  {
    hide RoleOf, LeadRole, ChatSlot;
    forall i | 0 <= i < LeadEnd(messages) ensures Plain(ChatSlot(messages[i])) {
      assert LeadFlags(messages)[i];
      LeadLinksNothing(messages[i]);
    }
  }

  lemma LeadLinksNothing(message: Json)
    requires LeadRole(message)
    ensures Plain(ChatSlot(message))
  {
    hide RoleOf, FirstString;
    assert |"tool"| == 4 && |"system"| == 6 && |"developer"| == 9 && |"assistant"| == 9;
    assert "developer"[0] != "assistant"[0];
  }

  /** Chat history: the same for the leading system prompt, the summary and the kept suffix. */
  lemma ChatCompactionLosesNoOutput(style: Style, c: Codec, r: Renderer, messages: seq<Json>, keep: nat,
                                    segments: seq<Segment>, path: seq<string>, message: string)
    requires PlainRenderer(r) && keep >= 2
    requires Cut.SerialBehind(Slots(ChatSlot, messages), LeadEnd(messages))
    requires ChatCut(messages, keep) > LeadEnd(messages)
    requires Convert(ChatConverter(c, r),
                     Finish(style.wording, CutChat(style, messages, keep, segments), path, message)).Some?
    ensures DropsNothing(ChatConverter(c, r),
                         Finish(style.wording, CutChat(style, messages, keep, segments), path, message))
  {
    hide ChatSlot, Finish, CutChat, PlainRenderer, Convert, DropsNothing;
    var lead, cut := LeadEnd(messages), ChatCut(messages, keep);
    ResponseSlotsConverse(messages);
    Cut.CutKeepsEnough(Slots(ChatSlot, messages), lead, keep);
    Cut.SerialCutSafe(Slots(ChatSlot, messages), lead, cut);
    SlotsSuffix(ChatSlot, messages, cut);
    CutChatDropsNothingIff(style, c, r, messages, keep, segments, path, message);
  }

  /** The list a chat cut produces. */
  function CutChat(style: Style, messages: seq<Json>, keep: nat, segments: seq<Segment>): seq<Json>
    requires keep >= 2
  {
    messages[..LeadEnd(messages)] + [ChatSummary(style, segments)] + messages[ChatCut(messages, keep)..]
  }
}
