/** The restore state of one round, field by field, from the user's lines and the previous state. */
module RestoreReading {
  import opened Wrappers
  import opened Text
  import opened DurableFacts
  import opened RestoreState

  // ---------- which lines are picked ----------

  /** Where a line first stands. */
  function FirstIndex(lines: seq<string>, s: string): (i: nat)
    requires s in lines
    ensures i < |lines| && lines[i] == s && forall n :: 0 <= n < i ==> lines[n] != s
  {
    if lines[0] == s then 0 else 1 + FirstIndex(lines[1..], s)
  }

  lemma FirstIndexSnoc(lines: seq<string>, last: string, s: string)
    requires s in lines + [last]
    ensures FirstIndex(lines + [last], s) == if s in lines then FirstIndex(lines, s) else |lines|
  {
    var all := lines + [last];
    var i := FirstIndex(all, s);
    assert all[|lines|] == last && forall n :: 0 <= n < |lines| ==> all[n] == lines[n];
    if s in lines {
      var j := FirstIndex(lines, s);
      assert all[j] == s;
    } else {
      assert forall n :: 0 <= n < |lines| ==> all[n] in lines;
    }
  }

  /** The matching lines stand in the order in which they first occur. */
  lemma {:induction false} MatchingInOrder(lines: seq<string>, matches: string -> bool)
    ensures forall s :: s in Matching(lines, matches) ==> s in lines
    ensures forall i, j :: 0 <= i < j < |Matching(lines, matches)| ==>
              Matching(lines, matches)[i] in lines && Matching(lines, matches)[j] in lines
              && FirstIndex(lines, Matching(lines, matches)[i]) < FirstIndex(lines, Matching(lines, matches)[j])
  {
    hide FirstIndex;
    MatchingIn(lines, matches);
    if lines != [] {
      var init, last := lines[..|lines| - 1], lines[|lines| - 1];
      assert lines == init + [last];
      MatchingInOrder(init, matches);
      var all, before := Matching(lines, matches), Matching(init, matches);
      forall i, j | 0 <= i < j < |all| ensures FirstIndex(lines, all[i]) < FirstIndex(lines, all[j]) {
        FirstIndexSnoc(init, last, all[i]);
        FirstIndexSnoc(init, last, all[j]);
        MatchingIn(init, matches);
        assert all[i] == before[i];
        assert j < |before| ==> all[j] == before[j];
      }
    }
  }

  /** Of more than sixteen matching lines the sixteen that first occur last are picked. */
  lemma PickedAreLast(lines: seq<string>, matches: string -> bool)
    ensures |PickLines(lines, matches)| == if |Matching(lines, matches)| > 16 then 16 else |Matching(lines, matches)|
    ensures PickLines(lines, matches)
         == Matching(lines, matches)[|Matching(lines, matches)| - |PickLines(lines, matches)|..]
  {
  }

  /** Did the line at `i` occur before? */
  predicate Seen(lines: seq<string>, i: nat)
    requires i < |lines|
  {
    exists n :: 0 <= n < i && lines[n] == lines[i]
  }

  /** The last line that matches and did not occur before. */
  predicate LastNew(lines: seq<string>, matches: string -> bool, k: nat) {
    && k < |lines| && matches(lines[k]) && !Seen(lines, k)
    && forall i :: k < i < |lines| && matches(lines[i]) ==> Seen(lines, i)
  }

  lemma SeenSnoc(lines: seq<string>, last: string)
    ensures forall i: nat :: i < |lines| ==> (Seen(lines + [last], i) <==> Seen(lines, i))
    ensures Seen(lines + [last], |lines|) <==> last in lines
  {
    var all := lines + [last];
    assert all[|lines|] == last && forall n :: 0 <= n < |lines| ==> all[n] == lines[n];
  }

  lemma {:induction false} LastMatching(lines: seq<string>, matches: string -> bool)
    returns (k: nat)
    requires Matching(lines, matches) != []
    ensures LastNew(lines, matches, k) && Matching(lines, matches)[|Matching(lines, matches)| - 1] == lines[k]
  {
    hide Seen;
    var init, last := lines[..|lines| - 1], lines[|lines| - 1];
    assert lines == init + [last];
    MatchingIn(init, matches);
    SeenSnoc(init, last);
    if matches(last) && last !in Matching(init, matches) {
      k := |init|;
    } else {
      k := LastMatching(init, matches);
      assert forall i :: 0 <= i < |init| ==> lines[i] == init[i];
    }
  }

  /** What `last of the picked lines` means: the one that is new last. */
  ghost predicate LastOfPicked(lines: seq<string>, matches: string -> bool, max: nat, text: string) {
    exists k: nat :: LastNew(lines, matches, k) && text == LimitRunes(lines[k], max)
  }

  predicate NoneMatches(lines: seq<string>, matches: string -> bool) {
    forall i :: 0 <= i < |lines| ==> !matches(lines[i])
  }

  lemma LastPicked(lines: seq<string>, matches: string -> bool, max: nat)
    ensures PickLines(lines, matches) == [] <==> NoneMatches(lines, matches)
    ensures PickLines(lines, matches) != [] ==>
              LastOfPicked(lines, matches, max,
                           LimitRunes(PickLines(lines, matches)[|PickLines(lines, matches)| - 1], max))
  {
    hide Matching, LimitRunes, LastNew;
    MatchingIn(lines, matches);
    PickedAreLast(lines, matches);
    var all := Matching(lines, matches);
    if all == [] {
      assert forall i :: 0 <= i < |lines| ==> lines[i] in lines;
    } else {
      assert all[0] in lines;
      var k := LastMatching(lines, matches);
      var picked := PickLines(lines, matches);
      assert picked[|picked| - 1] == all[|all| - 1];
    }
  }

  /** The latest instruction of a round: its last new current line, or else its last new restriction. */
  lemma LatestHereIs(lex: Lexicon, lines: seq<string>)
    ensures !NoneMatches(lines, Marked(lex, lex.current)) ==>
              LastOfPicked(lines, Marked(lex, lex.current), 900, LatestHere(lex, lines))
    ensures NoneMatches(lines, Marked(lex, lex.current)) && !NoneMatches(lines, Marked(lex, lex.restricts)) ==>
              LastOfPicked(lines, Marked(lex, lex.restricts), 900, LatestHere(lex, lines))
    ensures NoneMatches(lines, Marked(lex, lex.current)) && NoneMatches(lines, Marked(lex, lex.restricts)) ==>
              LatestHere(lex, lines) == ""
    ensures if NoneMatches(lines, Marked(lex, lex.goal)) then GoalHere(lex, lines) == ""
            else LastOfPicked(lines, Marked(lex, lex.goal), 900, GoalHere(lex, lines))
  {
    hide PickLines, LimitRunes, LastOfPicked, NoneMatches;
    LastPicked(lines, Marked(lex, lex.current), 900);
    LastPicked(lines, Marked(lex, lex.restricts), 900);
    LastPicked(lines, Marked(lex, lex.goal), 900);
  }

  /** The directives of a round: the twelve pinned lines that first occur last, each cut at 700 characters. */
  lemma PinnedAre(lex: Lexicon, lines: seq<string>)
    ensures var picked, pinned := PickLines(lines, Marked(lex, lex.pinned)), PinnedDirectives(lex, lines);
            && |pinned| == (if |picked| > 12 then 12 else |picked|)
            && forall i :: 0 <= i < |pinned| ==> pinned[i] == LimitRunes(picked[|picked| - |pinned| + i], 700)
  {
    hide PickLines, LimitRunes;
  }

  /** Cutting keeps a beginning of the trimmed text, all of it if it is short enough. */
  lemma LimitRunesIs(text: string, max: nat)
    ensures LimitRunes(text, max) <= Trim(text) && |LimitRunes(text, max)| <= max
    ensures |LimitRunes(text, max)| < max ==> LimitRunes(text, max) == Trim(text)
    ensures |Trim(text)| <= max ==> LimitRunes(text, max) == Trim(text)
  {
    hide Trim;
  }

  /** Lines as the round collects them: trimmed, and none longer than 900 characters. */
  predicate ShortLines(lines: seq<string>) {
    forall i :: 0 <= i < |lines| ==> Trimmed(lines[i]) && |lines[i]| <= 900
  }

  /**
   * A current line that repeats an earlier one keeps the earlier place. So the last current line is
   * the latest instruction if and only if no current line first occurs after it first did.
   */
  lemma LatestIsLastLineIff(lex: Lexicon, lines: seq<string>, j: nat)
    requires ShortLines(lines) && j < |lines| && Marked(lex, lex.current)(lines[j])
    ensures LatestHere(lex, lines) == lines[j]
       <==> forall i :: FirstIndex(lines, lines[j]) < i < |lines| ==>
                          Marked(lex, lex.current)(lines[i]) ==> Seen(lines, i)
  {
    hide LatestHere, LimitRunes, Marked, Trim;
    LatestHereIs(lex, lines);
    var k: nat :| LastNew(lines, Marked(lex, lex.current), k) && LatestHere(lex, lines) == LimitRunes(lines[k], 900);
    assert LatestHere(lex, lines) == lines[k] by { ShortKept(lines[k]); }
    var first := FirstIndex(lines, lines[j]);
    assert !Seen(lines, first);
  }

  lemma ShortKept(line: string)
    requires Trimmed(line) && |line| <= 900
    ensures LimitRunes(line, 900) == line
  {
    hide Trim;
    TrimFixed(line);
  }

  // ---------- the fields of the state ----------

  /** The latest instruction or one of the directives has such a word. */
  predicate SaidIn(latest: string, directives: seq<string>, word: string -> bool) {
    word(latest) || exists d :: d in directives && word(d)
  }

  /** Reason to ask before going on. */
  predicate Doubtful(lex: Lexicon, s: State) {
    || s.phase == WaitingForUser || Blank(s.goal) || Blank(s.latest)
    || lex.confirms(s.latest) || exists d :: d in s.mustNotDo && lex.confirms(d)
  }

  /** What a permission, a restriction or neither leaves of the pinned lines. */
  ghost predicate Resolved(lex: Lexicon, pinned: seq<string>, latest: string, directives: seq<string>) {
    var gives := d => (lex.allows(latest) && Restricting(lex, d))
        || (Restricting(lex, latest) && !lex.allows(latest) && lex.allows(d));
    if pinned == [] then directives == []
    else if !Blank(latest) && forall d :: d in pinned ==> gives(d) then directives == [latest]
    else forall d :: d in directives <==> d in pinned && !gives(d)
  }

  lemma ResolveIs(lex: Lexicon, pinned: seq<string>, latest: string)
    ensures Resolved(lex, pinned, latest, Resolve(lex, pinned, latest))
  {
    hide Blank, Restricting;
    WithoutOut(pinned, d => lex.allows(d));
    WithoutOut(pinned, d => Restricting(lex, d));
    var a, b := Without(pinned, d => lex.allows(d)), Without(pinned, d => Restricting(lex, d));
    if a != [] { assert a[0] in a; }
    if b != [] { assert b[0] in b; }
    if pinned != [] { assert pinned[0] in pinned; }
  }

  /** The phase, by the words of the latest instruction and the directives. */
  predicate PhaseFits(lex: Lexicon, phase: Phase, latest: string, directives: seq<string>) {
    var allowing, stops := lex.allows(latest), SaidIn(latest, directives, lex.stops);
    var pauses := SaidIn(latest, directives, lex.pauses);
    && (phase == Stopped <==> !allowing && stops)
    && (phase == WaitingForUser <==> !allowing && !stops && pauses)
    && (phase == Verifying <==> !allowing && !stops && !pauses && SaidIn(latest, directives, lex.verifies))
  }

  /** The next step and what must be confirmed, by the phase, the doubts and the prohibitions. */
  predicate StepsFit(lex: Lexicon, s: State) {
    && (s.next == NoOp <==> s.phase == Stopped)
    && (s.next == AskUser <==> s.phase != Stopped && !(lex.allows(s.latest) && s.mustNotDo == []) && Doubtful(lex, s))
    && s.nextConfirmed == (s.next != Execute)
    && s.confirmBefore == (if s.nextConfirmed || s.mustNotDo != []
                           then ["tool_call", "file_write", "shell", "ssh", "restart_service"] else [])
    && s.uncertainties == Doubts(s.goal, s.latest)
  }

  /** One note for each of the two that is missing. */
  function Doubts(goal: string, latest: string): seq<string> {
    if Blank(goal) && Blank(latest) then
      ["current_user_goal was not explicit in compacted text",
       "latest_user_instruction was not explicit in compacted text"]
    else if Blank(goal) then ["current_user_goal was not explicit in compacted text"]
    else if Blank(latest) then ["latest_user_instruction was not explicit in compacted text"]
    else []
  }

  lemma DoubtsAre(goal: string, latest: string)
    ensures Uncertainties(goal, latest) == Doubts(goal, latest)
    ensures Doubts(goal, latest) != [] <==> Blank(goal) || Blank(latest)
  {
    hide Blank;
  }

  lemma SomeLineSaid(latest: string, directives: seq<string>, word: string -> bool)
    ensures SomeLine([latest] + directives, word) <==> SaidIn(latest, directives, word)
    ensures SomeLine(directives + [latest], word) <==> SaidIn(latest, directives, word)
  {
    SomeLineIn(latest, directives, word);
    var all := directives + [latest];
    assert all[|directives|] == latest;
    if d :| d in directives && word(d) {
      var i :| 0 <= i < |directives| && directives[i] == d;
      assert all[i] == d;
    }
  }

  lemma PhaseIs(lex: Lexicon, latest: string, directives: seq<string>)
    ensures PhaseFits(lex, TaskPhase(lex, latest, directives), latest, directives)
    ensures lex.allows(latest) ==> TaskPhase(lex, latest, directives) == Executing
  {
    hide SomeLine, SaidIn;
    SomeLineSaid(latest, directives, lex.stops);
    SomeLineSaid(latest, directives, lex.pauses);
    SomeLineSaid(latest, directives, lex.verifies);
  }

  lemma ConfirmationIs(lex: Lexicon, phase: Phase, mustNotDo: seq<string>, latest: string, doubts: seq<string>)
    ensures NeedsConfirmation(lex, phase, mustNotDo, latest, doubts)
       <==> !(lex.allows(latest) && mustNotDo == [])
            && (phase == Stopped || phase == WaitingForUser || doubts != [] || SaidIn(latest, mustNotDo, lex.confirms))
  {
    hide SomeLine, SaidIn;
    SomeLineSaid(latest, mustNotDo, lex.confirms);
  }

  lemma ConcludeSteps(lex: Lexicon, goal: string, latest: string, latestHere: string, facts: seq<string>,
                      directives: seq<string>, mustNotDo: seq<string>)
    requires lex.allows(latest) ==> mustNotDo == []
    ensures StepsFit(lex, Conclude(lex, goal, latest, latestHere, facts, directives, mustNotDo))
  {
    hide PickLines, Trim, NeedsConfirmation, TaskPhase, PhaseFits, Uncertainties, Doubts, Blank;
    PhaseIs(lex, latest, directives);
    DoubtsAre(goal, latest);
    ConfirmationIs(lex, TaskPhase(lex, latest, directives), mustNotDo, latest, Uncertainties(goal, latest));
  }

  /** The first text that is not empty. */
  function FirstText(texts: seq<string>): string {
    if texts == [] then "" else if texts[0] != "" then texts[0] else FirstText(texts[1..])
  }

  /** What is forbidden: what the directives restrict, or else, if the round gives no instruction, what was before. */
  ghost predicate ProhibitionsFit(lex: Lexicon, previous: Option<State>, s: State) {
    var said := PickLines(s.directives, Marked(lex, lex.restricts));
    if lex.allows(s.latest) then s.mustNotDo == []
    else if said != [] then s.mustNotDo == said
    else
      var kept := if previous.Some? && Blank(s.latestHere) then previous.value.mustNotDo else [];
      s.mustNotDo == if kept == [] && s.phase == Stopped then ["stopped: no further tool calls"] else kept
  }

  /** What is permitted, and the constraints in force. */
  predicate PermissionsFit(lex: Lexicon, s: State) {
    var said := PickLines(s.directives, Marked(lex, lex.allows));
    var note := ["the latest user message allows execution and tool calls"];
    && s.allowed == (if said == [] && lex.allows(s.latest) then note else said)
    && (lex.allows(s.latest) ==> s.constraints == note)
    && (!lex.allows(s.latest) && s.phase != Stopped ==> s.constraints == s.mustNotDo + s.allowed)
  }

  lemma ConcludeLists(lex: Lexicon, previous: Option<State>, goal: string, latest: string, here: string,
                      facts: seq<string>, directives: seq<string>)
    ensures var said := if lex.allows(latest) then [] else PickLines(directives, Marked(lex, lex.restricts));
            var mustNotDo := if said == [] && previous.Some? && Blank(here) && !lex.allows(latest)
                             then previous.value.mustNotDo else said;
            var s := Conclude(lex, goal, latest, here, facts, directives, mustNotDo);
            ProhibitionsFit(lex, previous, s) && PermissionsFit(lex, s)
  {
    hide PickLines, Trim, NeedsConfirmation, TaskPhase, PhaseFits, Uncertainties, Blank;
    PhaseIs(lex, latest, directives);
  }

  /**
   * The whole state of a round: the goal, the latest instruction, the facts and the directives with
   * what each of them falls back on, and phase, prohibitions, permissions and next step.
   */
  lemma BuildFields(lex: Lexicon, rules: Rules, previous: Option<State>, lines: seq<string>, found: seq<string>)
    ensures var s := Build(lex, rules, previous, lines, found);
            var here, pinned := LatestHere(lex, lines), PinnedDirectives(lex, lines);
            var before := if previous.Some? then previous.value
                          else State("", "", "", [], [], [], [], [], [], Executing, Execute, false, []);
            && s.latestHere == here
            && s.goal == FirstText([GoalHere(lex, lines), here, before.goal])
            && s.latest == FirstText([here, if pinned != [] then pinned[|pinned| - 1] else before.latest])
            && s.facts == Round(rules, if previous.Some? then Some(before.facts) else None, found, 64)
            && Resolved(lex, pinned, s.latest, s.directives)
            && PhaseFits(lex, s.phase, s.latest, s.directives)
            && StepsFit(lex, s) && ProhibitionsFit(lex, previous, s) && PermissionsFit(lex, s)
  {
    hide PickLines, Trim, Round, PinnedDirectives, LatestHere, GoalHere, Resolve, TaskPhase, NeedsConfirmation, Blank,
      Resolved, PhaseFits, StepsFit, Uncertainties, ProhibitionsFit, PermissionsFit, FirstText;
    var s := Build(lex, rules, previous, lines, found);
    var here, pinned := LatestHere(lex, lines), PinnedDirectives(lex, lines);
    FirstTextOf(GoalHere(lex, lines), here, if previous.Some? then previous.value.goal else "");
    var before := if previous.Some? then previous.value.latest else "";
    FirstTextOf(here, if pinned != [] then pinned[|pinned| - 1] else before, "");
    ResolveIs(lex, pinned, s.latest);
    PhaseIs(lex, s.latest, s.directives);
    var said := if lex.allows(s.latest) then [] else PickLines(s.directives, Marked(lex, lex.restricts));
    var mustNotDo := if said == [] && previous.Some? && Blank(here) && !lex.allows(s.latest)
                     then previous.value.mustNotDo else said;
    ConcludeSteps(lex, s.goal, s.latest, here, s.facts, s.directives, mustNotDo);
    ConcludeLists(lex, previous, s.goal, s.latest, here, s.facts, s.directives);
  }

  lemma FirstTextOf(a: string, b: string, d: string)
    ensures FirstText([a, b, d]) == (if a != "" then a else if b != "" then b else d)
    ensures FirstText([a, b]) == (if a != "" then a else b)
  {
    assert [a, b, d][1..] == [b, d] && [b, d][1..] == [d] && [d][1..] == [];
    assert [a, b][1..] == [b] && [b][1..] == [];
    assert FirstText([d]) == d && FirstText([b]) == b;
    assert FirstText([b, d]) == (if b != "" then b else d);
  }
}
