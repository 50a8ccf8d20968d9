/**
 * The restore state a compaction leaves behind for the next round: what the user last asked for,
 * what must not be done, and what to do next.
 */
module RestoreState {
  import opened Wrappers
  import opened Text
  import opened DurableFacts

  /**
   * The word lists, as predicates on a line. `plain` says that a line is neither blank nor text of
   * an earlier compaction; the others that it holds one of the respective markers.
   */
  datatype Lexicon = Lexicon(plain: string -> bool, allows: string -> bool, restricts: string -> bool,
                             pinned: string -> bool, current: string -> bool, goal: string -> bool,
                             stops: string -> bool, pauses: string -> bool, verifies: string -> bool,
                             confirms: string -> bool)

  datatype Phase = Executing | Stopped | WaitingForUser | Verifying
  datatype NextAction = NoOp | AskUser | Execute

  datatype State = State(goal: string, latest: string, latestHere: string, facts: seq<string>,
                         directives: seq<string>, mustNotDo: seq<string>, allowed: seq<string>,
                         constraints: seq<string>, confirmBefore: seq<string>, phase: Phase,
                         next: NextAction, nextConfirmed: bool, uncertainties: seq<string>)

  const STOP_NOTE := "stopped: no further tool calls"
  const ALLOW_NOTE := "the latest user message allows execution and tool calls"
  const GUARDED_ACTIONS := ["tool_call", "file_write", "shell", "ssh", "restart_service"]
  const MAX_LINES := 16
  const MAX_PINNED := 12
  const MAX_FACTS := 64

  // ---------- picking lines ----------

  function LastOf<T>(xs: seq<T>, n: nat): seq<T> {
    if |xs| > n then xs[|xs| - n..] else xs
  }

  /** The matching lines, each once, in order. */
  function Matching(lines: seq<string>, matches: string -> bool): seq<string> {
    if lines == [] then [] else
    var init, last := Matching(lines[..|lines| - 1], matches), lines[|lines| - 1];
    if matches(last) && last !in init then init + [last] else init
  }

  /** `gatewayDirectiveLines` and `gatewayCurrentDirectiveLines`. */
  function PickLines(lines: seq<string>, matches: string -> bool): seq<string> {
    LastOf(Matching(lines, matches), MAX_LINES)
  }

  method CollectLines(lines: seq<string>, matches: string -> bool) returns (out: seq<string>)
    ensures out == PickLines(lines, matches)
  {
    out := [];
    var seen: set<string> := {};
    for i := 0 to |lines|
      invariant out == Matching(lines[..i], matches) && seen == set s | s in out
    {
      assert lines[..i + 1][..i] == lines[..i];
      if !matches(lines[i]) || lines[i] in seen {
        continue;
      }
      seen := seen + {lines[i]};
      out := out + [lines[i]];
    }
    assert lines[..|lines|] == lines;
    if |out| > MAX_LINES {
      out := out[|out| - MAX_LINES..];
    }
  }

  function Marked(lex: Lexicon, marker: string -> bool): string -> bool {
    s => lex.plain(s) && marker(s)
  }

  function Limited(lines: seq<string>, max: nat): seq<string> {
    seq(|lines|, i requires 0 <= i < |lines| => LimitRunes(lines[i], max))
  }

  /** `pinnedGatewayRawDirectives`. */
  function PinnedDirectives(lex: Lexicon, userLines: seq<string>): seq<string> {
    Limited(LastOf(PickLines(userLines, Marked(lex, lex.pinned)), MAX_PINNED), 700)
  }

  /** `latestGatewayUserInstruction`. */
  function LatestHere(lex: Lexicon, userLines: seq<string>): string {
    var current := PickLines(userLines, Marked(lex, lex.current));
    var lines := if current == [] then PickLines(userLines, Marked(lex, lex.restricts)) else current;
    if lines == [] then "" else LimitRunes(lines[|lines| - 1], 900)
  }

  function GoalHere(lex: Lexicon, userLines: seq<string>): string {
    var lines := PickLines(userLines, Marked(lex, lex.goal));
    if lines == [] then "" else LimitRunes(lines[|lines| - 1], 900)
  }

  // ---------- weighing them ----------

  /** `gatewayLineIsStopOrRestriction`. */
  predicate Restricting(lex: Lexicon, s: string) {
    !lex.allows(s) && lex.restricts(s)
  }

  function Without(lines: seq<string>, unwanted: string -> bool): seq<string> {
    if lines == [] then []
    else if unwanted(lines[0]) then Without(lines[1..], unwanted)
    else [lines[0]] + Without(lines[1..], unwanted)
  }

  /** `gatewayResolveDirectiveConflicts`: the latest instruction overrules older directives. */
  function Resolve(lex: Lexicon, directives: seq<string>, latest: string): seq<string> {
    if directives == [] then [] else
    var kept := if lex.allows(latest) then Without(directives, s => Restricting(lex, s))
                else if Restricting(lex, latest) then Without(directives, s => lex.allows(s))
                else directives;
    if kept == [] && !Blank(latest) then [latest] else kept
  }

  predicate SomeLine(lines: seq<string>, word: string -> bool) {
    exists i :: 0 <= i < |lines| && word(lines[i])
  }

  /** `gatewayTaskPhase`. */
  function TaskPhase(lex: Lexicon, latest: string, directives: seq<string>): Phase {
    if lex.allows(latest) then Executing
    else if SomeLine([latest] + directives, lex.stops) then Stopped
    else if SomeLine([latest] + directives, lex.pauses) then WaitingForUser
    else if SomeLine([latest] + directives, lex.verifies) then Verifying
    else Executing
  }

  /** `gatewayNeedsConfirmation`. */
  predicate NeedsConfirmation(lex: Lexicon, phase: Phase, mustNotDo: seq<string>, latest: string,
                              uncertainties: seq<string>) {
    if lex.allows(latest) && mustNotDo == [] then false
    else
      || phase == Stopped || phase == WaitingForUser || uncertainties != []
      || SomeLine(mustNotDo + [latest], lex.confirms)
  }

  function Uncertainties(goal: string, latest: string): seq<string> {
    (if Blank(goal) then ["current_user_goal was not explicit in compacted text"] else [])
    + (if Blank(latest) then ["latest_user_instruction was not explicit in compacted text"] else [])
  }

  /** The end of `buildGatewayContextRestoreState`, once the lines are picked. */
  function Conclude(lex: Lexicon, goal: string, latest: string, latestHere: string, facts: seq<string>,
                    directives: seq<string>, mustNotDo: seq<string>): State
  {
    var phase := TaskPhase(lex, latest, directives);
    var permits := PickLines(directives, Marked(lex, lex.allows));
    var allowed := if lex.allows(latest) && permits == [] then [ALLOW_NOTE] else permits;
    var doubts := Uncertainties(goal, latest);
    var confirm := NeedsConfirmation(lex, phase, mustNotDo, latest, doubts);
    var forbidden := if phase == Stopped && mustNotDo == [] then [STOP_NOTE] else mustNotDo;
    State(goal, latest, latestHere, facts, directives, forbidden, allowed,
          if lex.allows(latest) then [ALLOW_NOTE] else mustNotDo + allowed,
          if confirm || forbidden != [] then GUARDED_ACTIONS else [],
          phase, if phase == Stopped then NoOp else if confirm then AskUser else Execute,
          phase == Stopped || confirm, doubts)
  }

  /** One round: what the user said in the compacted segments, on top of the previous state if readable. */
  function Build(lex: Lexicon, rules: Rules, previous: Option<State>, userLines: seq<string>,
                 found: seq<string>): State {
    var pinned := PinnedDirectives(lex, userLines);
    var here := LatestHere(lex, userLines);
    var latest := if here != "" then here else if pinned != [] then pinned[|pinned| - 1]
                  else if previous.Some? then previous.value.latest else "";
    var directives := Resolve(lex, pinned, latest);
    var goalHere := GoalHere(lex, userLines);
    var goal := if goalHere != "" then goalHere else if here != "" then here
                else if previous.Some? then previous.value.goal else "";
    var facts := Round(rules, if previous.Some? then Some(previous.value.facts) else None, found, MAX_FACTS);
    var said := if lex.allows(latest) then [] else PickLines(directives, Marked(lex, lex.restricts));
    var mustNotDo := if said == [] && previous.Some? && Blank(here) && !lex.allows(latest)
                     then previous.value.mustNotDo else said;
    Conclude(lex, goal, latest, here, facts, directives, mustNotDo)
  }

  // ---------- coherence ----------

  /** What holds of the control fields of every state, whatever came before. */
  ghost predicate Coherent(lex: Lexicon, s: State) {
    && (lex.allows(s.latest) ==>
          s.phase == Executing && s.mustNotDo == [] && s.confirmBefore == [] && s.next == Execute && !s.nextConfirmed
          && s.allowed != [] && s.constraints == [ALLOW_NOTE])
    && (s.phase == Stopped <==> s.next == NoOp)
    && (s.phase == Stopped ==> s.mustNotDo != [] && s.confirmBefore != [] && s.nextConfirmed)
    && (s.phase == WaitingForUser ==> s.next == AskUser && s.confirmBefore != [])
    && (s.next == Execute <==> !s.nextConfirmed)
    && (s.mustNotDo != [] ==> s.confirmBefore != [])
    && (!lex.allows(s.latest) && lex.stops(s.latest) ==> s.phase == Stopped)
    && (s.uncertainties != [] && !lex.allows(s.latest) ==> s.next != Execute)
  }

  lemma ConcludeCoherent(lex: Lexicon, goal: string, latest: string, latestHere: string, facts: seq<string>,
                         directives: seq<string>, mustNotDo: seq<string>)
    requires lex.allows(latest) ==> mustNotDo == []
    ensures Coherent(lex, Conclude(lex, goal, latest, latestHere, facts, directives, mustNotDo))
  {
    hide PickLines, Trim, Uncertainties;
    assert ([latest] + directives)[0] == latest;
  }

  /** Every round ends in a coherent state, for any lexicon, any previous state and any input. */
  lemma BuildCoherent(lex: Lexicon, rules: Rules, previous: Option<State>, userLines: seq<string>, found: seq<string>)
    ensures Coherent(lex, Build(lex, rules, previous, userLines, found))
  {
    hide PickLines, Trim, Coherent, Conclude, Round, PinnedDirectives, LatestHere, GoalHere, Resolve;
    var s := Build(lex, rules, previous, userLines, found);
    var latest := LatestOf(lex, previous, userLines);
    var directives := Resolve(lex, PinnedDirectives(lex, userLines), latest);
    var here := LatestHere(lex, userLines);
    var said := if lex.allows(latest) then [] else PickLines(directives, Marked(lex, lex.restricts));
    var mustNotDo := if said == [] && previous.Some? && Blank(here) && !lex.allows(latest)
                     then previous.value.mustNotDo else said;
    var goalHere := GoalHere(lex, userLines);
    var goal := if goalHere != "" then goalHere else if here != "" then here
                else if previous.Some? then previous.value.goal else "";
    var facts := Round(rules, if previous.Some? then Some(previous.value.facts) else None, found, MAX_FACTS);
    ConcludeCoherent(lex, goal, latest, here, facts, directives, mustNotDo);
  }

  function LatestOf(lex: Lexicon, previous: Option<State>, userLines: seq<string>): string {
    var pinned := PinnedDirectives(lex, userLines);
    var here := LatestHere(lex, userLines);
    if here != "" then here else if pinned != [] then pinned[|pinned| - 1]
    else if previous.Some? then previous.value.latest else ""
  }

  // ---------- rounds in which the user says nothing that directs the work ----------

  /** No user line of the round is a directive or a restriction. */
  predicate Quiet(lex: Lexicon, userLines: seq<string>) {
    PinnedDirectives(lex, userLines) == [] && LatestHere(lex, userLines) == ""
  }

  /**
   * A quiet round keeps the latest instruction and every prohibition, given that the previous
   * state was read back.
   */
  lemma QuietRoundKeepsProhibitions(lex: Lexicon, rules: Rules, s: State, userLines: seq<string>, found: seq<string>)
    requires Coherent(lex, s) && Quiet(lex, userLines)
    ensures var t := Build(lex, rules, Some(s), userLines, found);
            t.latest == s.latest && t.mustNotDo == s.mustNotDo
            && t.phase == TaskPhase(lex, s.latest, []) && t.directives == []
  {
    hide Round, PinnedDirectives, LatestHere, GoalHere, Uncertainties, NeedsConfirmation, Trim;
    assert Blank("") by { TrimFixed(""); }
    assert Matching([], Marked(lex, lex.restricts)) == [];
    assert PickLines([], Marked(lex, lex.restricts)) == [];
    assert Resolve(lex, [], s.latest) == [];
    assert [s.latest] + [] == [s.latest];
    assert lex.stops(s.latest) && !lex.allows(s.latest) ==> s.mustNotDo != [];
  }

  /** The states after a sequence of rounds, each read back by the next. */
  function AfterRounds(lex: Lexicon, rules: Rules, s: State, rounds: seq<(seq<string>, seq<string>)>): State
    decreases |rounds|
  {
    if rounds == [] then s
    else AfterRounds(lex, rules, Build(lex, rules, Some(s), rounds[0].0, rounds[0].1), rounds[1..])
  }

  /** One more round builds on the state after the rounds before it. */
  lemma {:induction false} OneMoreRound(lex: Lexicon, rules: Rules, s: State, rounds: seq<(seq<string>, seq<string>)>,
                                        last: (seq<string>, seq<string>))
    ensures AfterRounds(lex, rules, s, rounds + [last])
         == Build(lex, rules, Some(AfterRounds(lex, rules, s, rounds)), last.0, last.1)
    decreases |rounds|
  {
    hide Build;
    var all := rounds + [last];
    if rounds == [] {
      assert all == [last] && all[1..] == [];
    } else {
      assert all[1..] == rounds[1..] + [last];
      OneMoreRound(lex, rules, Build(lex, rules, Some(s), rounds[0].0, rounds[0].1), rounds[1..], last);
    }
  }

  /** Prohibitions survive any number of quiet rounds. */
  lemma {:induction false} ProhibitionsSurvive(lex: Lexicon, rules: Rules, s: State,
                                               rounds: seq<(seq<string>, seq<string>)>)
    requires Coherent(lex, s)
    requires forall i :: 0 <= i < |rounds| ==> Quiet(lex, rounds[i].0)
    ensures AfterRounds(lex, rules, s, rounds).mustNotDo == s.mustNotDo
    ensures AfterRounds(lex, rules, s, rounds).latest == s.latest && Coherent(lex, AfterRounds(lex, rules, s, rounds))
    decreases |rounds|
  {
    hide Build, Coherent, Quiet;
    if rounds != [] {
      QuietRoundKeepsProhibitions(lex, rules, s, rounds[0].0, rounds[0].1);
      BuildCoherent(lex, rules, Some(s), rounds[0].0, rounds[0].1);
      ProhibitionsSurvive(lex, rules, Build(lex, rules, Some(s), rounds[0].0, rounds[0].1), rounds[1..]);
    }
  }

  /**
   * The phase is not carried over: it is worked out again from the latest instruction alone. So a
   * stop survives a quiet round exactly if the latest instruction itself has a stop word; a stop
   * that came from another directive is forgotten although its prohibition stays.
   */
  lemma StopSurvivesIff(lex: Lexicon, rules: Rules, s: State, userLines: seq<string>, found: seq<string>)
    requires Coherent(lex, s) && Quiet(lex, userLines) && s.phase == Stopped
    ensures Build(lex, rules, Some(s), userLines, found).phase == Stopped <==> lex.stops(s.latest)
  {
    hide Build, Quiet;
    QuietRoundKeepsProhibitions(lex, rules, s, userLines, found);
    assert ([s.latest] + [])[0] == s.latest && |[s.latest] + []| == 1;
  }

  /** A round whose user says nothing, after a stop that stood in a directive beside the request. */
  lemma StopCanBecomeExecute(lex: Lexicon, rules: Rules, s: State)
    requires Coherent(lex, s) && s.phase == Stopped
    requires !lex.stops(s.latest) && !lex.pauses(s.latest) && !Blank(s.goal) && !Blank(s.latest)
    requires !SomeLine(s.mustNotDo + [s.latest], lex.confirms)
    ensures Build(lex, rules, Some(s), [], []).next == Execute
    ensures Build(lex, rules, Some(s), [], []).mustNotDo == s.mustNotDo && s.mustNotDo != []
  {
    hide Round, Trim;
    NothingSaid(lex);
    QuietRoundKeepsProhibitions(lex, rules, s, [], []);
    assert ([s.latest] + [])[0] == s.latest && |[s.latest] + []| == 1;
  }

  lemma NothingSaid(lex: Lexicon)
    ensures Quiet(lex, []) && GoalHere(lex, []) == ""
  {
    assert Matching([], Marked(lex, lex.pinned)) == [] && Matching([], Marked(lex, lex.current)) == [];
    assert Matching([], Marked(lex, lex.restricts)) == [] && Matching([], Marked(lex, lex.goal)) == [];
  }

  /** The empty line has no marker. */
  predicate SilentOnNothing(lex: Lexicon) {
    !lex.allows("") && !lex.stops("")
  }

  // ---------- the latest instruction wins ----------

  /** Picking lines keeps exactly the matching ones, each once. */
  lemma {:induction false} MatchingIn(lines: seq<string>, matches: string -> bool)
    ensures forall s :: s in Matching(lines, matches) <==> s in lines && matches(s)
    ensures forall i, j :: 0 <= i < j < |Matching(lines, matches)| ==>
              Matching(lines, matches)[i] != Matching(lines, matches)[j]
  {
    if lines != [] {
      var init, last := lines[..|lines| - 1], lines[|lines| - 1];
      assert lines == init + [last];
      MatchingIn(init, matches);
    }
  }

  lemma {:induction false} NoneMatch(lines: seq<string>, matches: string -> bool)
    requires forall s :: s in lines ==> !matches(s)
    ensures Matching(lines, matches) == []
  {
    if lines != [] {
      assert forall s :: s in lines[..|lines| - 1] ==> s in lines;
      NoneMatch(lines[..|lines| - 1], matches);
    }
  }

  lemma {:induction false} WithoutOut(lines: seq<string>, unwanted: string -> bool)
    ensures forall s :: s in Without(lines, unwanted) <==> s in lines && !unwanted(s)
  {
    if lines != [] {
      WithoutOut(lines[1..], unwanted);
      assert forall s :: s in lines <==> s == lines[0] || s in lines[1..];
    }
  }

  /** A restricting latest instruction leaves no older permission in force. */
  lemma RestrictionOverrulesPermissions(lex: Lexicon, rules: Rules, previous: Option<State>, userLines: seq<string>,
                                        found: seq<string>)
    requires Restricting(lex, Build(lex, rules, previous, userLines, found).latest)
    ensures Build(lex, rules, previous, userLines, found).allowed == []
  {
    hide Round, PinnedDirectives, LatestHere, GoalHere, Uncertainties, NeedsConfirmation, Trim, TaskPhase;
    var s := Build(lex, rules, previous, userLines, found);
    var pinned := PinnedDirectives(lex, userLines);
    WithoutOut(pinned, d => lex.allows(d));
    var directives := Resolve(lex, pinned, s.latest);
    assert forall d :: d in directives ==> !lex.allows(d);
    NoneMatch(directives, Marked(lex, lex.allows));
  }

  // ---------- which restrictions are recorded ----------

  /** A pinned line that forbids something by itself. */
  predicate Forbids(lex: Lexicon, d: string) {
    !lex.allows(d) && ((lex.plain(d) && lex.restricts(d)) || lex.stops(d))
  }

  /**
   * When a restricting latest instruction leaves a prohibition behind: it has a stop word itself, or
   * a pinned line forbids something, or every pinned line had to give way to it.
   */
  predicate Records(lex: Lexicon, pinned: seq<string>, latest: string) {
    || lex.stops(latest)
    || (exists d :: d in pinned && Forbids(lex, d))
    || (pinned != [] && lex.plain(latest) && forall d :: d in pinned ==> lex.allows(d))
  }

  lemma PickedAny(lines: seq<string>, matches: string -> bool)
    ensures PickLines(lines, matches) != [] <==> exists s :: s in lines && matches(s)
    ensures forall s :: s in PickLines(lines, matches) ==> s in lines && matches(s)
  {
    MatchingIn(lines, matches);
    var all := Matching(lines, matches);
    if all != [] { assert all[0] in lines && matches(all[0]); }
  }

  /** What a restricting latest instruction leaves of the pinned lines. */
  lemma ResolveRestricting(lex: Lexicon, pinned: seq<string>, latest: string)
    requires Restricting(lex, latest) && !Blank(latest)
    ensures forall d :: d in pinned && !lex.allows(d) ==> d in Resolve(lex, pinned, latest)
    ensures forall d :: d in Resolve(lex, pinned, latest) ==> d == latest || (d in pinned && !lex.allows(d))
    ensures latest in Resolve(lex, pinned, latest) && latest !in pinned ==> forall d :: d in pinned ==> lex.allows(d)
    ensures pinned != [] && (forall d :: d in pinned ==> lex.allows(d)) ==> Resolve(lex, pinned, latest) == [latest]
    ensures pinned == [] ==> Resolve(lex, pinned, latest) == []
  {
    hide Blank;
    WithoutOut(pinned, d => lex.allows(d));
    var kept := Without(pinned, d => lex.allows(d));
    if kept != [] { assert kept[0] in kept; }
  }

  lemma SomeLineIn(first: string, rest: seq<string>, word: string -> bool)
    ensures SomeLine([first] + rest, word) <==> word(first) || exists d :: d in rest && word(d)
  {
    var all := [first] + rest;
    if word(first) { assert all[0] == first; }
    if d :| d in rest && word(d) {
      var i :| 0 <= i < |rest| && rest[i] == d;
      assert all[i + 1] == d;
    }
  }

  /**
   * Restrictions are recorded from pinned lines only. Exactly when a round whose latest instruction
   * restricts records a prohibition, for every round.
   */
  lemma RestrictionRecordedIff(lex: Lexicon, rules: Rules, previous: Option<State>, userLines: seq<string>,
                               found: seq<string>)
    requires !Blank(LatestHere(lex, userLines)) && Restricting(lex, LatestHere(lex, userLines))
    ensures Build(lex, rules, previous, userLines, found).latest == LatestHere(lex, userLines)
    ensures Build(lex, rules, previous, userLines, found).mustNotDo != []
       <==> Records(lex, PinnedDirectives(lex, userLines), LatestHere(lex, userLines))
  {
    hide Round, PinnedDirectives, LatestHere, GoalHere, Uncertainties, NeedsConfirmation, Trim, PickLines, Resolve,
      SomeLine;
    var pinned, latest := PinnedDirectives(lex, userLines), LatestHere(lex, userLines);
    TrimFixed("");
    var directives := Resolve(lex, pinned, latest);
    PickedAny(directives, Marked(lex, lex.restricts));
    SomeLineIn(latest, directives, lex.stops);
    ResolveRestricting(lex, pinned, latest);
    assert latest in directives && lex.plain(latest) ==> Records(lex, pinned, latest);
  }

  /** Whatever is cut from a line, a stop word left in it makes the line one of the pinned ones. */
  ghost predicate StopsPinned(lex: Lexicon) {
    forall line, max: nat :: lex.stops(LimitRunes(line, max)) ==> lex.pinned(line)
  }

  /** So without a pinned line a restricting round records nothing at all. */
  lemma UnpinnedForgotten(lex: Lexicon, rules: Rules, previous: Option<State>, userLines: seq<string>,
                          found: seq<string>)
    requires StopsPinned(lex) && PinnedDirectives(lex, userLines) == []
    requires !Blank(LatestHere(lex, userLines)) && Restricting(lex, LatestHere(lex, userLines))
    ensures Build(lex, rules, previous, userLines, found).mustNotDo == []
  {
    hide Build, Trim, PickLines, LimitRunes;
    RestrictionRecordedIff(lex, rules, previous, userLines, found);
    PickedAny(userLines, Marked(lex, lex.pinned));
    PickedAny(userLines, Marked(lex, lex.current));
    PickedAny(userLines, Marked(lex, lex.restricts));
    TrimFixed("");
    var latest := LatestHere(lex, userLines);
    var current := PickLines(userLines, Marked(lex, lex.current));
    var lines := if current == [] then PickLines(userLines, Marked(lex, lex.restricts)) else current;
    assert lines != [];
    var line := lines[|lines| - 1];
    assert line in lines && latest == LimitRunes(line, 900);
    assert !Marked(lex, lex.pinned)(line);
  }
}
