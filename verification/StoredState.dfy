/**
 * The restore state as stored text: what is carried from round to round is the first 12 000
 * characters of the encoded state, and a state that does not fit is lost as a whole.
 */
module StoredState {
  import opened Wrappers
  import opened Text
  import opened DurableFacts
  import opened RestoreState

  const SUMMARY_RUNES := 12000

  /** JSON text of a state, `rest` being the text of the fields that `State` leaves out, and its reading. */
  datatype Store = Store(encode: (State, string) -> string, decode: string -> Option<State>)

  function TotalLength(lines: seq<string>): nat {
    if lines == [] then 0 else |lines[0]| + TotalLength(lines[1..])
  }

  /**
   * What the model asks of the encoding: text between braces that reads back, that holds every fact
   * and more, and of which no shorter beginning is read. (The second attempt of the reader, from the
   * first brace to the last one, looks at such a beginning again.)
   */
  ghost predicate Sound(store: Store) {
    && (forall s, rest :: Trimmed(store.encode(s, rest)) && store.decode(store.encode(s, rest)) == Some(s))
    && (forall s, rest :: |store.encode(s, rest)| > TotalLength(s.facts))
    && (forall s, rest, n: nat :: n < |store.encode(s, rest)| ==> store.decode(store.encode(s, rest)[..n]) == None)
  }

  /** `buildGatewayContextSummary`: the text that is stored. */
  function Stored(store: Store, s: State, rest: string): string {
    LimitRunes(store.encode(s, rest), SUMMARY_RUNES)
  }

  /** What the next round reads of it, with `parseGatewayContextRestoreState`. */
  function Reload(store: Store, s: State, rest: string): Option<State> {
    store.decode(Stored(store, s, rest))
  }

  predicate Fits(store: Store, s: State, rest: string) {
    |store.encode(s, rest)| <= SUMMARY_RUNES
  }

  /** A stored state is read back if and only if its text fits; otherwise nothing of it is. */
  lemma ReadBackIff(store: Store, s: State, rest: string)
    requires Sound(store)
    ensures Reload(store, s, rest) == Some(s) <==> Fits(store, s, rest)
    ensures !Fits(store, s, rest) ==> Reload(store, s, rest) == None
  {
    hide Trim, TotalLength;
    TrimFixed(store.encode(s, rest));
  }

  lemma {:induction false} FullLength(facts: seq<string>)
    requires forall f :: f in facts ==> |f| == FACT_RUNES
    ensures TotalLength(facts) == |facts| * FACT_RUNES
  {
    if facts != [] {
      assert facts[0] in facts && forall f :: f in facts[1..] ==> f in facts;
      FullLength(facts[1..]);
    }
  }

  /** Forty facts of full length never fit, although the list may hold 64. */
  lemma FortyFullFactsAreLost(store: Store, s: State, rest: string)
    requires Sound(store) && |s.facts| >= 40 && forall f :: f in s.facts ==> |f| == FACT_RUNES
    ensures Reload(store, s, rest) == None
  {
    FullLength(s.facts);
    ReadBackIff(store, s, rest);
  }

  // ---------- sessions ----------

  /** One round's input, and the text of the fields left out of the state it stores. */
  datatype Turn = Turn(userLines: seq<string>, found: seq<string>, rest: string)

  function After(lex: Lexicon, rules: Rules, previous: Option<State>, turn: Turn): State {
    Build(lex, rules, previous, turn.userLines, turn.found)
  }

  function ReadNext(lex: Lexicon, rules: Rules, store: Store, previous: Option<State>, turn: Turn): Option<State> {
    Reload(store, After(lex, rules, previous, turn), turn.rest)
  }

  /** What is read back after the turns. */
  function Session(lex: Lexicon, rules: Rules, store: Store, previous: Option<State>, turns: seq<Turn>): Option<State>
    decreases |turns|
  {
    if turns == [] then previous
    else Session(lex, rules, store, ReadNext(lex, rules, store, previous, turns[0]), turns[1..])
  }

  /** Every state of the session fits into the stored text. */
  predicate AllFit(lex: Lexicon, rules: Rules, store: Store, previous: Option<State>, turns: seq<Turn>)
    decreases |turns|
  {
    turns == [] ||
    (Fits(store, After(lex, rules, previous, turns[0]), turns[0].rest)
     && AllFit(lex, rules, store, ReadNext(lex, rules, store, previous, turns[0]), turns[1..]))
  }

  function FoundIn(turns: seq<Turn>): seq<seq<string>> {
    if turns == [] then [] else [turns[0].found] + FoundIn(turns[1..])
  }

  /** While every state fits, the facts of the session are those of rounds that read everything back. */
  lemma {:induction false} FittingSessionKeepsFacts(lex: Lexicon, rules: Rules, store: Store, s: State,
                                                    turns: seq<Turn>)
    requires Sound(store) && AllFit(lex, rules, store, Some(s), turns)
    ensures Session(lex, rules, store, Some(s), turns).Some?
    ensures Session(lex, rules, store, Some(s), turns).value.facts
         == Rounds(rules, s.facts, FoundIn(turns), MAX_FACTS)
    decreases |turns|
  {
    hide Sound, Round, Fits, Reload, Conclude, PinnedDirectives, LatestHere, GoalHere, Resolve, PickLines;
    if turns != [] {
      var t := After(lex, rules, Some(s), turns[0]);
      ReadBackIff(store, t, turns[0].rest);
      assert t.facts == Round(rules, Some(s.facts), turns[0].found,
                              MAX_FACTS) by { BuildFacts(lex, rules, Some(s), turns[0]); }
      assert FoundIn(turns)[1..] == FoundIn(turns[1..]);
      FittingSessionKeepsFacts(lex, rules, store, t, turns[1..]);
    }
  }

  lemma BuildFacts(lex: Lexicon, rules: Rules, previous: Option<State>, turn: Turn)
    ensures After(lex, rules, previous, turn).facts
         == Round(rules, if previous.Some? then Some(previous.value.facts) else None, turn.found, MAX_FACTS)
  {
    hide Round, PinnedDirectives, LatestHere, GoalHere, Resolve, PickLines;
  }

  /** A state that does not fit erases the session: what follows is as if nothing had come before. */
  lemma OverflowForgetsAll(lex: Lexicon, rules: Rules, store: Store, previous: Option<State>, turn: Turn,
                           turns: seq<Turn>)
    requires Sound(store) && !Fits(store, After(lex, rules, previous, turn), turn.rest)
    ensures Session(lex, rules, store, previous, [turn] + turns) == Session(lex, rules, store, None, turns)
  {
    hide After, Fits, Sound, Reload;
    ReadBackIff(store, After(lex, rules, previous, turn), turn.rest);
    assert ([turn] + turns)[1..] == turns;
  }

  /** A round that registers forty facts of full length hands none of them on. */
  lemma FullRoundIsForgotten(lex: Lexicon, rules: Rules, store: Store, turn: Turn)
    requires Sound(store) && Kept(rules, turn.found, MAX_FACTS) && Stable(turn.found)
    requires |turn.found| >= 40 && forall f :: f in turn.found ==> |f| == FACT_RUNES
    ensures After(lex, rules, None, turn).facts == turn.found
    ensures ReadNext(lex, rules, store, None, turn) == None
  {
    hide Sound, Kept, Stable, AppendAll, Reload, After;
    assert [] + turn.found == turn.found;
    ReadBack(rules, [], turn.found, MAX_FACTS);
    BuildFacts(lex, rules, None, turn);
    FortyFullFactsAreLost(store, After(lex, rules, None, turn), turn.rest);
  }

  // ---------- prohibitions under the cap ----------

  predicate QuietTurns(lex: Lexicon, turns: seq<Turn>) {
    forall i :: 0 <= i < |turns| ==> Quiet(lex, turns[i].userLines)
  }

  /** A state that forbids nothing and was told nothing. */
  ghost predicate Unaware(lex: Lexicon, previous: Option<State>) {
    previous.Some? ==> Coherent(lex, previous.value) && previous.value.mustNotDo == [] && previous.value.latest == ""
  }

  /** The first round of a session in which the user directs nothing forbids nothing. */
  lemma QuietStart(lex: Lexicon, rules: Rules, turn: Turn)
    requires SilentOnNothing(lex) && Quiet(lex, turn.userLines)
    ensures After(lex, rules, None, turn).mustNotDo == [] && After(lex, rules, None, turn).latest == ""
  {
    hide Round, PinnedDirectives, LatestHere, GoalHere, Uncertainties, NeedsConfirmation, Trim, PickLines;
    assert Resolve(lex, [], "") == [];
    PickedAny([], Marked(lex, lex.restricts));
    SomeLineIn("", [], lex.stops);
  }

  lemma UnawareStaysUnaware(lex: Lexicon, rules: Rules, previous: Option<State>, turn: Turn)
    requires SilentOnNothing(lex) && Unaware(lex, previous) && Quiet(lex, turn.userLines)
    ensures Unaware(lex, Some(After(lex, rules, previous, turn)))
  {
    hide Coherent, Build, Quiet;
    BuildCoherent(lex, rules, previous, turn.userLines, turn.found);
    if previous.Some? {
      QuietRoundKeepsProhibitions(lex, rules, previous.value, turn.userLines, turn.found);
    } else {
      QuietStart(lex, rules, turn);
    }
  }

  lemma {:induction false} UnawareSession(lex: Lexicon, rules: Rules, store: Store, previous: Option<State>,
                                          turns: seq<Turn>)
    requires Sound(store) && SilentOnNothing(lex) && Unaware(lex, previous) && QuietTurns(lex, turns)
    ensures Unaware(lex, Session(lex, rules, store, previous, turns))
    decreases |turns|
  {
    hide Unaware, Quiet, After, Sound, Reload, Fits;
    if turns != [] {
      UnawareStaysUnaware(lex, rules, previous, turns[0]);
      var t := After(lex, rules, previous, turns[0]);
      ReadBackIff(store, t, turns[0].rest);
      NoneUnaware(lex);
      UnawareSession(lex, rules, store, ReadNext(lex, rules, store, previous, turns[0]), turns[1..]);
    }
  }

  lemma NoneUnaware(lex: Lexicon)
    ensures Unaware(lex, None)
  {
  }

  predicate StillForbids(previous: Option<State>, mustNotDo: seq<string>) {
    previous.Some? && previous.value.mustNotDo == mustNotDo
  }

  /**
   * Over any number of rounds in which the user says nothing that directs the work, a prohibition
   * stays in force if and only if every state of these rounds fits into the stored text.
   */
  lemma {:induction false} ProhibitionsSurviveIff(lex: Lexicon, rules: Rules, store: Store, s: State, turns: seq<Turn>)
    requires Sound(store) && SilentOnNothing(lex) && Coherent(lex, s) && s.mustNotDo != [] && QuietTurns(lex, turns)
    ensures StillForbids(Session(lex, rules, store, Some(s), turns), s.mustNotDo)
       <==> AllFit(lex, rules, store, Some(s), turns)
    decreases |turns|
  {
    hide Coherent, Quiet, After, Sound, Reload, Fits;
    if turns != [] {
      var t := After(lex, rules, Some(s), turns[0]);
      ReadBackIff(store, t, turns[0].rest);
      if Fits(store, t, turns[0].rest) {
        QuietTurnKeeps(lex, rules, s, turns[0]);
        ProhibitionsSurviveIff(lex, rules, store, t, turns[1..]);
      } else {
        NoneUnaware(lex);
        UnawareSession(lex, rules, store, None, turns[1..]);
      }
    }
  }

  lemma QuietTurnKeeps(lex: Lexicon, rules: Rules, s: State, turn: Turn)
    requires Coherent(lex, s) && Quiet(lex, turn.userLines)
    ensures After(lex, rules, Some(s), turn).mustNotDo == s.mustNotDo
    ensures Coherent(lex, After(lex, rules, Some(s), turn))
  {
    hide Build, Coherent, Quiet;
    QuietRoundKeepsProhibitions(lex, rules, s, turn.userLines, turn.found);
    BuildCoherent(lex, rules, Some(s), turn.userLines, turn.found);
  }
}
