/**
 * The gateway's own marker lists as a lexicon: which lists contain which, what follows from that
 * for every round, and rounds on lines the gateway can receive.
 */
module DirectiveWords {
  import opened Wrappers
  import opened Text
  import opened DurableFacts
  import opened RestoreState
  import opened RestoreReading

  predicate Has(rules: Rules, s: string, word: string) {
    Contains(Lower(rules, s), word)
  }

  /** `gatewayAllowContinueMarkers`. */
  predicate AllowWord(rules: Rules, s: string) {
    || Has(rules, s, "继续执行并允许工具调用") || Has(rules, s, "明确允许工具调用") || Has(rules, s, "允许工具调用")
    || Has(rules, s, "可以调用工具") || Has(rules, s, "继续执行") || Has(rules, s, "继续做") || Has(rules, s, "继续处理")
    || Has(rules, s, "可以继续") || Has(rules, s, "直接继续") || Has(rules, s, "continue and allow tool")
    || Has(rules, s, "allow tool calls") || Has(rules, s, "authorized to use tools")
    || Has(rules, s, "continue execution") || Has(rules, s, "proceed")
  }

  predicate StopWord(rules: Rules, s: string) {
    Has(rules, s, "停止") || Has(rules, s, "stop")
  }

  /** The markers that both restrict and are pinned. */
  predicate ProhibitionWord(rules: Rules, s: string) {
    || StopWord(rules, s)
    || Has(rules, s, "暂停") || Has(rules, s, "不要") || Has(rules, s, "禁止") || Has(rules, s, "不得")
    || Has(rules, s, "只读") || Has(rules, s, "不要执行") || Has(rules, s, "不要写") || Has(rules, s, "不要重启")
    || Has(rules, s, "pause") || Has(rules, s, "do not") || Has(rules, s, "don't") || Has(rules, s, "must not")
    || Has(rules, s, "read-only") || Has(rules, s, "no tool")
  }

  /** `gatewayStopOrRestrictionMarkers`: six of them are not pinned. */
  predicate RestrictionWord(rules: Rules, s: string) {
    || ProhibitionWord(rules, s)
    || Has(rules, s, "不能") || Has(rules, s, "未经") || Has(rules, s, "需要确认") || Has(rules, s, "cannot")
    || Has(rules, s, "without confirmation") || Has(rules, s, "needs confirmation")
  }

  /** The markers of `currentGatewayGoal`, looked for by `has`. */
  predicate GoalWord(has: string -> bool) {
    has("本轮目标") || has("当前目标") || has("当前请求") || has("current goal") || has("current request")
  }

  /** The markers of `latestGatewayUserInstruction`. */
  predicate CurrentWord(has: string -> bool) {
    GoalWord(has) || has("最新用户") || has("最近一条用户") || has("latest user")
  }

  /** The markers of `pinnedGatewayRawDirectives`. */
  predicate PinnedWord(rules: Rules, s: string) {
    || CurrentWord(word => Has(rules, s, word)) || ProhibitionWord(rules, s)
    || Has(rules, s, "授权") || Has(rules, s, "允许") || Has(rules, s, "必须") || Has(rules, s, "一定要")
    || Has(rules, s, "只能") || Has(rules, s, "authorized") || Has(rules, s, "allowed") || Has(rules, s, "must")
    || Has(rules, s, "only")
  }

  /** At the start of the line or among its first 32 characters. */
  predicate HeadHas(rules: Rules, s: string, word: string) {
    var lower := Lower(rules, s);
    HasPrefix(lower, word) || Contains(if |lower| > 32 then lower[..32] else lower, word)
  }

  predicate PauseWord(rules: Rules, s: string) {
    || Has(rules, s, "暂停") || Has(rules, s, "只读") || Has(rules, s, "等待")
    || Has(rules, s, "pause") || Has(rules, s, "read-only") || Has(rules, s, "waiting")
  }

  predicate VerifyWord(rules: Rules, s: string) {
    || Has(rules, s, "验证") || Has(rules, s, "回归") || Has(rules, s, "测试")
    || Has(rules, s, "verify") || Has(rules, s, "regression") || Has(rules, s, "test")
  }

  predicate ConfirmWord(rules: Rules, s: string) {
    Has(rules, s, "确认") || Has(rules, s, "confirmation") || Has(rules, s, "未经")
  }

  /** The lists in their places; only the phase and the confirmation look at the untrimmed line. */
  function Words(rules: Rules): Lexicon {
    Lexicon(s => !Meta(rules, s), s => AllowWord(rules, Trim(s)), s => RestrictionWord(rules, Trim(s)),
            s => PinnedWord(rules, Trim(s)), s => CurrentWord(word => HeadHas(rules, Trim(s), word)),
            s => GoalWord(word => HeadHas(rules, Trim(s), word)),
            s => StopWord(rules, s), s => PauseWord(rules, s), s => VerifyWord(rules, s), s => ConfirmWord(rules, s))
  }

  // ---------- for every line and every round ----------

  lemma HeadIsPart(rules: Rules, s: string, word: string)
    requires HeadHas(rules, s, word)
    ensures Has(rules, s, word)
  {
    var lower := Lower(rules, s);
    if HasPrefix(lower, word) {
      assert lower[0..] == lower;
    } else if |lower| > 32 {
      ContainsPrefix(lower, 32, word);
    }
  }

  lemma GoalIsCurrent(has: string -> bool, wider: string -> bool)
    requires forall word :: has(word) ==> wider(word)
    ensures GoalWord(has) ==> CurrentWord(has)
    ensures CurrentWord(has) ==> CurrentWord(wider)
  {
  }

  /** Every goal line is a current line, every current line is pinned, and so is every line with a stop word. */
  lemma ListsNested(rules: Rules, s: string)
    ensures Words(rules).goal(s) ==> Words(rules).current(s)
    ensures Words(rules).current(s) ==> Words(rules).pinned(s)
    ensures Trimmed(s) && Words(rules).stops(s) ==> Words(rules).pinned(s) && Words(rules).restricts(s)
  {
    hide Trim, Has, HeadHas, GoalWord, CurrentWord, AllowWord, PauseWord, VerifyWord, ConfirmWord, StopWord;
    TrimFixed(s);
    var has, wider := word => HeadHas(rules, Trim(s), word), word => Has(rules, Trim(s), word);
    forall word | has(word) ensures wider(word) {
      HeadIsPart(rules, Trim(s), word);
    }
    GoalIsCurrent(has, wider);
  }

  lemma StopInPrefix(rules: Rules, t: string, n: nat)
    requires n <= |t| && StopWord(rules, t[..n])
    ensures StopWord(rules, t)
  {
    hide Contains;
    assert Lower(rules, t[..n]) == Lower(rules, t)[..n];
    if Has(rules, t[..n], "stop") {
      ContainsPrefix(Lower(rules, t), n, "stop");
    } else {
      ContainsPrefix(Lower(rules, t), n, "停止");
    }
  }

  /** A stop word in the kept form of a line was in the line, which is pinned then. */
  lemma StopWasPinned(rules: Rules, line: string, max: nat)
    requires StopWord(rules, LimitRunes(line, max))
    ensures PinnedWord(rules, Trim(line))
  {
    hide Trim, Has, StopWord, CurrentWord;
    if |Trim(line)| > max { StopInPrefix(rules, Trim(line), max); }
  }

  lemma StopsArePinned(rules: Rules)
    ensures StopsPinned(Words(rules))
  {
    hide Trim, StopWord, PinnedWord, LimitRunes, Meta;
    forall line, max: nat | StopWord(rules, LimitRunes(line, max)) ensures PinnedWord(rules, Trim(line)) {
      StopWasPinned(rules, line, max);
    }
  }

  /**
   * With the gateway's lists, a round whose latest instruction restricts and that has no pinned
   * line records nothing, whatever the lines are.
   */
  lemma UnpinnedRestrictionLost(rules: Rules, previous: Option<State>, userLines: seq<string>, found: seq<string>)
    requires PinnedDirectives(Words(rules), userLines) == []
    requires !Blank(LatestHere(Words(rules), userLines))
    requires Restricting(Words(rules), LatestHere(Words(rules), userLines))
    ensures Build(Words(rules), rules, previous, userLines, found).mustNotDo == []
  {
    hide Words, Build, LatestHere, PinnedDirectives, Restricting, StopsPinned, Blank;
    StopsArePinned(rules);
    UnpinnedForgotten(Words(rules), rules, previous, userLines, found);
  }

  lemma NothingHas(rules: Rules, word: string)
    requires |word| > 0
    ensures !Has(rules, "", word)
  {
    assert Lower(rules, "") == "";
  }

  lemma NothingMarked(rules: Rules)
    ensures !AllowWord(rules, "") && !StopWord(rules, "")
  {
    hide Has;
    NothingHas(rules, "继续执行并允许工具调用");
    NothingHas(rules, "明确允许工具调用");
    NothingHas(rules, "允许工具调用");
    NothingHas(rules, "可以调用工具");
    NothingHas(rules, "继续执行");
    NothingHas(rules, "继续做");
    NothingHas(rules, "继续处理");
    NothingHas(rules, "可以继续");
    NothingHas(rules, "直接继续");
    NothingHas(rules, "continue and allow tool");
    NothingHas(rules, "allow tool calls");
    NothingHas(rules, "authorized to use tools");
    NothingHas(rules, "continue execution");
    NothingHas(rules, "proceed");
    NothingHas(rules, "停止");
    NothingHas(rules, "stop");
  }

  lemma WordsSilentOnNothing(rules: Rules)
    ensures SilentOnNothing(Words(rules))
  {
    hide Trim, AllowWord, StopWord;
    TrimFixed("");
    NothingMarked(rules);
  }

  // ---------- rounds on real lines ----------

  predicate Letter(c: char) {
    c == ' ' || c == ':' || c == 'a' || c == 'c' || c == 'e' || 'l' <= c <= 'p' || 'r' <= c <= 'u'
  }

  /** A line of some small letters, spaces and colons without spaces around it. */
  predicate Simple(s: string) {
    s != "" && Trimmed(s) && forall i :: 0 <= i < |s| ==> Letter(s[i])
  }

  /** A word with another character at `i` is in no simple line. */
  predicate OddAt(word: string, i: nat) {
    i < |word| && !Letter(word[i])
  }

  /**
   * Lower-casing leaves those letters alone, and each marker of compaction text has another
   * character, as all of the gateway's do: an underscore or a Chinese one.
   */
  ghost predicate KeepsSimple(rules: Rules) {
    && (forall c :: Letter(c) ==> rules.lower(c) == c)
    && forall k :: 0 <= k < |rules.markers| ==> exists i: nat :: OddAt(rules.markers[k], i)
  }

  lemma LettersContained(s: string, word: string)
    requires Simple(s) && Contains(s, word)
    ensures |word| <= |s| && forall i: nat :: !OddAt(word, i)
  {
    var i :| 0 <= i <= |s| && word <= s[i..];
    forall j | 0 <= j < |word| ensures Letter(word[j]) {
      assert s[i + j] == word[j];
    }
  }

  lemma SimpleLine(rules: Rules, s: string)
    requires Simple(s) && KeepsSimple(rules)
    ensures Lower(rules, s) == s && Trim(s) == s && !Meta(rules, s) && !Blank(s) && Trimmed(s)
    ensures forall word :: |word| > |s| || OddAt(word, 0) ==> !Has(rules, s, word)
  {
    hide Trim, Contains, OddAt;
    TrimFixed(s);
    assert Lower(rules, s) == s;
    forall word | Contains(s, word) ensures |word| <= |s| && forall i: nat :: !OddAt(word, i) {
      LettersContained(s, word);
    }
  }

  lemma Unfit(rules: Rules, s: string, word: string, i: nat)
    requires Simple(s) && KeepsSimple(rules) && OddAt(word, i)
    ensures !Has(rules, s, word)
  {
    hide Contains, OddAt;
    SimpleLine(rules, s);
    if Has(rules, s, word) { LettersContained(s, word); }
  }

  lemma NoAllowWord(rules: Rules, s: string)
    requires Simple(s) && KeepsSimple(rules)
    ensures !AllowWord(rules, s)
  {
    hide Has, Simple, KeepsSimple;
    Unfit(rules, s, "继续执行并允许工具调用", 0);
    Unfit(rules, s, "明确允许工具调用", 0);
    Unfit(rules, s, "允许工具调用", 0);
    Unfit(rules, s, "可以调用工具", 0);
    Unfit(rules, s, "继续执行", 0);
    Unfit(rules, s, "继续做", 0);
    Unfit(rules, s, "继续处理", 0);
    Unfit(rules, s, "可以继续", 0);
    Unfit(rules, s, "直接继续", 0);
    Unfit(rules, s, "continue and allow tool", 4);
    Unfit(rules, s, "allow tool calls", 4);
    Unfit(rules, s, "authorized to use tools", 3);
    Unfit(rules, s, "continue execution", 4);
    Unfit(rules, s, "proceed", 6);
  }

  lemma NoConfirmWord(rules: Rules, s: string)
    requires Simple(s) && KeepsSimple(rules)
    ensures !ConfirmWord(rules, s)
  {
    hide Has, Simple, KeepsSimple;
    Unfit(rules, s, "确认", 0);
    Unfit(rules, s, "confirmation", 3);
    Unfit(rules, s, "未经", 0);
  }

  /** The restricting words that a simple line can hold. */
  lemma RestrictionWordsLeft(rules: Rules, s: string)
    requires Simple(s) && KeepsSimple(rules)
    ensures ProhibitionWord(rules, s) <==> || Has(rules, s, "stop") || Has(rules, s, "pause")
                                           || Has(rules, s, "must not") || Has(rules, s, "no tool")
    ensures RestrictionWord(rules, s) <==> ProhibitionWord(rules, s) || Has(rules, s, "cannot")
    ensures StopWord(rules, s) <==> Has(rules, s, "stop")
    ensures PauseWord(rules, s) <==> Has(rules, s, "pause")
  {
    hide Has, Simple, KeepsSimple;
    Unfit(rules, s, "停止", 0);
    Unfit(rules, s, "暂停", 0);
    Unfit(rules, s, "不要", 0);
    Unfit(rules, s, "禁止", 0);
    Unfit(rules, s, "不得", 0);
    Unfit(rules, s, "只读", 0);
    Unfit(rules, s, "不要执行", 0);
    Unfit(rules, s, "不要写", 0);
    Unfit(rules, s, "不要重启", 0);
    Unfit(rules, s, "等待", 0);
    Unfit(rules, s, "不能", 0);
    Unfit(rules, s, "未经", 0);
    Unfit(rules, s, "需要确认", 0);
    Unfit(rules, s, "do not", 0);
    Unfit(rules, s, "don't", 0);
    Unfit(rules, s, "read-only", 3);
    Unfit(rules, s, "waiting", 0);
    Unfit(rules, s, "without confirmation", 0);
    Unfit(rules, s, "needs confirmation", 3);
  }

  /** The request words that a simple line can hold. */
  lemma RequestWordsLeft(rules: Rules, s: string)
    requires Simple(s) && KeepsSimple(rules)
    ensures !GoalWord(word => HeadHas(rules, s, word))
    ensures CurrentWord(word => HeadHas(rules, s, word)) <==> HeadHas(rules, s, "latest user")
  {
    hide Has, HeadHas, Simple, KeepsSimple;
    forall word | HeadHas(rules, s, word) ensures Has(rules, s, word) {
      HeadIsPart(rules, s, word);
    }
    Unfit(rules, s, "本轮目标", 0);
    Unfit(rules, s, "当前目标", 0);
    Unfit(rules, s, "当前请求", 0);
    Unfit(rules, s, "current goal", 8);
    Unfit(rules, s, "current request", 10);
    Unfit(rules, s, "最新用户", 0);
    Unfit(rules, s, "最近一条用户", 0);
  }

  lemma PinnedWordsLeft(rules: Rules, s: string)
    requires Simple(s) && KeepsSimple(rules)
    ensures PinnedWord(rules, s)
       <==> Has(rules, s, "latest user") || ProhibitionWord(rules, s) || Has(rules, s, "must")
  {
    hide Has, ProhibitionWord, Simple, KeepsSimple;
    Unfit(rules, s, "本轮目标", 0);
    Unfit(rules, s, "当前目标", 0);
    Unfit(rules, s, "当前请求", 0);
    Unfit(rules, s, "current goal", 8);
    Unfit(rules, s, "current request", 10);
    Unfit(rules, s, "最新用户", 0);
    Unfit(rules, s, "最近一条用户", 0);
    Unfit(rules, s, "授权", 0);
    Unfit(rules, s, "允许", 0);
    Unfit(rules, s, "必须", 0);
    Unfit(rules, s, "一定要", 0);
    Unfit(rules, s, "只能", 0);
    Unfit(rules, s, "authorized", 3);
    Unfit(rules, s, "allowed", 4);
    Unfit(rules, s, "only", 3);
  }

  lemma ContainedAt(s: string, word: string, i: nat)
    requires Contains(s, word) && i < |word|
    ensures |word| <= |s| && word[i] in s
  {
    var k :| 0 <= k <= |s| && word <= s[k..];
    assert s[k + i] == word[i];
  }

  lemma Lacks(rules: Rules, s: string, word: string, i: nat)
    requires Simple(s) && KeepsSimple(rules) && i < |word| && (|word| > |s| || word[i] !in s)
    ensures !Has(rules, s, word) && !HeadHas(rules, s, word)
  {
    hide Contains, OddAt;
    SimpleLine(rules, s);
    if Has(rules, s, word) { ContainedAt(s, word, i); }
    if HeadHas(rules, s, word) { HeadIsPart(rules, s, word); }
  }

  lemma Starts(rules: Rules, s: string, word: string)
    requires Simple(s) && KeepsSimple(rules) && word <= s
    ensures Has(rules, s, word) && HeadHas(rules, s, word)
  {
    SimpleLine(rules, s);
    assert s[0..] == s;
  }

  /** What the lists see in a line. */
  predicate Reads(rules: Rules, s: string, pinned: bool, current: bool, restricts: bool, stops: bool) {
    var lex := Words(rules);
    && Marked(lex, lex.pinned)(s) == pinned && Marked(lex, lex.current)(s) == current && !Marked(lex, lex.goal)(s)
    && Marked(lex, lex.restricts)(s) == lex.restricts(s) == restricts && lex.stops(s) == stops
    && !lex.allows(s) && !lex.confirms(s) && Trimmed(s) && !Blank(s)
  }

  lemma SimpleReads(rules: Rules, s: string)
    requires Simple(s) && KeepsSimple(rules)
    ensures Reads(rules, s, PinnedWord(rules, s), HeadHas(rules, s, "latest user"), RestrictionWord(rules, s),
                  StopWord(rules, s))
    ensures Words(rules).pauses(s) == PauseWord(rules, s)
  {
    hide Has, HeadHas, PinnedWord, RestrictionWord, StopWord, AllowWord, ConfirmWord, GoalWord, CurrentWord, PauseWord,
      VerifyWord, Meta, Trim, Simple, KeepsSimple;
    SimpleLine(rules, s);
    NoAllowWord(rules, s);
    NoConfirmWord(rules, s);
    RequestWordsLeft(rules, s);
  }

  const REQUEST := "latest user: run"

  /** "stop" is pinned and stops; the request is pinned and current, and restricts nothing. */
  lemma StopAndRequestRead(rules: Rules)
    requires KeepsSimple(rules)
    ensures Reads(rules, "stop", true, false, true, true) && Reads(rules, REQUEST, true, true, false, false)
    ensures !Words(rules).pauses(REQUEST)
  {
    hide Has, HeadHas, PinnedWord, RestrictionWord, ProhibitionWord, PauseWord, StopWord, Reads, KeepsSimple, Words;
    assert Simple("stop") && Simple(REQUEST);
    SimpleReads(rules, "stop");
    RestrictionWordsLeft(rules, "stop");
    PinnedWordsLeft(rules, "stop");
    Starts(rules, "stop", "stop");
    Lacks(rules, "stop", "latest user", 0);
    SimpleReads(rules, REQUEST);
    RestrictionWordsLeft(rules, REQUEST);
    PinnedWordsLeft(rules, REQUEST);
    Starts(rules, REQUEST, "latest user");
    Lacks(rules, REQUEST, "stop", 2);
    Lacks(rules, REQUEST, "pause", 0);
    Lacks(rules, REQUEST, "must not", 0);
    Lacks(rules, REQUEST, "no tool", 1);
    Lacks(rules, REQUEST, "cannot", 0);
  }

  /** "must" is pinned and no more; "cannot" restricts and is not pinned. */
  lemma MustAndCannotRead(rules: Rules)
    requires KeepsSimple(rules)
    ensures Reads(rules, "must", true, false, false, false) && Reads(rules, "cannot", false, false, true, false)
  {
    hide Has, HeadHas, PinnedWord, RestrictionWord, ProhibitionWord, PauseWord, StopWord, Reads, KeepsSimple, Words;
    assert Simple("must") && Simple("cannot");
    SimpleReads(rules, "must");
    RestrictionWordsLeft(rules, "must");
    PinnedWordsLeft(rules, "must");
    Starts(rules, "must", "must");
    Lacks(rules, "must", "latest user", 0);
    Lacks(rules, "must", "stop", 2);
    Lacks(rules, "must", "pause", 0);
    Lacks(rules, "must", "must not", 5);
    Lacks(rules, "must", "no tool", 0);
    Lacks(rules, "must", "cannot", 0);
    SimpleReads(rules, "cannot");
    RestrictionWordsLeft(rules, "cannot");
    PinnedWordsLeft(rules, "cannot");
    Starts(rules, "cannot", "cannot");
    Lacks(rules, "cannot", "latest user", 0);
    Lacks(rules, "cannot", "stop", 0);
    Lacks(rules, "cannot", "pause", 0);
    Lacks(rules, "cannot", "must not", 0);
    Lacks(rules, "cannot", "no tool", 5);
    Lacks(rules, "cannot", "must", 0);
  }

  lemma PickOne(a: string, matches: string -> bool)
    ensures PickLines([a], matches) == if matches(a) then [a] else []
  {
    assert [a][..0] == [] && [] + [a] == [a];
    assert Matching([], matches) == [];
    assert Matching([a], matches) == if matches(a) then [a] else [];
  }

  lemma PickTwo(a: string, b: string, matches: string -> bool)
    requires a != b
    ensures PickLines([a, b], matches) == (if matches(a) then [a] else []) + (if matches(b) then [b] else [])
  {
    assert [a, b][..1] == [a] && [a][..0] == [];
    assert Matching([a], matches) == if matches(a) then [a] else [];
    assert [a] + [b] == [a, b];
  }

  lemma ShortLines(lines: seq<string>, max: nat)
    requires forall i :: 0 <= i < |lines| ==> Trimmed(lines[i]) && |lines[i]| <= max
    ensures Limited(lines, max) == lines
    ensures forall i :: 0 <= i < |lines| ==> LimitRunes(lines[i], max) == lines[i]
  {
    hide Trim;
    forall i | 0 <= i < |lines| ensures LimitRunes(lines[i], max) == lines[i] { TrimFixed(lines[i]); }
  }

  /** What a round with a first line and a current or restricting second one picks out of them. */
  lemma TwoLinesPicked(rules: Rules, a: string, b: string, pa: bool, ra: bool, sa: bool, pb: bool, cb: bool, rb: bool)
    requires a != b && |a| <= 700 && |b| <= 700 && (cb || rb)
    requires Reads(rules, a, pa, false, ra, sa) && Reads(rules, b, pb, cb, rb, false)
    ensures PinnedDirectives(Words(rules), [a, b]) == (if pa then [a] else []) + (if pb then [b] else [])
    ensures LatestHere(Words(rules), [a, b]) == b && GoalHere(Words(rules), [a, b]) == ""
  {
    hide PickLines, LimitRunes, Limited, Words, Trim;
    var lex := Words(rules);
    PickTwo(a, b, Marked(lex, lex.pinned));
    PickTwo(a, b, Marked(lex, lex.current));
    PickTwo(a, b, Marked(lex, lex.restricts));
    PickTwo(a, b, Marked(lex, lex.goal));
    ShortLines((if pa then [a] else []) + (if pb then [b] else []), 700);
    ShortLines([b], 900);
  }

  lemma Distinguished()
    ensures "stop" != REQUEST && "must" != "cannot"
    ensures |"stop"| <= 700 && |REQUEST| <= 700 && |"must"| <= 700 && |"cannot"| <= 700
  {
    assert |"stop"| == 4 && |REQUEST| == 16 && |"must"| == 4 && |"cannot"| == 6;
  }

  /** The state after a line that stops and a request: stopped, with the one prohibition. */
  lemma StoppedByFirstLine(rules: Rules, a: string, b: string)
    requires a != b && |a| <= 700 && |b| <= 700
    requires Reads(rules, a, true, false, true, true) && Reads(rules, b, true, true, false, false)
    ensures var s := Build(Words(rules), rules, None, [a, b], []);
            s.latest == s.goal == b && s.directives == [a, b] && s.mustNotDo == [a] && s.phase == Stopped
  {
    hide Words, PickLines, PinnedDirectives, LatestHere, GoalHere, Round, Trim, SomeLine, NeedsConfirmation;
    var lex := Words(rules);
    TrimFixed("");
    TwoLinesPicked(rules, a, b, true, true, true, true, true, false);
    assert [a] + [b] == [a, b];
    PickTwo(a, b, Marked(lex, lex.restricts));
    assert [a] + [] == [a];
    SomeLineIn(b, [a, b], lex.stops);
    assert [a, b][0] == a && b != "";
  }

  /**
   * A round with "stop" and then a request stops; a round after it in which the user says nothing
   * executes, with the prohibition still recorded.
   */
  lemma StoppedRoundThenExecutes(rules: Rules)
    requires KeepsSimple(rules)
    ensures var s := Build(Words(rules), rules, None, ["stop", REQUEST], []);
            var t := Build(Words(rules), rules, Some(s), [], []);
            s.phase == Stopped && s.next == NoOp && t.next == Execute && t.mustNotDo == s.mustNotDo == ["stop"]
  {
    hide Words, Build, KeepsSimple, Trim;
    var lex := Words(rules);
    var s := Build(lex, rules, None, ["stop", REQUEST], []);
    StopAndRequestRead(rules);
    Distinguished();
    StoppedByFirstLine(rules, "stop", REQUEST);
    BuildCoherent(lex, rules, None, ["stop", REQUEST], []);
    StopCanBecomeExecute(lex, rules, s);
  }

  /** Two rounds that end on "cannot", one with a pinned line before it: neither records a prohibition. */
  lemma RestrictionForgotten(rules: Rules)
    requires KeepsSimple(rules)
    ensures var s := Build(Words(rules), rules, None, ["cannot"], []);
            s.latest == "cannot" && Restricting(Words(rules), s.latest) && s.mustNotDo == []
    ensures var s := Build(Words(rules), rules, None, ["must", "cannot"], []);
            s.latest == "cannot" && Restricting(Words(rules), s.latest) && s.mustNotDo == []
            && PinnedDirectives(Words(rules), ["must", "cannot"]) == ["must"]
  {
    hide Words, Build, PinnedDirectives, LatestHere, GoalHere, KeepsSimple, Trim;
    var lex := Words(rules);
    Distinguished();
    MustAndCannotRead(rules);
    CannotAlone(rules);
    TwoLinesPicked(rules, "must", "cannot", true, false, false, false, false, true);
    assert ["must"] + [] == ["must"];
    RestrictionRecordedIff(lex, rules, None, ["cannot"], []);
    RestrictionRecordedIff(lex, rules, None, ["must", "cannot"], []);
    assert !Forbids(lex, "must") && !lex.allows("must");
    assert "must" in ["must"];
    assert !Records(lex, [], "cannot") && !Records(lex, ["must"], "cannot");
  }

  lemma CannotAlone(rules: Rules)
    requires Reads(rules, "cannot", false, false, true, false)
    ensures PinnedDirectives(Words(rules), ["cannot"]) == [] && LatestHere(Words(rules), ["cannot"]) == "cannot"
  {
    hide PickLines, LimitRunes, Limited, Words, Trim;
    var lex := Words(rules);
    PickOne("cannot", Marked(lex, lex.pinned));
    PickOne("cannot", Marked(lex, lex.current));
    PickOne("cannot", Marked(lex, lex.restricts));
    Distinguished();
    ShortLines([], 700);
    ShortLines(["cannot"], 900);
  }

  const OTHER_REQUEST := "latest user: see"

  lemma RequestsRead(rules: Rules)
    requires KeepsSimple(rules)
    ensures CurrentLine(rules, REQUEST) && CurrentLine(rules, OTHER_REQUEST)
    ensures REQUEST != OTHER_REQUEST && |REQUEST| == |OTHER_REQUEST| == 16
  {
    hide Has, HeadHas, PinnedWord, RestrictionWord, ProhibitionWord, PauseWord, StopWord, KeepsSimple, Words;
    assert Simple(REQUEST) && Simple(OTHER_REQUEST);
    assert REQUEST[13] == 'r' && OTHER_REQUEST[13] == 's';
    SimpleReads(rules, REQUEST);
    SimpleReads(rules, OTHER_REQUEST);
    Starts(rules, REQUEST, "latest user");
    Starts(rules, OTHER_REQUEST, "latest user");
  }

  predicate CurrentLine(rules: Rules, line: string) {
    Marked(Words(rules), Words(rules).current)(line) && Trimmed(line)
  }

  /** A request, another one, and the first one again: the other one counts as the latest. */
  lemma RepeatedRequestOverlooked(rules: Rules)
    requires KeepsSimple(rules)
    ensures LatestHere(Words(rules), [REQUEST, OTHER_REQUEST, REQUEST]) == OTHER_REQUEST
  {
    hide Words, LatestHere, KeepsSimple, LimitRunes, Trimmed;
    RequestsRead(rules);
    var lex, lines := Words(rules), [REQUEST, OTHER_REQUEST, REQUEST];
    assert lines[0] == lines[2] == REQUEST && lines[1] == OTHER_REQUEST;
    LatestHereIs(lex, lines);
    var k: nat :| LastNew(lines, Marked(lex, lex.current), k) && LatestHere(lex, lines) == LimitRunes(lines[k], 900);
    assert !Seen(lines, 1) && Seen(lines, 2);
    assert k == 1;
    ShortKept(OTHER_REQUEST);
  }
}
