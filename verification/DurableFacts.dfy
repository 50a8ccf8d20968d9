/** The durable facts a compacted session carries from round to round: a bounded list without repeats. */
module DurableFacts {
  import opened Wrappers
  import opened Text

  const FACT_RUNES := 300

  /** How lines are recognised as compaction's own text: lower-casing per character and the markers. */
  datatype Rules = Rules(lower: char -> char, markers: seq<string>)

  function Lower(rules: Rules, s: string): string {
    seq(|s|, i requires 0 <= i < |s| => rules.lower(s[i]))
  }

  /** `gatewayLineIsCompactionMeta`. */
  predicate Meta(rules: Rules, line: string) {
    Trim(line) == "" || exists i :: 0 <= i < |rules.markers| && Contains(Lower(rules, Trim(line)), rules.markers[i])
  }

  /** `limitRunes`. */
  function LimitRunes(text: string, max: nat): string {
    if |Trim(text)| <= max then Trim(text) else Trim(text)[..max]
  }

  /** The form in which a fact is kept. */
  function Normal(fact: string): string {
    LimitRunes(fact, FACT_RUNES)
  }

  // ---------- specification ----------

  /** `gatewayAppendDurableFact` on the list alone. */
  function AppendFact(rules: Rules, facts: seq<string>, fact: string, limit: nat): seq<string> {
    if Meta(rules, fact) || Normal(fact) in facts then facts
    else if |facts| + 1 > limit then (facts + [Normal(fact)])[1..]
    else facts + [Normal(fact)]
  }

  function AppendAll(rules: Rules, facts: seq<string>, more: seq<string>, limit: nat): seq<string>
    decreases |more|
  {
    if more == [] then facts else AppendAll(rules, AppendFact(rules, facts, more[0], limit), more[1..], limit)
  }

  predicate Distinct(facts: seq<string>) {
    forall i, j :: 0 <= i < j < |facts| ==> facts[i] != facts[j]
  }

  function SetOf(facts: seq<string>): set<string> {
    set f | f in facts
  }

  lemma WithoutFirst(facts: seq<string>)
    requires Distinct(facts) && facts != []
    ensures SetOf(facts[1..]) == SetOf(facts) - {facts[0]}
  {
    assert facts == [facts[0]] + facts[1..];
  }

  /** What the list always is: without repeats, bounded, and made of real facts. */
  predicate Kept(rules: Rules, facts: seq<string>, limit: nat) {
    && Distinct(facts) && |facts| <= limit
    && forall f :: f in facts ==> !Meta(rules, f) && |f| <= FACT_RUNES
  }

  // ---------- the list and its index ----------

  class FactList {
    var out: seq<string>
    var seen: set<string>

    ghost predicate Valid(rules: Rules, limit: nat) reads this {
      Kept(rules, out, limit) && seen == SetOf(out)
    }

    constructor ()
      ensures out == [] && seen == {}
    {
      out, seen := [], {};
    }

    method Append(rules: Rules, fact: string, limit: nat)
      requires Valid(rules, limit) && limit > 0
      modifies this
      ensures Valid(rules, limit) && out == AppendFact(rules, old(out), fact, limit)
    {
      hide Trim, Meta;
      AppendKeeps(rules, out, fact, limit);
      if Meta(rules, fact) {
        return;
      }
      var kept := Normal(fact);
      if kept in seen {
        return;
      }
      seen := seen + {kept};
      out := out + [kept];
      assert seen == SetOf(out) && Distinct(out);
      if |out| > limit {
        WithoutFirst(out);
        seen := seen - {out[0]};
        out := out[1..];
      }
    }

    /** `gatewayDurableFacts` and `gatewayFactLines`: appending a list of facts one by one. */
    method AppendEach(rules: Rules, facts: seq<string>, limit: nat)
      requires Valid(rules, limit) && limit > 0
      modifies this
      ensures Valid(rules, limit) && out == AppendAll(rules, old(out), facts, limit)
    {
      hide AppendFact, Kept;
      var i := 0;
      assert facts[0..] == facts;
      while i < |facts|
        invariant 0 <= i <= |facts| && Valid(rules, limit)
        invariant AppendAll(rules, out, facts[i..], limit) == AppendAll(rules, old(out), facts, limit)
      {
        assert facts[i..][1..] == facts[i + 1..];
        Append(rules, facts[i], limit);
        i := i + 1;
      }
      assert facts[i..] == [];
    }
  }

  // ---------- the kept form of a fact ----------

  lemma ContainsPrefix(s: string, n: nat, sub: string)
    requires n <= |s| && Contains(s[..n], sub)
    ensures Contains(s, sub)
  {
    var i :| 0 <= i <= |s[..n]| && sub <= s[..n][i..];
    assert s[..n][i..] <= s[i..];
    assert sub <= s[i..];
  }

  /** A prefix of a fact, shortened to its own trimmed form, is still no compaction text. */
  lemma PrefixNotMeta(rules: Rules, t: string, x: string)
    requires Trim(t) == t && t != "" && x <= t && x != "" && !Meta(rules, t)
    ensures !Meta(rules, x)
  {
    hide Trim, Contains;
    TrimFixed(t);
    var i, j := TrimCut(x);
    assert x[0] == t[0];
    assert i == 0 && j > 0;
    var y := Trim(x);
    assert y == t[..j];
    assert Lower(rules, y) == Lower(rules, t)[..j];
    forall k | 0 <= k < |rules.markers| ensures !Contains(Lower(rules, y), rules.markers[k]) {
      if Contains(Lower(rules, y), rules.markers[k]) {
        ContainsPrefix(Lower(rules, t), j, rules.markers[k]);
      }
    }
  }

  lemma NormalNotMeta(rules: Rules, fact: string)
    requires !Meta(rules, fact)
    ensures !Meta(rules, Normal(fact)) && |Normal(fact)| <= FACT_RUNES && Normal(fact) != ""
  {
    hide Trim, Contains;
    TrimFixed(fact);
    PrefixNotMeta(rules, Trim(fact), Normal(fact));
  }

  /** The kept form is kept again unchanged unless the cut at 300 runes fell right behind a space. */
  lemma NormalStableIff(fact: string)
    ensures Normal(Normal(fact)) == Normal(fact) <==> |Trim(fact)| <= FACT_RUNES || !IsSpace(Trim(fact)[FACT_RUNES - 1])
    ensures Normal(Normal(Normal(fact))) == Normal(Normal(fact))
  {
    hide Trim, IsSpace;
    var t := Trim(fact);
    TrimFixed(fact);
    TrimFixed(t);
    var n := Normal(fact);
    TrimFixed(n);
    TrimFixed(Trim(n));
    if |t| > FACT_RUNES {
      assert n[0] == t[0] && n[FACT_RUNES - 1] == t[FACT_RUNES - 1];
    }
  }

  /** A fact of 301 characters whose 300th is a space: kept with the space, and without it one round later. */
  lemma KeptFormMayChange()
    ensures var letters := seq(FACT_RUNES - 1, _ => 'a');
            Normal(letters + " b") == letters + " " && Normal(letters + " ") == letters
  {
    hide Trim;
    var letters := seq(FACT_RUNES - 1, _ => 'a');
    var fact := letters + " b";
    assert fact[0] == 'a' && fact[|fact| - 1] == 'b';
    TrimFixed(fact);
    assert fact[..FACT_RUNES] == letters + " ";
    assert letters[0] == 'a' && letters[|letters| - 1] == 'a';
    TrimFixed(letters);
    TrimPadded("", letters, " ");
    assert "" + letters + " " == letters + " ";
  }

  lemma AppendKeeps(rules: Rules, facts: seq<string>, fact: string, limit: nat)
    requires Kept(rules, facts, limit) && limit > 0
    ensures Kept(rules, AppendFact(rules, facts, fact, limit), limit)
  {
    hide Meta, Trim;
    if !Meta(rules, fact) { NormalNotMeta(rules, fact); }
  }

  lemma {:induction false} AppendAllKeeps(rules: Rules, facts: seq<string>, more: seq<string>, limit: nat)
    requires Kept(rules, facts, limit) && limit > 0
    ensures Kept(rules, AppendAll(rules, facts, more, limit), limit)
    decreases |more|
  {
    hide Kept, AppendFact;
    if more != [] {
      AppendKeeps(rules, facts, more[0], limit);
      AppendAllKeeps(rules, AppendFact(rules, facts, more[0], limit), more[1..], limit);
    }
  }

  // ---------- eviction ----------

  function Normals(facts: seq<string>): set<string> {
    set f | f in facts :: Normal(f)
  }

  lemma {:induction false} DistinctSize(facts: seq<string>)
    requires Distinct(facts)
    ensures |SetOf(facts)| == |facts|
  {
    if facts != [] {
      var init, last := facts[..|facts| - 1], facts[|facts| - 1];
      DistinctSize(init);
      assert SetOf(facts) == SetOf(init) + {last};
    }
  }

  lemma {:induction false} SubsetSize<T>(a: set<T>, b: set<T>)
    requires a <= b
    ensures |a| <= |b|
  {
    if a != {} {
      var x :| x in a;
      SubsetSize(a - {x}, b - {x});
    }
  }

  /** The facts newer than the one at index `p`, now or among `more`. */
  function Newer(facts: seq<string>, p: nat, more: seq<string>): set<string>
    requires p < |facts|
  {
    SetOf(facts[p + 1..]) + Normals(more) - {facts[p]}
  }

  lemma NewerGrows(facts: seq<string>, p: nat, g: string, rest: seq<string>)
    requires p < |facts|
    ensures Newer(facts, p, rest) <= Newer(facts, p, [g] + rest)
    ensures |Newer(facts, p, rest)| <= |Newer(facts, p, [g] + rest)|
  {
    hide Normal;
    SubsetSize(Newer(facts, p, rest), Newer(facts, p, [g] + rest));
  }

  /** The newer facts after an append were newer, or still to come, before it. */
  lemma NewerAfter(facts: seq<string>, p: nat, g: string, rest: seq<string>, next: seq<string>, q: nat)
    requires p < |facts| && q < |next| && next[q] == facts[p] && next[q + 1..] == facts[p + 1..] + [Normal(g)]
    ensures |Newer(next, q, rest)| <= |Newer(facts, p, [g] + rest)|
  {
    hide Normal;
    var more := [g] + rest;
    assert g in more && forall r :: r in rest ==> r in more;
    assert Newer(next, q, rest) <= Newer(facts, p, more);
    SubsetSize(Newer(next, q, rest), Newer(facts, p, more));
  }

  /** When the oldest fact of a full list leaves, everything on the new list is newer. */
  lemma OldestLeaves(facts: seq<string>, g: string, rest: seq<string>)
    requires facts != [] && Distinct(facts) && Normal(g) !in facts
    ensures |Newer(facts, 0, [g] + rest)| >= |facts|
  {
    hide Normal;
    var newer := facts[1..] + [Normal(g)];
    var more := [g] + rest;
    assert g in more;
    assert Distinct(newer);
    DistinctSize(newer);
    assert SetOf(newer) <= Newer(facts, 0, more);
    SubsetSize(SetOf(newer), Newer(facts, 0, more));
  }

  /** An append changes nothing, or drops the oldest fact, or moves the fact at `p` to `q`. */
  lemma AppendCases(rules: Rules, facts: seq<string>, g: string, limit: nat, p: nat) returns (q: nat)
    requires Kept(rules, facts, limit) && limit > 0 && p < |facts|
    ensures var next := AppendFact(rules, facts, g, limit);
            || next == facts
            || (p == 0 && |facts| == limit && Distinct(facts) && Normal(g) !in facts)
            || (q < |next| && next[q] == facts[p] && next[q + 1..] == facts[p + 1..] + [Normal(g)])
  {
    hide Meta, Normal;
    q := if |facts| + 1 > limit && p > 0 then p - 1 else p;
  }

  /**
   * First in, first out: a fact that is on the list and later is not has been pushed out by at
   * least `limit` distinct newer facts.
   */
  lemma {:induction false} EvictedOnlyByNewer(rules: Rules, facts: seq<string>, more: seq<string>, limit: nat, p: nat)
    requires Kept(rules, facts, limit) && limit > 0 && p < |facts|
    requires facts[p] !in AppendAll(rules, facts, more, limit)
    ensures |Newer(facts, p, more)| >= limit
    decreases |more|
  {
    hide Meta, Normal, Newer, AppendFact, Kept, Distinct;
    if more != [] {
      var g, rest := more[0], more[1..];
      var next := AppendFact(rules, facts, g, limit);
      AppendKeeps(rules, facts, g, limit);
      assert more == [g] + rest;
      var q := AppendCases(rules, facts, g, limit, p);
      if next == facts {
        EvictedOnlyByNewer(rules, facts, rest, limit, p);
        NewerGrows(facts, p, g, rest);
      } else if p == 0 && |facts| == limit && Distinct(facts) && Normal(g) !in facts {
        OldestLeaves(facts, g, rest);
      } else {
        EvictedOnlyByNewer(rules, next, rest, limit, q);
        NewerAfter(facts, p, g, rest, next, q);
      }
    }
  }

  // ---------- rounds ----------

  /** One compaction round: the previous facts, if the stored state was readable, then this round's. */
  function Round(rules: Rules, previous: Option<seq<string>>, found: seq<string>, limit: nat): seq<string> {
    var start := if previous.Some? then AppendAll(rules, [], previous.value, limit) else [];
    AppendAll(rules, start, AppendAll(rules, [], found, limit), limit)
  }

  /** Many rounds in which every stored state is read back. */
  function Rounds(rules: Rules, facts: seq<string>, rounds: seq<seq<string>>, limit: nat): seq<string>
    decreases |rounds|
  {
    if rounds == [] then facts else Rounds(rules, Round(rules, Some(facts), rounds[0], limit), rounds[1..], limit)
  }

  // ---------- eviction across rounds ----------

  /** Every fact on the list is kept unchanged when it is read back. */
  predicate Stable(facts: seq<string>) {
    forall f :: f in facts ==> Normal(f) == f
  }

  lemma {:induction false} AppendAllConcat(rules: Rules, facts: seq<string>, xs: seq<string>, ys: seq<string>,
                                           limit: nat)
    ensures AppendAll(rules, facts, xs + ys, limit) == AppendAll(rules, AppendAll(rules, facts, xs, limit), ys, limit)
    decreases |xs|
  {
    hide AppendFact;
    if xs == [] {
      assert xs + ys == ys;
    } else {
      assert (xs + ys)[1..] == xs[1..] + ys && (xs + ys)[0] == xs[0];
      AppendAllConcat(rules, AppendFact(rules, facts, xs[0], limit), xs[1..], ys, limit);
    }
  }

  /** Reading a stored list back gives the list. */
  lemma {:induction false} ReadBack(rules: Rules, before: seq<string>, facts: seq<string>, limit: nat)
    requires Kept(rules, before + facts, limit) && Stable(facts)
    ensures AppendAll(rules, before, facts, limit) == before + facts
    decreases |facts|
  {
    hide Meta, Normal;
    if facts == [] {
      assert before + facts == before;
    } else {
      var all := before + facts;
      assert all[|before|] == facts[0] && facts[0] in all;
      assert facts[0] !in before by {
        assert forall i :: 0 <= i < |before| ==> all[i] == before[i];
      }
      assert (before + [facts[0]]) + facts[1..] == all;
      ReadBack(rules, before + [facts[0]], facts[1..], limit);
    }
  }

  /** What a round appends to the facts it read back: this round's facts, themselves collected first. */
  function Lines(rules: Rules, found: seq<string>, limit: nat): seq<string> {
    AppendAll(rules, [], found, limit)
  }

  function AllLines(rules: Rules, rounds: seq<seq<string>>, limit: nat): seq<string> {
    if rounds == [] then [] else Lines(rules, rounds[0], limit) + AllLines(rules, rounds[1..], limit)
  }

  lemma {:induction false} AppendedFrom(rules: Rules, facts: seq<string>, more: seq<string>, limit: nat)
    ensures forall f :: f in AppendAll(rules, facts, more, limit) ==> f in facts || f in Normals(more)
    decreases |more|
  {
    hide Meta, Normal;
    if more != [] {
      AppendedFrom(rules, AppendFact(rules, facts, more[0], limit), more[1..], limit);
      assert Normal(more[0]) in Normals(more);
      assert forall f :: f in more[1..] ==> f in more;
    }
  }

  /** The facts a round appends are kept in a form that later rounds leave alone. */
  lemma LinesSettle(rules: Rules, found: seq<string>, limit: nat)
    ensures forall f :: f in Lines(rules, found, limit) ==> f in Normals(found) && Normal(Normal(f)) == Normal(f)
  {
    hide Meta, Normal, AppendAll;
    AppendedFrom(rules, [], found, limit);
    forall f | f in Lines(rules, found, limit) ensures f in Normals(found) && Normal(Normal(f)) == Normal(f) {
      var g :| g in found && f == Normal(g);
      NormalStableIff(g);
    }
  }

  lemma AppendLinesStable(rules: Rules, facts: seq<string>, found: seq<string>, limit: nat)
    requires Stable(facts)
    ensures Stable(AppendAll(rules, facts, Lines(rules, found, limit), limit))
  {
    hide Meta, Normal, AppendAll;
    LinesSettle(rules, found, limit);
    AppendedFrom(rules, facts, Lines(rules, found, limit), limit);
  }

  /** Rounds that read their states back are one long run of appends. */
  lemma {:induction false} RoundsAreAppends(rules: Rules, facts: seq<string>, rounds: seq<seq<string>>, limit: nat)
    requires Kept(rules, facts, limit) && limit > 0 && Stable(facts)
    ensures Rounds(rules, facts, rounds, limit) == AppendAll(rules, facts, AllLines(rules, rounds, limit), limit)
    ensures Stable(Rounds(rules, facts, rounds, limit)) && Kept(rules, Rounds(rules, facts, rounds, limit), limit)
    decreases |rounds|
  {
    hide Kept, Stable, AppendAll;
    if rounds == [] {
      NothingAppended(rules, facts, limit);
    } else {
      assert [] + facts == facts;
      ReadBack(rules, [], facts, limit);
      var next := AppendAll(rules, facts, Lines(rules, rounds[0], limit), limit);
      assert Round(rules, Some(facts), rounds[0], limit) == next;
      AppendLinesStable(rules, facts, rounds[0], limit);
      AppendAllKeeps(rules, facts, Lines(rules, rounds[0], limit), limit);
      RoundsAreAppends(rules, next, rounds[1..], limit);
      AppendAllConcat(rules, facts, Lines(rules, rounds[0], limit), AllLines(rules, rounds[1..], limit), limit);
    }
  }

  lemma NothingAppended(rules: Rules, facts: seq<string>, limit: nat)
    ensures AppendAll(rules, facts, [], limit) == facts
  {
  }

  /** The settled forms of everything found in the rounds. */
  function FoundForms(rounds: seq<seq<string>>): set<string> {
    set i, f | 0 <= i < |rounds| && f in rounds[i] :: Normal(Normal(f))
  }

  lemma {:induction false} LinesAreFound(rules: Rules, rounds: seq<seq<string>>, limit: nat)
    ensures Normals(AllLines(rules, rounds, limit)) <= FoundForms(rounds)
    decreases |rounds|
  {
    hide Normal, Lines;
    if rounds != [] {
      var rest := rounds[1..];
      LinesAreFound(rules, rest, limit);
      LinesSettle(rules, rounds[0], limit);
      forall f | f in AllLines(rules, rounds, limit) ensures Normal(f) in FoundForms(rounds) {
        if f in Lines(rules, rounds[0], limit) {
          var g :| g in rounds[0] && f == Normal(g);
          assert g in rounds[0];
        } else {
          assert Normal(f) in Normals(AllLines(rules, rest, limit));
          var i, g :| 0 <= i < |rest| && g in rest[i] && Normal(f) == Normal(Normal(g));
          assert rounds[i + 1] == rest[i];
        }
      }
    }
  }

  /**
   * First in, first out over any number of rounds: a fact on the list that a later round no longer
   * carries was pushed out by at least `limit` distinct facts, newer on the list or found since.
   */
  lemma EvictedAcrossRounds(rules: Rules, facts: seq<string>, rounds: seq<seq<string>>, limit: nat, p: nat)
    requires Kept(rules, facts, limit) && limit > 0 && Stable(facts) && p < |facts|
    requires facts[p] !in Rounds(rules, facts, rounds, limit)
    ensures |SetOf(facts[p + 1..]) + FoundForms(rounds) - {facts[p]}| >= limit
  {
    hide Kept, Stable, Rounds, AllLines, AppendAll, Normals, FoundForms;
    RoundsAreAppends(rules, facts, rounds, limit);
    var more := AllLines(rules, rounds, limit);
    EvictedOnlyByNewer(rules, facts, more, limit, p);
    LinesAreFound(rules, rounds, limit);
    SubsetSize(Newer(facts, p, more), SetOf(facts[p + 1..]) + FoundForms(rounds) - {facts[p]});
  }

  /** Every list that rounds have built up from nothing is one the previous statement speaks about. */
  lemma BuiltListsAreStable(rules: Rules, rounds: seq<seq<string>>, limit: nat)
    requires limit > 0
    ensures Kept(rules, Rounds(rules, [], rounds, limit), limit) && Stable(Rounds(rules, [], rounds, limit))
  {
    hide Rounds;
    RoundsAreAppends(rules, [], rounds, limit);
  }

  // ---------- nothing lost ----------

  /** A universe the list cannot outgrow: closed under normalisation and no larger than the limit. */
  ghost predicate Universe(all: set<string>, limit: nat) {
    |all| <= limit && forall f :: f in all ==> Normal(f) in all
  }

  lemma {:induction false} NothingEvicted(rules: Rules, facts: seq<string>, more: seq<string>, limit: nat,
                                          all: set<string>)
    requires Kept(rules, facts, limit) && limit > 0 && Universe(all, limit)
    requires SetOf(facts) <= all && Normals(more) <= all
    ensures var after := AppendAll(rules, facts, more, limit);
            SetOf(facts) <= SetOf(after) <= all && forall f :: f in more && !Meta(rules, f) ==> Normal(f) in after
    decreases |more|
  {
    hide Meta, Normal;
    if more != [] {
      var next := AppendFact(rules, facts, more[0], limit);
      AppendKeeps(rules, facts, more[0], limit);
      if !Meta(rules, more[0]) && Normal(more[0]) !in facts {
        var grown := facts + [Normal(more[0])];
        DistinctSize(grown);
        SubsetSize(SetOf(grown), all);
        assert next == grown;
      }
      assert !Meta(rules, more[0]) ==> Normal(more[0]) in SetOf(next);
      assert Normal(more[0]) in Normals(more);
      NothingEvicted(rules, next, more[1..], limit, all);
      assert forall f :: f in more <==> f == more[0] || f in more[1..];
    }
  }

  /** A fact survives a round at least in its trimmed form. */
  predicate Survives(facts: seq<string>, fact: string) {
    Normal(fact) in facts || Normal(Normal(fact)) in facts
  }

  lemma RoundLosesNothing(rules: Rules, facts: seq<string>, found: seq<string>, limit: nat, all: set<string>)
    requires Kept(rules, facts, limit) && limit > 0 && Universe(all, limit)
    requires SetOf(facts) <= all && Normals(found) <= all
    ensures var after := Round(rules, Some(facts), found, limit);
            Kept(rules, after, limit) && SetOf(after) <= all
            && (forall f :: f in facts ==> Normal(f) in after)
            && (forall f :: f in found && !Meta(rules, f) ==> Survives(after, f))
  {
    hide Meta, Normal, AppendAll;
    var start := AppendAll(rules, [], facts, limit);
    var lines := AppendAll(rules, [], found, limit);
    assert Normals(facts) <= all by {
      forall f | f in facts ensures Normal(f) in all { assert f in SetOf(facts); }
    }
    NothingEvicted(rules, [], facts, limit, all);
    NothingEvicted(rules, [], found, limit, all);
    AppendAllKeeps(rules, [], facts, limit);
    AppendAllKeeps(rules, [], found, limit);
    assert Normals(lines) <= all by {
      forall f | f in lines ensures Normal(f) in all { assert f in SetOf(lines); }
    }
    NothingEvicted(rules, start, lines, limit, all);
    AppendAllKeeps(rules, start, lines, limit);
    var after := AppendAll(rules, start, lines, limit);
    forall f | f in facts ensures Normal(f) in after {
      assert Normal(f) in SetOf(start);
    }
    forall f | f in found && !Meta(rules, f) ensures Normal(Normal(f)) in after {
      assert Normal(f) in lines;
    }
  }

  lemma {:induction false} RoundsKeepStable(rules: Rules, facts: seq<string>, rounds: seq<seq<string>>, limit: nat,
                                            all: set<string>, f: string)
    requires Kept(rules, facts, limit) && limit > 0 && Universe(all, limit) && SetOf(facts) <= all
    requires forall i :: 0 <= i < |rounds| ==> Normals(rounds[i]) <= all
    requires Survives(facts, f) || exists i :: 0 <= i < |rounds| && f in rounds[i] && !Meta(rules, f)
    ensures Survives(Rounds(rules, facts, rounds, limit), f)
    decreases |rounds|
  {
    hide Meta, Normal, Round, Kept, Universe;
    if rounds != [] {
      var after := Round(rules, Some(facts), rounds[0], limit);
      RoundLosesNothing(rules, facts, rounds[0], limit, all);
      NormalStableIff(f);
      if Survives(facts, f) {
        assert Survives(after, f);
      } else {
        var i :| 0 <= i < |rounds| && f in rounds[i] && !Meta(rules, f);
        assert i > 0 ==> rounds[1..][i - 1] == rounds[i];
      }
      RoundsKeepStable(rules, after, rounds[1..], limit, all, f);
    }
  }

  /**
   * If the facts ever registered, in their kept forms, are no more than the limit, none of them is
   * lost over any number of rounds whose stored state is read back.
   */
  lemma NoFactLost(rules: Rules, rounds: seq<seq<string>>, limit: nat, all: set<string>, i: nat, f: string)
    requires limit > 0 && Universe(all, limit)
    requires forall k :: 0 <= k < |rounds| ==> Normals(rounds[k]) <= all
    requires i < |rounds| && f in rounds[i] && !Meta(rules, f)
    ensures Survives(Rounds(rules, [], rounds, limit), f)
  {
    hide Meta, Normal, Rounds;
    RoundsKeepStable(rules, [], rounds, limit, all, f);
  }
}
