/** The burst limiter over whole runs: it answers like an unpruned sliding log, key by key. */
module BurstRuns {
  import opened Sequences
  import opened Text
  import opened BurstLimiter

  datatype Call = Call(key: string, now: Time)

  function Get(logs: map<string, seq<Time>>, key: string): seq<Time> {
    if key in logs then logs[key] else []
  }

  /** The answers of the limiter to interleaved calls of many keys, at fixed limits. */
  function Serve(logs: map<string, seq<Time>>, calls: seq<Call>, limit: int, window: int): seq<bool>
    decreases |calls|
  {
    if calls == [] then [] else
    var Call(key, now) := calls[0];
    if !Guarded(key, limit, window) then [true] + Serve(logs, calls[1..], limit, window)
    else
      var (log, ok) := Decide(Get(logs, key), limit, window, now);
      [ok] + Serve(logs[key := log], calls[1..], limit, window)
  }

  /** The same limiter serving one key. */
  function ServeKey(log: seq<Time>, times: seq<Time>, limit: int, window: int): seq<bool>
    decreases |times|
  {
    if times == [] then [] else
    var (next, ok) := Decide(log, limit, window, times[0]);
    [ok] + ServeKey(next, times[1..], limit, window)
  }

  function TimesOf(calls: seq<Call>, key: string): seq<Time> {
    if calls == [] then []
    else if calls[0].key == key then [calls[0].now] + TimesOf(calls[1..], key)
    else TimesOf(calls[1..], key)
  }

  function AnswersOf(calls: seq<Call>, answers: seq<bool>, key: string): seq<bool>
    requires |answers| == |calls|
  {
    if calls == [] then []
    else if calls[0].key == key then [answers[0]] + AnswersOf(calls[1..], answers[1..], key)
    else AnswersOf(calls[1..], answers[1..], key)
  }

  lemma {:induction false} ServeLength(logs: map<string, seq<Time>>, calls: seq<Call>, limit: int, window: int)
    ensures |Serve(logs, calls, limit, window)| == |calls|
    decreases |calls|
  {
    hide Blank, Live;
    if calls != [] {
      var Call(key, now) := calls[0];
      ServeLength(logs, calls[1..], limit, window);
      ServeLength(logs[key := Decide(Get(logs, key), limit, window, now).0], calls[1..], limit, window);
    }
  }

  /** Keys do not influence each other: each one is answered as if it were alone. */
  lemma {:induction false} KeysIndependent(logs: map<string, seq<Time>>, calls: seq<Call>, limit: int, window: int,
                                           key: string)
    requires Guarded(key, limit, window)
    ensures |Serve(logs, calls, limit, window)| == |calls|
    ensures AnswersOf(calls, Serve(logs, calls, limit, window), key)
         == ServeKey(Get(logs, key), TimesOf(calls, key), limit, window)
    decreases |calls|
  {
    hide Blank, Decide;
    ServeLength(logs, calls, limit, window);
    if calls != [] {
      var Call(k, now) := calls[0];
      var answers := Serve(logs, calls, limit, window);
      var (log, ok) := Decide(Get(logs, k), limit, window, now);
      var next := if Guarded(k, limit, window) then logs[k := log] else logs;
      assert answers[1..] == Serve(next, calls[1..], limit, window);
      KeysIndependent(next, calls[1..], limit, window, key);
      if k == key {
        assert answers[0] == ok && Get(next, key) == log;
        assert TimesOf(calls, key)[0] == now && TimesOf(calls, key)[1..] == TimesOf(calls[1..], key);
      } else {
        assert Get(next, key) == Get(logs, key);
      }
    }
  }

  // ---------- the plain sliding log ----------

  /** How many logged times lie in the interval (lo, hi]. */
  function CountIn(log: seq<Time>, lo: Time, hi: Time): nat {
    if log == [] then 0 else (if lo < log[|log| - 1] <= hi then 1 else 0) + CountIn(log[..|log| - 1], lo, hi)
  }

  /** The reference: nothing is ever forgotten, a call is accepted if fewer than `limit` were in its window. */
  function Reference(history: seq<Time>, times: seq<Time>, limit: int, window: int): seq<bool>
    decreases |times|
  {
    if times == [] then [] else
    var ok := CountIn(history, times[0] - window, times[0]) < limit;
    [ok] + Reference(if ok then history + [times[0]] else history, times[1..], limit, window)
  }

  /** Every time the reference has accepted after serving `times`. */
  function Accepted(history: seq<Time>, times: seq<Time>, limit: int, window: int): seq<Time>
    decreases |times|
  {
    if times == [] then history else
    var ok := CountIn(history, times[0] - window, times[0]) < limit;
    Accepted(if ok then history + [times[0]] else history, times[1..], limit, window)
  }

  predicate Nondecreasing(times: seq<Time>) {
    forall i, j :: 0 <= i < j < |times| ==> times[i] <= times[j]
  }

  // ---------- refinement ----------

  lemma {:induction false} LiveTwice(log: seq<Time>, c: Time, d: Time)
    requires c <= d
    ensures Live(Live(log, c), d) == Live(log, d)
  {
    if log != [] {
      LiveTwice(log[1..], c, d);
      if log[0] > c {
        var kept := [log[0]] + Live(log[1..], c);
        assert kept[0] == log[0] && kept[1..] == Live(log[1..], c);
      }
    }
  }

  predicate UpTo(log: seq<Time>, hi: Time) {
    forall i :: 0 <= i < |log| ==> log[i] <= hi
  }

  lemma {:induction false} CountIsLive(log: seq<Time>, lo: Time, hi: Time)
    requires UpTo(log, hi)
    ensures CountIn(log, lo, hi) == |Live(log, lo)|
  {
    if log != [] {
      var init, last := log[..|log| - 1], log[|log| - 1];
      assert log == init + [last];
      CountIsLive(init, lo, hi);
      LiveSnoc(init, last, lo);
    }
  }

  /** A pruned log and the full history agree on everything later than `cutoff`. */
  ghost predicate Agree(log: seq<Time>, history: seq<Time>, cutoff: Time) {
    Live(log, cutoff) == Live(history, cutoff)
  }

  lemma AgreementKept(log: seq<Time>, history: seq<Time>, now: Time, window: int, later: Time, ok: bool)
    requires Agree(log, history, now - window) && now - window <= later
    ensures var keep := Live(log, now - window);
            Agree(if ok then keep + [now] else keep, if ok then history + [now] else history, later)
  {
    hide Live;
    LiveTwice(log, now - window, later);
    LiveTwice(history, now - window, later);
    LiveSnoc(Live(log, now - window), now, later);
    LiveSnoc(history, now, later);
  }

  lemma TailNondecreasing(times: seq<Time>)
    requires Nondecreasing(times) && times != []
    ensures Nondecreasing(times[1..])
  {
  }

  /** Pruning is invisible: with times that never go back, every answer is the plain log's answer. */
  lemma {:induction false} PrunedRefinesPlain(log: seq<Time>, history: seq<Time>, times: seq<Time>, limit: int,
                                              window: int)
    requires window > 0 && Nondecreasing(times)
    requires times != [] ==> Agree(log, history, times[0] - window) && UpTo(history, times[0])
    ensures ServeKey(log, times, limit, window) == Reference(history, times, limit, window)
    decreases |times|
  {
    hide Live, CountIn;
    if times != [] {
      var now, rest := times[0], times[1..];
      var keep := Live(log, now - window);
      CountIsLive(history, now - window, now);
      var ok := |keep| < limit;
      TailNondecreasing(times);
      if rest != [] {
        assert times[0] <= times[1] == rest[0];
        AgreementKept(log, history, now, window, rest[0] - window, ok);
      }
      var log', history' := if ok then keep + [now] else keep, if ok then history + [now] else history;
      PrunedRefinesPlain(log', history', rest, limit, window);
    }
  }

  /** The whole limiter, all keys interleaved, answers every key like the plain sliding log. */
  lemma LimiterRefinesPlainLog(calls: seq<Call>, limit: int, window: int, key: string)
    requires Guarded(key, limit, window) && Nondecreasing(TimesOf(calls, key))
    ensures |Serve(map[], calls, limit, window)| == |calls|
    ensures AnswersOf(calls, Serve(map[], calls, limit, window), key)
         == Reference([], TimesOf(calls, key), limit, window)
  {
    hide Blank, Serve;
    KeysIndependent(map[], calls, limit, window, key);
    PrunedRefinesPlain([], [], TimesOf(calls, key), limit, window);
  }

  // ---------- the bound ----------

  /** Each entry came when fewer than `limit` entries were in its window. */
  ghost predicate Admitted(history: seq<Time>, limit: int, window: int) {
    forall i :: 0 <= i < |history| ==> CountIn(history[..i], history[i] - window, history[i]) < limit
  }

  /** Widening the interval to the left, or dropping a right end nothing reaches, loses no entry. */
  lemma {:induction false} CountMonotone(log: seq<Time>, lo: Time, hi: Time, lo': Time, hi': Time)
    requires lo' <= lo && UpTo(log, hi')
    ensures CountIn(log, lo, hi) <= CountIn(log, lo', hi')
  {
    if log != [] {
      CountMonotone(log[..|log| - 1], lo, hi, lo', hi');
    }
  }

  lemma AdmittedPrefix(history: seq<Time>, limit: int, window: int)
    requires history != [] && Admitted(history, limit, window)
    ensures Admitted(history[..|history| - 1], limit, window)
  {
    hide CountIn;
    var init := history[..|history| - 1];
    forall i | 0 <= i < |init| ensures CountIn(init[..i], init[i] - window, init[i]) < limit {
      assert init[..i] == history[..i] && init[i] == history[i];
    }
  }

  lemma {:induction false} WindowNeverExceeded(history: seq<Time>, limit: int, window: int, end: Time)
    requires limit > 0 && window > 0 && Nondecreasing(history) && Admitted(history, limit, window)
    ensures CountIn(history, end - window, end) <= limit
  {
    if history != [] {
      var n := |history| - 1;
      var init, last := history[..n], history[n];
      AdmittedPrefix(history, limit, window);
      WindowNeverExceeded(init, limit, window, end);
      if end - window < last <= end {
        CountMonotone(init, end - window, end, last - window, last);
        assert CountIn(history[..n], history[n] - window, history[n]) < limit;
      }
    }
  }

  lemma AdmittedSnoc(history: seq<Time>, now: Time, limit: int, window: int)
    requires Admitted(history, limit, window) && CountIn(history, now - window, now) < limit
    ensures Admitted(history + [now], limit, window)
  {
    hide CountIn;
    var next := history + [now];
    forall i | 0 <= i < |next| ensures CountIn(next[..i], next[i] - window, next[i]) < limit {
      assert next[..i] == history[..i];
      assert history[..|history|] == history;
    }
  }

  lemma {:induction false} AcceptedAdmitted(history: seq<Time>, times: seq<Time>, limit: int, window: int)
    requires Nondecreasing(times) && Nondecreasing(history) && Admitted(history, limit, window)
    requires times != [] ==> UpTo(history, times[0])
    ensures Nondecreasing(Accepted(history, times, limit, window))
    ensures Admitted(Accepted(history, times, limit, window), limit, window)
    decreases |times|
  {
    hide CountIn, Admitted;
    if times != [] {
      var now, rest := times[0], times[1..];
      var ok := CountIn(history, now - window, now) < limit;
      if ok { AdmittedSnoc(history, now, limit, window); }
      TailNondecreasing(times);
      assert rest != [] ==> now <= rest[0] by {
        assert rest != [] ==> times[0] <= times[1];
      }
      AcceptedAdmitted(if ok then history + [now] else history, rest, limit, window);
    }
  }

  /** The calls that were answered yes. */
  function Granted(times: seq<Time>, answers: seq<bool>): seq<Time>
    decreases |times|
  {
    if times == [] || answers == [] then []
    else (if answers[0] then [times[0]] else []) + Granted(times[1..], answers[1..])
  }

  /** The history the reference builds is what it granted. */
  lemma {:induction false} AcceptedIsGranted(history: seq<Time>, times: seq<Time>, limit: int, window: int)
    ensures Accepted(history, times, limit, window)
         == history + Granted(times, Reference(history, times, limit, window))
    decreases |times|
  {
    hide CountIn;
    if times == [] {
      assert history + [] == history;
    } else {
      var now, rest := times[0], times[1..];
      var ok := CountIn(history, now - window, now) < limit;
      var next := if ok then history + [now] else history;
      var answers := Reference(history, times, limit, window);
      AcceptedIsGranted(next, rest, limit, window);
      assert answers[0] == ok && answers[1..] == Reference(next, rest, limit, window);
      ConcatAssociates(history, if ok then [now] else [], Granted(rest, answers[1..]));
      assert history + [] == history;
    }
  }

  /** The times at which the limiter itself said yes to one key. */
  function GrantedTo(log: seq<Time>, times: seq<Time>, limit: int, window: int): seq<Time> {
    Granted(times, ServeKey(log, times, limit, window))
  }

  /** The bound for one key, on the answers the pruned log gives. */
  lemma KeyBound(times: seq<Time>, limit: int, window: int, end: Time)
    requires limit > 0 && window > 0 && Nondecreasing(times)
    ensures CountIn(GrantedTo([], times, limit, window), end - window, end) <= limit
  {
    PrunedRefinesPlain([], [], times, limit, window);
    AcceptedIsGranted([], times, limit, window);
    assert [] + GrantedTo([], times, limit, window) == GrantedTo([], times, limit, window);
    AcceptedAdmitted([], times, limit, window);
    WindowNeverExceeded(Accepted([], times, limit, window), limit, window, end);
  }

  /**
   * On any run of the limiter, all keys interleaved, whose times for a key never go back: every
   * interval of the window's length, wherever it ends, holds at most `limit` calls of the key that
   * were answered yes.
   */
  lemma BurstBound(calls: seq<Call>, limit: int, window: int, key: string, end: Time)
    requires Guarded(key, limit, window) && Nondecreasing(TimesOf(calls, key))
    ensures |Serve(map[], calls, limit, window)| == |calls|
    ensures CountIn(Granted(TimesOf(calls, key), AnswersOf(calls, Serve(map[], calls, limit, window), key)),
                    end - window, end) <= limit
  {
    hide Blank, Serve;
    KeysIndependent(map[], calls, limit, window, key);
    KeyBound(TimesOf(calls, key), limit, window, end);
  }

  // ---------- times that go back ----------

  /** Does a call at `now` get the plain log's answer after a call at `last`, whatever was accepted up to then? */
  ghost predicate AnsweredPlainly(last: Time, now: Time, window: int) {
    forall history: seq<Time>, limit: int :: UpTo(history, last) ==> SameAnswer(history, limit, last, now, window)
  }

  /** The log pruned by the call at `last` and the whole history give the call at `now` the same answer. */
  predicate SameAnswer(history: seq<Time>, limit: int, last: Time, now: Time, window: int) {
    Decide(Live(history, last - window), limit, window, now).1 <==> CountIn(history, now - window, now) < limit
  }

  lemma PlainlyInOrder(last: Time, now: Time, window: int)
    requires window > 0 && last <= now
    ensures AnsweredPlainly(last, now, window)
  {
    hide Live, CountIn;
    forall history: seq<Time>, limit: int | UpTo(history, last) ensures SameAnswer(history, limit, last, now, window) {
      CountIsLive(history, now - window, now);
      LiveTwice(history, last - window, now - window);
    }
  }

  lemma FutureEntry(last: Time, now: Time, window: int)
    requires window > 0 && now < last
    ensures !SameAnswer([last], 1, last, now, window)
  {
    LiveSmall(last, last - window);
    LiveSmall(last, now - window);
    CountMore([], last, now - window, now);
    assert [] + [last] == [last];
  }

  lemma LiveSmall(t: Time, cutoff: Time)
    ensures Live([], cutoff) == [] && Live([t], cutoff) == if t > cutoff then [t] else []
    ensures Live([t, t], cutoff) == if t > cutoff then [t, t] else []
  {
    assert [] + [t] == [t] && [t] + [t] == [t, t];
    LiveSnoc([], t, cutoff);
    LiveSnoc([t], t, cutoff);
  }

  /** Exactly the calls that do not go back behind the previous one are always answered like the plain log's. */
  lemma AnsweredPlainlyIffInOrder(last: Time, now: Time, window: int)
    requires window > 0
    ensures AnsweredPlainly(last, now, window) <==> last <= now
  {
    if last <= now {
      PlainlyInOrder(last, now, window);
    } else {
      FutureEntry(last, now, window);
      assert UpTo([last], last);
    }
  }

  /** Is the bound kept by every run in order up to `last` and one more call at `now`? */
  ghost predicate BoundKept(last: Time, now: Time, window: int) {
    forall times: seq<Time>, limit: int, end: Time :: limit > 0 ==> WithinLimit(times, last, now, limit, window, end)
  }

  predicate WithinLimit(times: seq<Time>, last: Time, now: Time, limit: int, window: int, end: Time) {
    Nondecreasing(times + [last]) ==>
      CountIn(GrantedTo([], times + [last] + [now], limit, window), end - window, end) <= limit
  }

  /** Two early calls, one at `last` that prunes them away, then one whose window still holds them. */
  lemma LateCallOverflows(early: Time, last: Time, now: Time, window: int)
    requires window > 0 && now - window < early <= now && early <= last - window && now < last
    ensures ServeKey([], [early, early, last, now], 2, window) == [true, true, true, true]
    ensures Reference([], [early, early, last, now], 2, window) == [true, true, true, false]
    ensures CountIn(GrantedTo([], [early, early, last, now], 2, window), now - window, now) == 3
  {
    hide ServeKey, Reference, GrantedTo, CountIn;
    PrunedAcceptsAll(early, last, now, window);
    PlainRefusesLast(early, last, now, window);
    AllGranted(early, last, now, window);
    WindowCounts(early, last, now, window);
  }

  lemma AllGranted(early: Time, last: Time, now: Time, window: int)
    requires ServeKey([], [early, early, last, now], 2, window) == [true, true, true, true]
    ensures GrantedTo([], [early, early, last, now], 2, window) == [early, early, last, now]
  {
    hide ServeKey;
    GrantOne(early, [early, last, now], [true, true, true]);
    GrantOne(early, [last, now], [true, true]);
    GrantOne(last, [now], [true]);
    GrantOne(now, [], []);
  }

  lemma GrantOne(t: Time, rest: seq<Time>, answers: seq<bool>)
    ensures Granted([t] + rest, [true] + answers) == [t] + Granted(rest, answers)
  {
    assert ([t] + rest)[1..] == rest && ([true] + answers)[1..] == answers;
  }

  lemma ServeOne(log: seq<Time>, now: Time, rest: seq<Time>, limit: int, window: int)
    ensures ServeKey(log, [now] + rest, limit, window)
         == [Decide(log, limit, window, now).1] + ServeKey(Decide(log, limit, window, now).0, rest, limit, window)
  {
    assert ([now] + rest)[1..] == rest;
  }

  lemma ReferOne(history: seq<Time>, now: Time, rest: seq<Time>, limit: int, window: int)
    ensures Reference(history, [now] + rest, limit, window)
         == if CountIn(history, now - window, now) < limit
            then [true] + Reference(history + [now], rest, limit, window)
            else [false] + Reference(history, rest, limit, window)
  {
    assert ([now] + rest)[1..] == rest;
  }

  lemma FirstDecisions(early: Time, window: int)
    requires window > 0
    ensures Decide([], 2, window, early) == ([early], true)
    ensures Decide([early], 2, window, early) == ([early, early], true)
  {
    hide Live;
    LiveSmall(early, early - window);
    assert [] + [early] == [early] && [early] + [early] == [early, early];
  }

  lemma LaterDecisions(early: Time, last: Time, now: Time, window: int)
    requires window > 0 && early <= last - window && now < last
    ensures Decide([early, early], 2, window, last) == ([last], true)
    ensures Decide([last], 2, window, now) == ([last, now], true)
  {
    hide Live;
    LiveSmall(early, last - window);
    LiveSmall(last, now - window);
    assert [] + [last] == [last] && [last] + [now] == [last, now];
  }

  lemma PrunedAcceptsAll(early: Time, last: Time, now: Time, window: int)
    requires window > 0 && early <= last - window && now < last
    ensures ServeKey([], [early, early, last, now], 2, window) == [true, true, true, true]
  {
    FirstDecisions(early, window);
    LaterDecisions(early, last, now, window);
    hide Decide, ServeKey;
    assert [early, early, last, now] == [early] + [early, last, now] && [early, last, now] == [early] + [last, now];
    assert [last, now] == [last] + [now] && [now] == [now] + [];
    ServeOne([], early, [early, last, now], 2, window);
    ServeOne([early], early, [last, now], 2, window);
    ServeOne([early, early], last, [now], 2, window);
    ServeOne([last], now, [], 2, window);
    ServeNothing([last, now], window);
    assert [true] + ([true] + ([true] + ([true] + []))) == [true, true, true, true];
  }

  lemma ServeNothing(log: seq<Time>, window: int)
    ensures ServeKey(log, [], 2, window) == [] && Reference(log, [], 2, window) == []
  {
  }

  lemma CountMore(log: seq<Time>, t: Time, lo: Time, hi: Time)
    ensures CountIn(log + [t], lo, hi) == CountIn(log, lo, hi) + if lo < t <= hi then 1 else 0
  {
    assert (log + [t])[..|log|] == log;
  }

  lemma WindowCounts(early: Time, last: Time, now: Time, window: int)
    requires window > 0 && now - window < early <= now && early <= last - window && now < last
    ensures CountIn([], early - window, early) == 0 && CountIn([early], early - window, early) == 1
    ensures CountIn([early, early], last - window, last) == 0
    ensures CountIn([early, early, last], now - window, now) == 2
    ensures CountIn([early, early, last, now], now - window, now) == 3
  {
    assert [] + [early] == [early] && [early] + [early] == [early, early];
    assert [early, early] + [last] == [early, early, last];
    assert [early, early, last] + [now] == [early, early, last, now];
    CountMore([], early, early - window, early);
    CountMore([], early, last - window, last);
    CountMore([early], early, last - window, last);
    CountMore([], early, now - window, now);
    CountMore([early], early, now - window, now);
    CountMore([early, early], last, now - window, now);
    CountMore([early, early, last], now, now - window, now);
  }

  lemma PlainRefusesLast(early: Time, last: Time, now: Time, window: int)
    requires window > 0 && now - window < early <= now && early <= last - window && now < last
    ensures Reference([], [early, early, last, now], 2, window) == [true, true, true, false]
  {
    hide CountIn, Reference;
    WindowCounts(early, last, now, window);
    assert [] + [early] == [early] && [early] + [early] == [early, early];
    assert [early, early] + [last] == [early, early, last];
    assert [early, early, last, now] == [early] + [early, last, now] && [early, last, now] == [early] + [last, now];
    assert [last, now] == [last] + [now] && [now] == [now] + [];
    ReferOne([], early, [early, last, now], 2, window);
    ReferOne([early], early, [last, now], 2, window);
    ReferOne([early, early], last, [now], 2, window);
    ReferOne([early, early, last], now, [], 2, window);
    ServeNothing([early, early, last], window);
    assert [true] + ([true] + ([true] + ([false] + []))) == [true, true, true, false];
  }

  /** The bound survives one more call exactly when that call does not go back. */
  lemma BoundKeptIffInOrder(last: Time, now: Time, window: int)
    requires window > 0
    ensures BoundKept(last, now, window) <==> last <= now
  {
    hide GrantedTo, CountIn;
    if last <= now {
      forall times: seq<Time>, limit: int, end: Time | limit > 0
        ensures WithinLimit(times, last, now, limit, window, end) {
        if Nondecreasing(times + [last]) {
          OneMoreInOrder(times, last, now);
          KeyBound(times + [last] + [now], limit, window, end);
        }
      }
    } else {
      var early := if now <= last - window then now else last - window;
      LateCallOverflows(early, last, now, window);
      assert [early, early] + [last] + [now] == [early, early, last, now];
      assert Nondecreasing([early, early] + [last]);
      assert !WithinLimit([early, early], last, now, 2, window, now);
    }
  }

  lemma OneMoreInOrder(times: seq<Time>, last: Time, now: Time)
    requires Nondecreasing(times + [last]) && last <= now
    ensures Nondecreasing(times + [last] + [now])
  {
    var all := times + [last];
    forall i | 0 <= i < |all| ensures all[i] <= now {
      assert all[|times|] == last;
    }
  }

  /**
   * A request that read the clock before a request served earlier is accepted although its window
   * is full, because pruning has already forgotten that window: three in ten seconds at a limit of two.
   */
  lemma OutOfOrderTimesBreakTheBound()
    ensures ServeKey([], [0, 0, 100, 5], 2, 10) == [true, true, true, true]
    ensures Reference([], [0, 0, 100, 5], 2, 10) == [true, true, true, false]
    ensures GrantedTo([], [0, 0, 100, 5], 2, 10) == [0, 0, 100, 5] && CountIn([0, 0, 100, 5], -5, 5) == 3
  {
    hide ServeKey, Reference, CountIn;
    LateCallOverflows(0, 100, 5, 10);
    AllGranted(0, 100, 5, 10);
  }
}
