/**
 * Token quotas over calendar windows. A check reads the log and admits while every limited measure
 * is below its limit; the tokens of the admitted request are only known, and logged, later. How far
 * a window can then run past its limit is bounded over every interleaving of checks and logs.
 * Days are civil days of a fixed length; day 0 is Thursday 1 January 1970.
 */
module TokenQuota {
  import opened Wrappers

  // ---------- measures and limits ----------

  datatype Tokens = Tokens(total: int, input: int, cached: int, output: int)

  datatype Limits = Limits(total: int, input: int, output: int, billable: int)

  datatype ApiKey = ApiKey(daily: Limits, weekly: Limits, legacyTotal: int)

  datatype Measure = TotalM | InputM | OutputM | BillableM

  /** `usageBillableInputTokens`. */
  function BillableInput(input: int, cached: int): int {
    if input <= 0 then 0
    else if cached <= 0 then input
    else if cached >= input then 0
    else input - cached
  }

  function Measured(m: Measure, t: Tokens): int {
    match m
    case TotalM => t.total
    case InputM => t.input
    case OutputM => t.output
    case BillableM => BillableInput(t.input, t.cached)
  }

  function LimitFor(m: Measure, l: Limits): int {
    match m
    case TotalM => l.total
    case InputM => l.input
    case OutputM => l.output
    case BillableM => l.billable
  }

  predicate LimitsEnabled(l: Limits) {
    l.total > 0 || l.input > 0 || l.output > 0 || l.billable > 0
  }

  /** `exceeded`: a limit of zero or less is no limit. */
  predicate Exceeded(l: Limits, sum: Tokens) {
    if l.total > 0 && sum.total >= l.total then true
    else if l.input > 0 && sum.input >= l.input then true
    else if l.output > 0 && sum.output >= l.output then true
    else if l.billable > 0 && BillableInput(sum.input, sum.cached) >= l.billable then true
    else false
  }

  /** Every measure with a limit is below it. */
  predicate WithinLimits(l: Limits, sum: Tokens) {
    forall m: Measure :: LimitFor(m, l) > 0 ==> Measured(m, sum) < LimitFor(m, l)
  }

  lemma WithinIffNotExceeded(l: Limits, sum: Tokens)
    ensures WithinLimits(l, sum) <==> !Exceeded(l, sum)
    ensures !LimitsEnabled(l) ==> WithinLimits(l, sum)
  {
    if WithinLimits(l, sum) {
      assert LimitFor(TotalM, l) == l.total && LimitFor(InputM, l) == l.input;
      assert LimitFor(OutputM, l) == l.output && LimitFor(BillableM, l) == l.billable;
    }
  }

  /** `effectiveAPIKeyWeeklyTokens`: the legacy total quota counts per week unless a newer quota is set. */
  function EffectiveWeeklyTotal(key: ApiKey): int {
    if key.weekly.total > 0 then key.weekly.total
    else if key.daily.total <= 0 && key.legacyTotal > 0 then key.legacyTotal
    else 0
  }

  datatype Period = Daily | Weekly

  function LimitsOf(key: ApiKey, p: Period): Limits {
    match p
    case Daily => key.daily
    case Weekly => key.weekly.(total := EffectiveWeeklyTotal(key))
  }

  // ---------- calendar ----------

  const DAY := 86400 * 1000000000

  /** 0 is Sunday. */
  function Weekday(day: int): int {
    (day + 4) % 7
  }

  /** `weekStart`, on day numbers. */
  function WeekStart(day: int): int {
    day - (Weekday(day) + 6) % 7
  }

  /** The week start is the one Monday among the day itself and the six before it. */
  lemma WeekStartIsMonday(day: int, monday: int)
    ensures Weekday(WeekStart(day)) == 1 && WeekStart(day) <= day <= WeekStart(day) + 6
    ensures Weekday(monday) == 1 && monday <= day <= monday + 6 ==> monday == WeekStart(day)
  {
    var w := Weekday(day);
    assert (w + 6) % 7 == if w == 0 then 6 else w - 1;
    assert Weekday(WeekStart(day)) == 1;
  }

  function DayOf(t: int): int {
    t / DAY
  }

  function WindowStart(p: Period, now: int): int {
    match p
    case Daily => DayOf(now) * DAY
    case Weekly => WeekStart(DayOf(now)) * DAY
  }

  function WindowStop(p: Period, start: int): int {
    match p
    case Daily => start + DAY
    case Weekly => start + 7 * DAY
  }

  /** `start` opens a day, or a week that begins on Monday. */
  predicate OpensWindow(p: Period, start: int) {
    start % DAY == 0 && (p.Weekly? ==> Weekday(DayOf(start)) == 1)
  }

  /** Windows tile time: an instant before the window's end and not before its start is in it alone. */
  lemma WindowsTile(p: Period, start: int, t: int)
    requires OpensWindow(p, start)
    ensures OpensWindow(p, WindowStart(p, t))
    ensures WindowStart(p, t) <= t < WindowStop(p, WindowStart(p, t))
    ensures start <= t < WindowStop(p, start) <==> WindowStart(p, t) == start
  {
    hide WeekStart, Weekday;
    var d, n := DayOf(t), DayOf(start);
    assert start == n * DAY && d * DAY <= t < (d + 1) * DAY;
    match p
    case Daily =>
      DayBounds(d, n, 1, t);
      DayBounds(d, d, 1, t);
      DayStarts(d);
    case Weekly =>
      WeekStartIsMonday(d, n);
      DayBounds(d, n, 7, t);
      DayBounds(d, WeekStart(d), 7, t);
      DayStarts(WeekStart(d));
  }

  lemma DayStarts(d: int)
    ensures DayOf(d * DAY) == d && (d * DAY) % DAY == 0
  {
  }

  lemma DayBounds(d: int, n: int, days: int, t: int)
    requires d * DAY <= t < (d + 1) * DAY
    ensures n * DAY <= t < (n + days) * DAY <==> n <= d < n + days
  {
  }

  // ---------- the check ----------

  datatype Verdict = Admitted | KeyNotFound | StoreError | QuotaExceeded

  /** One window: `answer` is what the log store returned for it, None for an error. */
  function CheckWindow(l: Limits, answer: Option<Tokens>): Verdict {
    if !LimitsEnabled(l) then Admitted
    else if answer.None? then StoreError
    else if Exceeded(l, answer.value) then QuotaExceeded
    else Admitted
  }

  /** `CheckAPIKeyTokenQuota`. */
  function CheckTokenQuota(keyId: int, key: Option<ApiKey>, daily: Option<Tokens>, weekly: Option<Tokens>): Verdict {
    if key.None? || keyId <= 0 then KeyNotFound else
    var dailyLimits, weeklyLimits := LimitsOf(key.value, Daily), LimitsOf(key.value, Weekly);
    if !LimitsEnabled(dailyLimits) && !LimitsEnabled(weeklyLimits) then Admitted else
    var verdict := CheckWindow(dailyLimits, daily);
    if !verdict.Admitted? then verdict else CheckWindow(weeklyLimits, weekly)
  }

  /** Admission means every limited measure of both windows was read and found below its limit. */
  lemma AdmittedIff(keyId: int, key: Option<ApiKey>, daily: Option<Tokens>, weekly: Option<Tokens>)
    ensures CheckTokenQuota(keyId, key, daily, weekly) == Admitted
       <==> keyId > 0 && key.Some? && BothWithin(key.value, daily, weekly)
  {
    hide WithinLimits, Exceeded, LimitsOf;
    if key.Some? {
      if daily.Some? { WithinIffNotExceeded(LimitsOf(key.value, Daily), daily.value); }
      if weekly.Some? { WithinIffNotExceeded(LimitsOf(key.value, Weekly), weekly.value); }
    }
  }

  predicate BothWithin(key: ApiKey, daily: Option<Tokens>, weekly: Option<Tokens>) {
    ReadWithin(LimitsOf(key, Daily), daily) && ReadWithin(LimitsOf(key, Weekly), weekly)
  }

  predicate ReadWithin(l: Limits, answer: Option<Tokens>) {
    LimitsEnabled(l) ==> answer.Some? && WithinLimits(l, answer.value)
  }

  /** A limited total is below its limit. */
  predicate Below(sum: Tokens, limit: int) {
    limit > 0 ==> sum.total < limit
  }

  /** Every limited measure but the total is below its limit. */
  predicate OthersBelow(l: Limits, sum: Tokens) {
    && (l.input > 0 ==> sum.input < l.input) && (l.output > 0 ==> sum.output < l.output)
    && (l.billable > 0 ==> BillableInput(sum.input, sum.cached) < l.billable)
  }

  /**
   * Which weekly total is in force: the key's own, or its legacy quota if it has neither a weekly
   * nor a daily total; otherwise the week's total is not limited.
   */
  lemma WeeklyTotalInForce(keyId: int, key: ApiKey, daily: Tokens, weekly: Tokens)
    requires keyId > 0
    ensures CheckTokenQuota(keyId, Some(key), Some(daily), Some(weekly)) == Admitted
       <==> Below(daily, key.daily.total) && OthersBelow(key.daily, daily) && OthersBelow(key.weekly, weekly)
            && if key.weekly.total > 0 then weekly.total < key.weekly.total
               else if key.daily.total <= 0 && key.legacyTotal > 0 then weekly.total < key.legacyTotal
               else true
  {
  }

  /** Billable input is the input that was not cached, and never less than nothing. */
  lemma BillableIs(input: int, cached: int)
    ensures 0 <= cached <= input ==> BillableInput(input, cached) + cached == input
    ensures input <= 0 || cached > input ==> BillableInput(input, cached) == 0
    ensures cached < 0 < input ==> BillableInput(input, cached) == input
  {
  }

  /** Some measure is limited. */
  predicate SomeLimit(l: Limits) {
    exists m: Measure :: LimitFor(m, l) > 0
  }

  lemma SomeLimitIff(l: Limits)
    ensures LimitsEnabled(l) <==> SomeLimit(l)
  {
    assert LimitFor(TotalM, l) == l.total && LimitFor(InputM, l) == l.input;
    assert LimitFor(OutputM, l) == l.output && LimitFor(BillableM, l) == l.billable;
  }

  /**
   * Which verdict a check gives: an unknown key, then the day and then the week, of which each fails
   * as unreadable if it has a limit and was not read, and as exceeded if a limit is reached.
   */
  lemma VerdictIs(keyId: int, key: Option<ApiKey>, daily: Option<Tokens>, weekly: Option<Tokens>)
    ensures CheckTokenQuota(keyId, key, daily, weekly)
         == if key.None? || keyId <= 0 then KeyNotFound
            else if SomeLimit(LimitsOf(key.value, Daily)) && daily.None? then StoreError
            else if daily.Some? && !WithinLimits(LimitsOf(key.value, Daily), daily.value) then QuotaExceeded
            else if SomeLimit(LimitsOf(key.value, Weekly)) && weekly.None? then StoreError
            else if weekly.Some? && !WithinLimits(LimitsOf(key.value, Weekly), weekly.value) then QuotaExceeded
            else Admitted
  {
    hide WithinLimits, Exceeded, LimitsOf, LimitsEnabled, SomeLimit;
    if key.Some? {
      SomeLimitIff(LimitsOf(key.value, Daily));
      SomeLimitIff(LimitsOf(key.value, Weekly));
      if daily.Some? { WithinIffNotExceeded(LimitsOf(key.value, Daily), daily.value); }
      if weekly.Some? { WithinIffNotExceeded(LimitsOf(key.value, Weekly), weekly.value); }
    }
  }

  // ---------- the log ----------

  datatype LogRow = LogRow(keyId: int, at: int, tokens: Tokens)

  function Add(a: Tokens, b: Tokens): Tokens {
    Tokens(a.total + b.total, a.input + b.input, a.cached + b.cached, a.output + b.output)
  }

  function Sum(rows: seq<LogRow>): Tokens {
    if rows == [] then Tokens(0, 0, 0, 0) else Add(Sum(rows[..|rows| - 1]), rows[|rows| - 1].tokens)
  }

  predicate InWindow(r: LogRow, k: int, start: int, stop: int) {
    r.keyId == k && start <= r.at < stop
  }

  /** `SummarizeUsage` for one key: rows created at `start` or later and before `stop`. */
  function WindowRows(log: seq<LogRow>, k: int, start: int, stop: int): seq<LogRow> {
    if log == [] then [] else
    var init, last := WindowRows(log[..|log| - 1], k, start, stop), log[|log| - 1];
    if InWindow(last, k, start, stop) then init + [last] else init
  }

  lemma WindowRowsMore(log: seq<LogRow>, r: LogRow, k: int, start: int, stop: int)
    ensures WindowRows(log + [r], k, start, stop)
         == WindowRows(log, k, start, stop) + if InWindow(r, k, start, stop) then [r] else []
  {
    assert (log + [r])[..|log|] == log && (log + [r])[|log|] == r;
  }

  lemma {:induction false} WindowRowsConcat(a: seq<LogRow>, b: seq<LogRow>, k: int, start: int, stop: int)
    ensures WindowRows(a + b, k, start, stop) == WindowRows(a, k, start, stop) + WindowRows(b, k, start, stop)
    decreases |b|
  {
    hide WindowRows, InWindow;
    if b == [] {
      assert a + b == a && WindowRows([], k, start, stop) == [] by { NoWindowRows(k, start, stop); }
    } else {
      var init, last := b[..|b| - 1], b[|b| - 1];
      assert b == init + [last] && a + b == (a + init) + [last];
      WindowRowsConcat(a, init, k, start, stop);
      WindowRowsMore(a + init, last, k, start, stop);
      WindowRowsMore(init, last, k, start, stop);
    }
  }

  lemma NoWindowRows(k: int, start: int, stop: int)
    ensures WindowRows([], k, start, stop) == []
  {
  }

  lemma {:induction false} SumConcat(a: seq<LogRow>, b: seq<LogRow>)
    ensures Sum(a + b) == Add(Sum(a), Sum(b))
    decreases |b|
  {
    if b == [] {
      assert a + b == a;
    } else {
      var init, last := b[..|b| - 1], b[|b| - 1];
      assert (a + b)[..|a + b| - 1] == a + init && (a + b)[|a + b| - 1] == last;
      SumConcat(a, init);
    }
  }

  // ---------- runs of checks and logs ----------

  /** A check of request `id`, or the logging of an admitted request's tokens. */
  datatype Event =
    | Check(id: nat, keyId: int, now: int, storeUp: bool)
    | Log(id: nat, now: int, tokens: Tokens)

  /** `open` holds the admitted requests whose tokens are not logged yet, with their keys. */
  datatype State = State(log: seq<LogRow>, open: map<nat, int>, clock: int)

  type Policy = map<int, ApiKey>

  function KeyIn(policy: Policy, k: int): Option<ApiKey> {
    if k in policy then Some(policy[k]) else None
  }

  function Answer(s: State, p: Period, k: int, now: int, storeUp: bool): Option<Tokens> {
    if storeUp then Some(Sum(WindowRows(s.log, k, WindowStart(p, now), now))) else None
  }

  predicate Admits(policy: Policy, s: State, k: int, now: int, storeUp: bool) {
    CheckTokenQuota(k, KeyIn(policy, k), Answer(s, Daily, k, now, storeUp), Answer(s, Weekly, k, now, storeUp))
         == Admitted
  }

  /** While the log cannot be read, exactly the requests of keys without any limit are admitted. */
  lemma StoreDownAdmits(policy: Policy, s: State, k: int, now: int)
    ensures Admits(policy, s, k, now, false)
       <==> k in policy && k > 0 && !SomeLimit(LimitsOf(policy[k], Daily)) && !SomeLimit(LimitsOf(policy[k], Weekly))
  {
    hide LimitsOf, SomeLimit, WithinLimits, CheckTokenQuota;
    VerdictIs(k, KeyIn(policy, k), None, None);
  }

  predicate NonNegative(t: Tokens) {
    t.total >= 0 && t.input >= 0 && t.cached >= 0 && t.output >= 0
  }

  predicate Enabled(s: State, e: Event) {
    && s.clock <= e.now
    && match e
       case Check(id, _, _, _) => id !in s.open
       case Log(id, _, tokens) => id in s.open && NonNegative(tokens)
  }

  function Apply(policy: Policy, s: State, e: Event): State
    requires Enabled(s, e)
  {
    match e
    case Check(id, k, now, up) => State(s.log, if Admits(policy, s, k, now, up) then s.open[id := k] else s.open, now)
    case Log(id, now, tokens) => State(s.log + [LogRow(s.open[id], now, tokens)], s.open - {id}, now)
  }

  function OpenFor(open: map<nat, int>, k: int): set<nat> {
    set id | id in open && open[id] == k
  }

  function Earlier(events: seq<Event>): (r: seq<Event>)
    requires events != []
    ensures |r| == |events| - 1
  {
    events[..|events| - 1]
  }

  /** The rows of `k` logged at the clock's instant, which a check at that instant does not read. */
  function JustLogged(s: State, k: int): seq<LogRow> {
    WindowRows(s.log, k, s.clock, s.clock + 1)
  }

  /** How many requests of `k` a check at the clock's instant knows nothing of. */
  function Unseen(s: State, k: int): nat {
    |OpenFor(s.open, k)| + |JustLogged(s, k)|
  }

  /**
   * A state reached from an empty log by the events; at no point are more than `bound` requests of
   * `k` open or logged at that very instant.
   */
  ghost predicate Reaches(policy: Policy, k: int, bound: nat, events: seq<Event>, s: State)
    decreases |events|
  {
    if events == [] then s.log == [] && s.open == map[]
    else exists before ::
      && Reaches(policy, k, bound, Earlier(events), before)
      && Enabled(before, events[|events| - 1])
      && s == Apply(policy, before, events[|events| - 1])
      && Unseen(s, k) <= bound
  }

  // ---------- the invariant ----------

  predicate Ordered(log: seq<LogRow>) {
    forall i, j :: 0 <= i < j < |log| ==> log[i].at <= log[j].at
  }

  /** Rows are in the order of their times, none is newer than the clock, and no count is negative. */
  predicate Sane(s: State) {
    Ordered(s.log) && forall r :: r in s.log ==> r.at <= s.clock && NonNegative(r.tokens)
  }

  /**
   * The log splits at `j`: the window's rows before `j` are within the limits, and the window's
   * rows from `j` on, with those that open requests may still add, are at most `bound`.
   */
  predicate SplitAt(s: State, k: int, l: Limits, start: int, stop: int, bound: nat, j: int) {
    && 0 <= j <= |s.log|
    && WithinLimits(l, Sum(WindowRows(s.log[..j], k, start, stop)))
    && |WindowRows(s.log[j..], k, start, stop)| + (if s.clock < stop then |OpenFor(s.open, k)| else 0) <= bound
  }

  lemma {:induction false} NoneBefore(log: seq<LogRow>, k: int, start: int, stop: int, clock: int)
    requires (forall r :: r in log ==> r.at <= clock) && clock < start
    ensures WindowRows(log, k, start, stop) == []
    decreases |log|
  {
    if log != [] { NoneBefore(log[..|log| - 1], k, start, stop, clock); }
  }

  /** Of rows older than `now` a check at `now` sees all that lie in the window. */
  lemma {:induction false} CheckSeesAll(log: seq<LogRow>, k: int, start: int, now: int, stop: int)
    requires (forall r :: r in log ==> r.at < now) && now <= stop
    ensures WindowRows(log, k, start, now) == WindowRows(log, k, start, stop)
    decreases |log|
  {
    if log != [] { CheckSeesAll(log[..|log| - 1], k, start, now, stop); }
  }

  /** Of rows logged at `now` itself it sees none. */
  lemma {:induction false} CheckSeesNone(log: seq<LogRow>, k: int, start: int, now: int, stop: int)
    requires (forall r :: r in log ==> r.at == now) && now < stop
    ensures WindowRows(log, k, start, now) == []
    ensures |WindowRows(log, k, start, stop)| <= |WindowRows(log, k, now, now + 1)|
    decreases |log|
  {
    if log != [] { CheckSeesNone(log[..|log| - 1], k, start, now, stop); }
  }

  /** Where the rows of an ordered log that are as late as `now` begin. */
  function FirstAt(log: seq<LogRow>, now: int): (j: nat)
    requires Ordered(log)
    ensures j <= |log|
    ensures forall i :: 0 <= i < j ==> log[i].at < now
    ensures forall i :: j <= i < |log| ==> log[i].at >= now
  {
    if log == [] || log[|log| - 1].at < now then |log| else FirstAt(log[..|log| - 1], now)
  }

  /** What a check at `now` reads is the part of the window before the rows logged at `now`. */
  lemma CheckReads(s: State, k: int, start: int, now: int, stop: int)
    requires Sane(s) && s.clock <= now < stop
    ensures WindowRows(s.log, k, start, now) == WindowRows(s.log[..FirstAt(s.log, now)], k, start, stop)
    ensures |WindowRows(s.log[FirstAt(s.log, now)..], k, start, stop)| <= |WindowRows(s.log, k, now, now + 1)|
  {
    hide WindowRows, FirstAt;
    var j := FirstAt(s.log, now);
    var seen, missed := s.log[..j], s.log[j..];
    assert s.log == seen + missed;
    WindowRowsConcat(seen, missed, k, start, now);
    WindowRowsConcat(seen, missed, k, now, now + 1);
    CheckSeesAll(seen, k, start, now, stop);
    CheckSeesNone(missed, k, start, now, stop);
    assert WindowRows(seen, k, start, now) + [] == WindowRows(seen, k, start, now);
  }

  lemma EmptyWithinLimits(l: Limits)
    ensures WithinLimits(l, Sum([]))
  {
  }

  /** After an admitted check, what it could read of the open window is within the limits. */
  lemma AdmittedWithin(policy: Policy, s: State, p: Period, k: int, now: int, up: bool, start: int)
    requires Sane(s) && s.clock <= now && Admits(policy, s, k, now, up) && OpensWindow(p, start)
    requires now < WindowStop(p, start)
    ensures k in policy
    ensures WithinLimits(LimitsOf(policy[k], p),
                         Sum(WindowRows(s.log[..FirstAt(s.log, now)], k, start, WindowStop(p, start))))
  {
    hide WithinLimits, WindowRows, OpensWindow, WindowStart, LimitsOf, CheckTokenQuota, LimitsEnabled, FirstAt;
    AdmittedIff(k, KeyIn(policy, k), Answer(s, Daily, k, now, up), Answer(s, Weekly, k, now, up));
    var l := LimitsOf(policy[k], p);
    CheckReads(s, k, start, now, WindowStop(p, start));
    if now < start {
      NoneBefore(s.log[..FirstAt(s.log, now)], k, start, WindowStop(p, start), s.clock);
      EmptyWithinLimits(l);
    } else {
      WindowsTile(p, start, now);
      WithinIffNotExceeded(l, Sum(WindowRows(s.log, k, start, now)));
      assert ReadWithin(l, Answer(s, p, k, now, up));
    }
  }

  lemma OpenAfterCheck(open: map<nat, int>, id: nat, k: int, k0: int)
    requires id !in open
    ensures OpenFor(open[id := k0], k) == OpenFor(open, k) + if k0 == k then {id} else {}
  {
  }

  lemma OpenAfterLog(open: map<nat, int>, id: nat, k: int)
    requires id in open
    ensures |OpenFor(open - {id}, k)| == |OpenFor(open, k)| - if open[id] == k then 1 else 0
  {
    if open[id] == k {
      assert OpenFor(open, k) == OpenFor(open - {id}, k) + {id};
    } else {
      assert OpenFor(open, k) == OpenFor(open - {id}, k);
    }
  }

  lemma LogKeepsSplit(policy: Policy, s: State, e: Event, k: int, l: Limits, start: int, stop: int, bound: nat, j: int)
    requires e.Log? && Enabled(s, e) && SplitAt(s, k, l, start, stop, bound, j)
    ensures SplitAt(Apply(policy, s, e), k, l, start, stop, bound, j)
  {
    hide WithinLimits, WindowRows, OpenFor, Sum;
    var r := LogRow(s.open[e.id], e.now, e.tokens);
    assert (s.log + [r])[..j] == s.log[..j] && (s.log + [r])[j..] == s.log[j..] + [r];
    WindowRowsMore(s.log[j..], r, k, start, stop);
    OpenAfterLog(s.open, e.id, k);
  }

  lemma CheckKeepsSplit(policy: Policy, s: State, e: Event, k: int, p: Period, start: int, bound: nat, j: int)
    requires e.Check? && Enabled(s, e) && Sane(s) && k in policy && OpensWindow(p, start)
    requires SplitAt(s, k, LimitsOf(policy[k], p), start, WindowStop(p, start), bound, j)
    requires Unseen(Apply(policy, s, e), k) <= bound
    ensures exists i :: SplitAt(Apply(policy, s, e), k, LimitsOf(policy[k], p), start, WindowStop(p, start), bound, i)
  {
    hide WithinLimits, WindowRows, OpenFor, Sum, Admits, LimitsOf, OpensWindow, FirstAt;
    var t, stop := Apply(policy, s, e), WindowStop(p, start);
    var l := LimitsOf(policy[k], p);
    if e.keyId == k && Admits(policy, s, k, e.now, e.storeUp) && e.now < stop {
      AdmittedWithin(policy, s, p, k, e.now, e.storeUp, start);
      CheckReads(s, k, start, e.now, stop);
      assert SplitAt(t, k, l, start, stop, bound, FirstAt(s.log, e.now));
    } else {
      OpenAfterCheck(s.open, e.id, k, e.keyId);
      assert SplitAt(t, k, l, start, stop, bound, j);
    }
  }

  lemma StepKeepsSane(policy: Policy, s: State, e: Event)
    requires Sane(s) && Enabled(s, e)
    ensures Sane(Apply(policy, s, e))
  {
  }

  /** The invariant of every run, for every day and every week. */
  lemma {:induction false} RunSplits(policy: Policy, k: int, bound: nat, events: seq<Event>, s: State, p: Period,
                                     start: int)
    requires Reaches(policy, k, bound, events, s) && k in policy && OpensWindow(p, start)
    ensures Sane(s)
    ensures exists j :: SplitAt(s, k, LimitsOf(policy[k], p), start, WindowStop(p, start), bound, j)
    decreases |events|
  {
    hide SplitAt, Apply, Enabled, LimitsOf, OpensWindow, Unseen;
    var l, stop := LimitsOf(policy[k], p), WindowStop(p, start);
    if events == [] {
      StartsSplit(s, k, l, start, stop, bound);
    } else {
      var e := events[|events| - 1];
      var before :| && Reaches(policy, k, bound, Earlier(events), before) && Enabled(before, e)
                    && s == Apply(policy, before, e) && Unseen(s, k) <= bound;
      RunSplits(policy, k, bound, Earlier(events), before, p, start);
      StepKeepsSane(policy, before, e);
      var j :| SplitAt(before, k, l, start, stop, bound, j);
      match e
      case Log(_, _, _) => LogKeepsSplit(policy, before, e, k, l, start, stop, bound, j);
      case Check(_, _, _, _) => CheckKeepsSplit(policy, before, e, k, p, start, bound, j);
    }
  }

  lemma StartsSplit(s: State, k: int, l: Limits, start: int, stop: int, bound: nat)
    requires s.log == [] && s.open == map[]
    ensures SplitAt(s, k, l, start, stop, bound, 0)
  {
    EmptyWithinLimits(l);
    assert OpenFor(s.open, k) == {};
  }

  // ---------- the bounds ----------

  /** Every measure of a sum is at most the sum of the measures; billable input may be strictly less. */
  lemma MeasureSubadditive(m: Measure, a: Tokens, b: Tokens)
    requires NonNegative(a) && NonNegative(b)
    ensures Measured(m, Add(a, b)) <= Measured(m, a) + Measured(m, b) && NonNegative(Add(a, b))
  {
  }

  lemma {:induction false} SumNonNegative(rows: seq<LogRow>)
    requires forall r :: r in rows ==> NonNegative(r.tokens)
    ensures NonNegative(Sum(rows))
    decreases |rows|
  {
    if rows != [] { SumNonNegative(rows[..|rows| - 1]); }
  }

  lemma {:induction false} SumAtMost(m: Measure, rows: seq<LogRow>, each: int)
    requires forall r :: r in rows ==> NonNegative(r.tokens) && Measured(m, r.tokens) <= each
    ensures Measured(m, Sum(rows)) <= |rows| * each
    decreases |rows|
  {
    hide Measured;
    if rows == [] {
      assert Measured(m, Sum(rows)) == 0 by { NothingMeasured(m); }
    } else {
      var init, last := rows[..|rows| - 1], rows[|rows| - 1];
      SumAtMost(m, init, each);
      SumNonNegative(init);
      MeasureSubadditive(m, Sum(init), last.tokens);
    }
  }

  lemma NothingMeasured(m: Measure)
    ensures Measured(m, Sum([])) == 0
  {
  }

  lemma {:induction false} WindowRowsIn(log: seq<LogRow>, k: int, start: int, stop: int)
    ensures forall r :: r in WindowRows(log, k, start, stop) <==> r in log && InWindow(r, k, start, stop)
    decreases |log|
  {
    hide InWindow;
    if log != [] {
      var init, last := log[..|log| - 1], log[|log| - 1];
      assert log == init + [last];
      WindowRowsIn(init, k, start, stop);
    }
  }

  /** The window's rows are those within the limits followed by at most `bound` more. */
  lemma WindowSplits(policy: Policy, k: int, bound: nat, events: seq<Event>, s: State, p: Period, start: int)
    returns (kept: seq<LogRow>, late: seq<LogRow>)
    requires Reaches(policy, k, bound, events, s) && k in policy && OpensWindow(p, start)
    ensures WindowRows(s.log, k, start, WindowStop(p, start)) == kept + late
    ensures WithinLimits(LimitsOf(policy[k], p), Sum(kept)) && |late| <= bound
    ensures forall r :: r in kept + late ==> NonNegative(r.tokens)
  {
    hide WindowRows, WithinLimits, Sum, LimitsOf, OpensWindow, Reaches, OpenFor;
    RunSplits(policy, k, bound, events, s, p, start);
    var stop := WindowStop(p, start);
    var j :| SplitAt(s, k, LimitsOf(policy[k], p), start, stop, bound, j);
    kept, late := WindowRows(s.log[..j], k, start, stop), WindowRows(s.log[j..], k, start, stop);
    assert s.log == s.log[..j] + s.log[j..];
    WindowRowsConcat(s.log[..j], s.log[j..], k, start, stop);
    WindowRowsIn(s.log, k, start, stop);
  }

  /**
   * On every run, in every day and week, a limited measure of a key ends at most `limit - 1` plus
   * the largest request's share for each request that a check may know nothing of.
   */
  lemma OvershootBound(policy: Policy, k: int, bound: nat, events: seq<Event>, s: State, p: Period, start: int,
                       m: Measure, each: nat)
    requires Reaches(policy, k, bound, events, s) && k in policy && OpensWindow(p, start)
    requires LimitFor(m, LimitsOf(policy[k], p)) > 0
    requires forall r :: r in s.log && r.keyId == k ==> Measured(m, r.tokens) <= each
    ensures Measured(m, Sum(WindowRows(s.log, k, start, WindowStop(p, start))))
         <= LimitFor(m, LimitsOf(policy[k], p)) - 1 + bound * each
  {
    hide Reaches, WindowRows, Sum, Measured, OpensWindow, LimitsOf, LimitFor;
    var stop := WindowStop(p, start);
    var kept, late := WindowSplits(policy, k, bound, events, s, p, start);
    WindowRowsIn(s.log, k, start, stop);
    forall r | r in late ensures NonNegative(r.tokens) && Measured(m, r.tokens) <= each {
      assert r in kept + late && InWindow(r, k, start, stop);
    }
    forall r | r in kept ensures NonNegative(r.tokens) { assert r in kept + late; }
    SumConcat(kept, late);
    SumNonNegative(kept);
    SumNonNegative(late);
    MeasureSubadditive(m, Sum(kept), Sum(late));
    SumAtMost(m, late, each);
    Monotone(|late|, bound, each);
  }

  lemma Monotone(a: nat, b: nat, x: nat)
    requires a <= b
    ensures a * x <= b * x
  {
  }

  /** With each request logged at an instant before the next check's, the overshoot is the last request's alone. */
  lemma SequentialOvershoot(policy: Policy, k: int, events: seq<Event>, s: State, p: Period, start: int, m: Measure)
    requires Reaches(policy, k, 1, events, s) && k in policy && OpensWindow(p, start)
    requires LimitFor(m, LimitsOf(policy[k], p)) > 0
    ensures Measured(m, Sum(WindowRows(s.log, k, start, WindowStop(p, start))))
         <= LimitFor(m, LimitsOf(policy[k], p)) - 1 + LastMeasured(m, WindowRows(s.log, k, start, WindowStop(p, start)))
  {
    hide Reaches, WindowRows, Measured, OpensWindow, LimitsOf, LimitFor;
    var kept, late := WindowSplits(policy, k, 1, events, s, p, start);
    var rows := kept + late;
    if late == [] {
      assert rows == kept;
      if rows != [] {
        assert rows[|rows| - 1] in rows;
        MeasuredNonNegative(m, rows[|rows| - 1].tokens);
      }
    } else {
      assert rows[..|rows| - 1] == kept && rows[|rows| - 1] == late[0];
      assert late[0] in rows && forall r :: r in kept ==> r in rows;
      SumNonNegative(kept);
      MeasureSubadditive(m, Sum(kept), late[0].tokens);
    }
  }

  function LastMeasured(m: Measure, rows: seq<LogRow>): int {
    if rows == [] then 0 else Measured(m, rows[|rows| - 1].tokens)
  }

  lemma MeasuredNonNegative(m: Measure, t: Tokens)
    requires NonNegative(t)
    ensures Measured(m, t) >= 0
  {
  }

  lemma SumOfOne(r: LogRow)
    ensures Sum([]) == Tokens(0, 0, 0, 0) && Sum([r]) == r.tokens
  {
    assert [r][..0] == [];
  }

  predicate OnlyDailyTotal(key: ApiKey) {
    && key.daily.total > 0 && key.daily.input <= 0 && key.daily.output <= 0 && key.daily.billable <= 0
    && !LimitsEnabled(key.weekly)
  }

  /** A row that fills the day's quota stops the day's later checks, but not a check at its own instant. */
  lemma SameInstantIsMissed(key: ApiKey, k: int, at: int, now: int, tokens: Tokens)
    requires k > 0 && OnlyDailyTotal(key) && tokens.total >= key.daily.total
    requires WindowStart(Daily, now) <= at <= now
    ensures Admits(map[k := key], State([LogRow(k, at, tokens)], map[], at), k, now, true) <==> at == now
  {
    hide WindowStart, WindowRows, Sum;
    var r := LogRow(k, at, tokens);
    var start := WindowStart(Daily, now);
    assert [r] == [] + [r];
    WindowRowsMore([], r, k, start, now);
    NoWindowRows(k, start, now);
    assert Sum([]) == Tokens(0, 0, 0, 0) && Sum([r]) == tokens by { SumOfOne(r); }
    var policy := map[k := key];
    assert KeyIn(policy, k) == Some(key);
    assert LimitsOf(key, Daily) == key.daily && !LimitsEnabled(LimitsOf(key, Weekly));
  }

  // ---------- the overshoot is reached ----------

  lemma ReachStep(policy: Policy, k: int, bound: nat, events: seq<Event>, before: State, e: Event)
    requires Reaches(policy, k, bound, events, before) && Enabled(before, e)
    requires Unseen(Apply(policy, before, e), k) <= bound
    ensures Reaches(policy, k, bound, events + [e], Apply(policy, before, e))
  {
    hide Unseen, Enabled, Apply;
    assert Earlier(events + [e]) == events && (events + [e])[|events|] == e;
  }

  /** Nothing logged, nothing exceeded: every policy admits the first requests of a key it knows. */
  lemma NothingUsedAdmits(policy: Policy, k: int, open: map<nat, int>)
    requires k in policy && k > 0
    ensures Admits(policy, State([], open, 0), k, 0, true)
  {
    hide WindowStart, LimitsOf, WithinLimits, CheckTokenQuota, LimitsEnabled;
    var s := State([], open, 0);
    AdmittedIff(k, KeyIn(policy, k), Answer(s, Daily, k, 0, true), Answer(s, Weekly, k, 0, true));
    NoWindowRows(k, WindowStart(Daily, 0), 0);
    NoWindowRows(k, WindowStart(Weekly, 0), 0);
    EmptyWithinLimits(LimitsOf(policy[k], Daily));
    EmptyWithinLimits(LimitsOf(policy[k], Weekly));
  }

  const FIRST_CHECK := State([], map[], 0)

  /** A request that counts as `each` in every measure. */
  function Used(each: nat): Tokens {
    Tokens(each, each, 0, each)
  }

  /** What a window holds of a measure. */
  function WindowTotal(m: Measure, log: seq<LogRow>, k: int, p: Period, start: int): int {
    Measured(m, Sum(WindowRows(log, k, start, WindowStop(p, start))))
  }

  /** The share of the window's last row. */
  function LastShare(m: Measure, log: seq<LogRow>, k: int, p: Period, start: int): int {
    LastMeasured(m, WindowRows(log, k, start, WindowStop(p, start)))
  }

  /**
   * Two requests are checked before either is logged: under every policy both are admitted, and
   * the window holds both, in every measure.
   */
  lemma TwoOpenRequestsOvershoot(policy: Policy, k: int, p: Period, m: Measure, each: nat)
    requires k in policy && k > 0
    ensures exists events, s :: Reaches(policy, k, 2, events, s)
              && WindowTotal(m, s.log, k, p, WindowStart(p, 0)) == 2 * each
              && LastShare(m, s.log, k, p, WindowStart(p, 0)) == each
  {
    hide Reaches, Admits, WindowRows, Sum, WindowStart, WindowStop;
    var s1, s2 := State([], map[0 := k], 0), State([], map[0 := k, 1 := k], 0);
    var a, b := LogRow(k, 1, Used(each)), LogRow(k, 2, Used(each));
    var s3, s4 := State([a], map[1 := k], 1), State([a, b], map[], 2);
    NothingUsedAdmits(policy, k, map[]);
    NothingUsedAdmits(policy, k, map[0 := k]);
    var c0, c1 := Check(0, k, 0, true), Check(1, k, 0, true);
    var l0, l1 := Log(0, 1, Used(each)), Log(1, 2, Used(each));
    assert Apply(policy, FIRST_CHECK, c0) == s1 && Apply(policy, s1, c1) == s2;
    assert [] + [a] == [a] && [a] + [b] == [a, b];
    assert Apply(policy, s2, l0) == s3 by { assert s2.open - {0} == map[1 := k]; }
    assert Apply(policy, s3, l1) == s4 by { assert s3.open - {1} == map[]; }
    assert Reaches(policy, k, 2, [], FIRST_CHECK) by { StartReached(policy, k); }
    UnseenCounts(k, a, b);
    ReachStep(policy, k, 2, [], FIRST_CHECK, c0);
    ReachStep(policy, k, 2, [] + [c0], s1, c1);
    ReachStep(policy, k, 2, [] + [c0] + [c1], s2, l0);
    ReachStep(policy, k, 2, [] + [c0] + [c1] + [l0], s3, l1);
    TwoRowsInWindow(k, p, a, b);
    TwoRowsMeasured(m, a, b, each);
    assert WindowRows(s4.log, k, WindowStart(p, 0), WindowStop(p, WindowStart(p, 0))) == [a, b];
  }

  lemma StartReached(policy: Policy, k: int)
    ensures Reaches(policy, k, 2, [], FIRST_CHECK)
  {
  }

  lemma UnseenCounts(k: int, a: LogRow, b: LogRow)
    requires InWindow(a, k, 1, 2) && InWindow(b, k, 2, 3)
    ensures Unseen(State([], map[0 := k], 0), k) <= 2 && Unseen(State([], map[0 := k, 1 := k], 0), k) <= 2
    ensures Unseen(State([a], map[1 := k], 1), k) <= 2 && Unseen(State([a, b], map[], 2), k) <= 2
  {
    hide WindowRows;
    NoWindowRows(k, 0, 1);
    NoWindowRows(k, 1, 2);
    NoWindowRows(k, 2, 3);
    assert [] + [a] == [a] && [a] + [b] == [a, b];
    WindowRowsMore([], a, k, 1, 2);
    WindowRowsMore([], a, k, 2, 3);
    WindowRowsMore([a], b, k, 2, 3);
    assert OpenFor(map[0 := k], k) == {0} && OpenFor(map[1 := k], k) == {1} && OpenFor(map[], k) == {};
    assert OpenFor(map[0 := k, 1 := k], k) == {0, 1};
  }

  lemma TwoRowsInWindow(k: int, p: Period, a: LogRow, b: LogRow)
    requires a.keyId == k && b.keyId == k && a.at == 1 && b.at == 2
    ensures WindowRows([a, b], k, WindowStart(p, 0), WindowStop(p, WindowStart(p, 0))) == [a, b]
    ensures OpensWindow(p, WindowStart(p, 0))
  {
    hide WindowRows, WindowStart, WindowStop, OpensWindow;
    var start := WindowStart(p, 0);
    var stop := WindowStop(p, start);
    assert start <= 0 && 2 < stop && OpensWindow(p, start) by { EarlyInstants(p); }
    NoWindowRows(k, start, stop);
    assert [] + [a] == [a] && [a] + [b] == [a, b];
    WindowRowsMore([], a, k, start, stop);
    WindowRowsMore([a], b, k, start, stop);
  }

  lemma EarlyInstants(p: Period)
    ensures WindowStart(p, 0) <= 0 && 2 < WindowStop(p, WindowStart(p, 0)) && OpensWindow(p, WindowStart(p, 0))
  {
    assert DayOf(0) == 0 && WeekStart(0) == -3 && DayOf(-3 * DAY) == -3;
    WindowsTile(p, -3 * DAY, 0);
  }

  lemma TwoRowsMeasured(m: Measure, a: LogRow, b: LogRow, each: nat)
    requires a.tokens == b.tokens == Used(each)
    ensures Measured(m, Sum([a, b])) == 2 * each && LastMeasured(m, [a, b]) == each
  {
    hide Sum;
    assert [a] + [b] == [a, b];
    SumOfOne(a);
    SumOfOne(b);
    SumConcat([a], [b]);
  }

  // ---------- exactly when the last request alone overshoots ----------

  lemma {:induction false} ReachesMonotone(policy: Policy, k: int, low: nat, high: nat, events: seq<Event>, s: State)
    requires Reaches(policy, k, low, events, s) && low <= high
    ensures Reaches(policy, k, high, events, s)
    decreases |events|
  {
    hide Unseen, Apply, Enabled;
    if events != [] {
      var e := events[|events| - 1];
      var before :| && Reaches(policy, k, low, Earlier(events), before) && Enabled(before, e)
                    && s == Apply(policy, before, e) && Unseen(s, k) <= low;
      ReachesMonotone(policy, k, low, high, Earlier(events), before);
    }
  }

  /** In every run and every window, what lies above `limit - 1` is the last row's share at most. */
  ghost predicate LastAloneOvershoots(policy: Policy, k: int, p: Period, m: Measure, bound: nat)
    requires k in policy
  {
    forall events, s, start :: Reaches(policy, k, bound, events, s) && OpensWindow(p, start) ==>
      WindowTotal(m, s.log, k, p, start) <= LimitFor(m, LimitsOf(policy[k], p)) - 1 + LastShare(m, s.log, k, p, start)
  }

  /**
   * The last request alone overshoots a limit if and only if a check never misses more than one
   * request, for every policy, window and measure.
   */
  lemma LastAloneOvershootsIff(policy: Policy, k: int, p: Period, m: Measure, bound: nat)
    requires k in policy && k > 0 && LimitFor(m, LimitsOf(policy[k], p)) > 0
    ensures LastAloneOvershoots(policy, k, p, m, bound) <==> bound <= 1
  {
    hide Reaches, WindowRows, Measured, OpensWindow, LimitsOf, LimitFor, LastMeasured, Sum, WindowStart, WindowStop;
    if bound <= 1 {
      forall events, s, start | Reaches(policy, k, bound, events, s) && OpensWindow(p, start)
        ensures WindowTotal(m, s.log, k, p, start)
             <= LimitFor(m, LimitsOf(policy[k], p)) - 1 + LastShare(m, s.log, k, p, start) {
        ReachesMonotone(policy, k, bound, 1, events, s);
        SequentialOvershoot(policy, k, events, s, p, start, m);
      }
    } else {
      var limit: nat, start := LimitFor(m, LimitsOf(policy[k], p)), WindowStart(p, 0);
      TwoOpenRequestsOvershoot(policy, k, p, m, limit);
      EarlyInstants(p);
      var events, s :| Reaches(policy, k, 2, events, s) && WindowTotal(m, s.log, k, p, start) == 2 * limit
                       && LastShare(m, s.log, k, p, start) == limit;
      ReachesMonotone(policy, k, 2, bound, events, s);
    }
  }
}
