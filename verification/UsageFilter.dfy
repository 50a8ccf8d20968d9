/**
 * The usage log filter, compiled to a WHERE clause with numbered placeholders, compiled to a query
 * builder's predicates, and read directly: three forms that must select the same rows.
 */
module UsageFilter {
  import opened Wrappers
  import Sequences

  // ---------- rows, keys and filters ----------

  /** The columns of a usage log row a filter can mention; the key may be null. */
  datatype Row = Row(apiKeyId: Option<int>, sessionId: string, clientType: string, clientIp: string, model: string,
                     reasoningEffort: string, endpoint: string, upstreamMode: string, errorType: string,
                     upstreamErrorType: string, statusCode: int, success: bool, createdAt: int)

  /** A row of the key table: its id and its owner, if it has one. */
  datatype KeyRow = KeyRow(id: int, owner: Option<int>)

  datatype Filter = Filter(keyIds: seq<int>, keyId: int, ownerUserId: int, sessionId: string, clientType: string,
                           clientIp: string, model: string, reasoningEffort: string, endpoint: string,
                           upstreamMode: string, errorType: string, upstreamErrorType: string,
                           excludeErrorType: string, statusCode: int, successSet: bool, success: bool,
                           startTime: Option<int>, endTime: Option<int>)

  predicate OwnedBy(keys: seq<KeyRow>, id: int, owner: int) {
    exists i :: 0 <= i < |keys| && keys[i].id == id && keys[i].owner == Some(owner)
  }

  predicate KeyMatches(f: Filter, row: Row, keys: seq<KeyRow>) {
    && (if |f.keyIds| > 0 then row.apiKeyId.Some? && row.apiKeyId.value in f.keyIds
        else f.keyId > 0 ==> row.apiKeyId == Some(f.keyId))
    && (f.ownerUserId > 0 ==> row.apiKeyId.Some? && OwnedBy(keys, row.apiKeyId.value, f.ownerUserId))
  }

  predicate TextMatches(f: Filter, row: Row) {
    && (f.sessionId != "" ==> row.sessionId == f.sessionId)
    && (f.clientType != "" ==> row.clientType == f.clientType)
    && (f.clientIp != "" ==> row.clientIp == f.clientIp)
    && (f.model != "" ==> row.model == f.model)
    && (f.reasoningEffort != "" ==> row.reasoningEffort == f.reasoningEffort)
    && (f.endpoint != "" ==> row.endpoint == f.endpoint)
    && (f.upstreamMode != "" ==> row.upstreamMode == f.upstreamMode)
  }

  predicate OutcomeMatches(f: Filter, row: Row) {
    && (if f.errorType != "" then row.errorType == f.errorType
        else f.upstreamErrorType != "" ==> row.upstreamErrorType == f.upstreamErrorType)
    && (f.excludeErrorType != "" ==> row.errorType != f.excludeErrorType)
    && (f.statusCode > 0 ==> row.statusCode == f.statusCode)
    && (f.successSet ==> row.success == f.success)
    && (f.startTime.Some? ==> row.createdAt >= f.startTime.value)
    && (f.endTime.Some? ==> row.createdAt < f.endTime.value)
  }

  /** What the filter means. */
  predicate Matches(f: Filter, row: Row, keys: seq<KeyRow>) {
    KeyMatches(f, row, keys) && TextMatches(f, row) && OutcomeMatches(f, row)
  }

  // ---------- SQL conditions ----------

  datatype Column = ApiKeyId | SessionId | ClientType | ClientIp | Model | ReasoningEffort | Endpoint
                  | UpstreamMode | ErrorType | UpstreamErrorType | StatusCode | Success | CreatedAt

  datatype Value = IntV(i: int) | StrV(s: string) | BoolV(b: bool) | TimeV(t: int)
  datatype Operator = Eq | Ne | Ge | Lt
  datatype Truth = True | False | Unknown

  /** `$n` placeholders are numbered from 1. */
  datatype Condition =
    | Compare(col: Column, op: Operator, placeholder: int)
    | InList(col: Column, placeholders: seq<int>)
    | InOwnedKeys(placeholder: int)

  function Cell(row: Row, col: Column): Option<Value> {
    match col
    case ApiKeyId => if row.apiKeyId.Some? then Some(IntV(row.apiKeyId.value)) else None
    case SessionId => Some(StrV(row.sessionId))
    case ClientType => Some(StrV(row.clientType))
    case ClientIp => Some(StrV(row.clientIp))
    case Model => Some(StrV(row.model))
    case ReasoningEffort => Some(StrV(row.reasoningEffort))
    case Endpoint => Some(StrV(row.endpoint))
    case UpstreamMode => Some(StrV(row.upstreamMode))
    case ErrorType => Some(StrV(row.errorType))
    case UpstreamErrorType => Some(StrV(row.upstreamErrorType))
    case StatusCode => Some(IntV(row.statusCode))
    case Success => Some(BoolV(row.success))
    case CreatedAt => Some(TimeV(row.createdAt))
  }

  function Judge(b: bool): Truth {
    if b then True else False
  }

  /** A comparison with null is neither true nor false. */
  function CompareCell(cell: Option<Value>, op: Operator, v: Value): Truth {
    if cell.None? then Unknown else
    match op
    case Eq => Judge(cell.value == v)
    case Ne => Judge(cell.value != v)
    case Ge => Judge(cell.value.TimeV? && v.TimeV? && cell.value.t >= v.t)
    case Lt => Judge(cell.value.TimeV? && v.TimeV? && cell.value.t < v.t)
  }

  function Evaluate(c: Condition, args: seq<Value>, row: Row, keys: seq<KeyRow>): Truth
    requires forall p :: p in PlaceholdersOf(c) ==> 1 <= p <= |args|
  {
    match c
    case Compare(col, op, p) => assert p in PlaceholdersOf(c); CompareCell(Cell(row, col), op, args[p - 1])
    case InList(col, ps) =>
      if Cell(row, col).None? then Unknown
      else
        var v := Cell(row, col).value;
        Judge(exists i :: 0 <= i < |ps| && (assert ps[i] in PlaceholdersOf(c); args[ps[i] - 1] == v))
    case InOwnedKeys(p) =>
      assert p in PlaceholdersOf(c);
      if row.apiKeyId.None? then Unknown
      else Judge(args[p - 1].IntV? && OwnedBy(keys, row.apiKeyId.value, args[p - 1].i))
  }

  function PlaceholdersOf(c: Condition): seq<int> {
    match c
    case Compare(_, _, p) => [p]
    case InList(_, ps) => ps
    case InOwnedKeys(p) => [p]
  }

  function AllPlaceholders(conditions: seq<Condition>): seq<int> {
    if conditions == [] then []
    else AllPlaceholders(conditions[..|conditions| - 1]) + PlaceholdersOf(conditions[|conditions| - 1])
  }

  function Counting(from: int, n: nat): seq<int> {
    seq(n, i => from + i)
  }

  /** Placeholders $1 to $n, each exactly once and in order, for n arguments. */
  predicate WellNumbered(conditions: seq<Condition>, args: seq<Value>) {
    AllPlaceholders(conditions) == Counting(1, |args|)
  }

  // ---------- what the filter asks for ----------

  /** A condition before its arguments are numbered. */
  datatype Clause =
    | Test(col: Column, op: Operator, value: Value)
    | OneOf(col: Column, values: seq<Value>)
    | Owned(owner: int)

  function When(condition: bool, clause: Clause): seq<Clause> {
    if condition then [clause] else []
  }

  function Ints(values: seq<int>): seq<Value> {
    seq(|values|, i requires 0 <= i < |values| => IntV(values[i]))
  }

  /** The conditions on the key, after those in `base`. */
  function WithKeys(base: seq<Clause>, f: Filter): seq<Clause> {
    base
    + When(|f.keyIds| > 0, OneOf(ApiKeyId, Ints(f.keyIds)))
    + When(|f.keyIds| == 0 && f.keyId > 0, Test(ApiKeyId, Eq, IntV(f.keyId)))
    + When(f.ownerUserId > 0, Owned(f.ownerUserId))
  }

  function WithText(base: seq<Clause>, f: Filter): seq<Clause> {
    base
    + When(f.sessionId != "", Test(SessionId, Eq, StrV(f.sessionId)))
    + When(f.clientType != "", Test(ClientType, Eq, StrV(f.clientType)))
    + When(f.clientIp != "", Test(ClientIp, Eq, StrV(f.clientIp)))
    + When(f.model != "", Test(Model, Eq, StrV(f.model)))
    + When(f.reasoningEffort != "", Test(ReasoningEffort, Eq, StrV(f.reasoningEffort)))
    + When(f.endpoint != "", Test(Endpoint, Eq, StrV(f.endpoint)))
    + When(f.upstreamMode != "", Test(UpstreamMode, Eq, StrV(f.upstreamMode)))
  }

  function TimeOf(t: Option<int>): Value {
    TimeV(if t.Some? then t.value else 0)
  }

  function WithOutcome(base: seq<Clause>, f: Filter): seq<Clause> {
    base
    + When(f.errorType != "", Test(ErrorType, Eq, StrV(f.errorType)))
    + When(f.errorType == "" && f.upstreamErrorType != "", Test(UpstreamErrorType, Eq, StrV(f.upstreamErrorType)))
    + When(f.excludeErrorType != "", Test(ErrorType, Ne, StrV(f.excludeErrorType)))
    + When(f.statusCode > 0, Test(StatusCode, Eq, IntV(f.statusCode)))
    + When(f.successSet, Test(Success, Eq, BoolV(f.success)))
    + When(f.startTime.Some?, Test(CreatedAt, Ge, TimeOf(f.startTime)))
    + When(f.endTime.Some?, Test(CreatedAt, Lt, TimeOf(f.endTime)))
  }

  function Clauses(f: Filter): seq<Clause> {
    WithOutcome(WithText(WithKeys([], f), f), f)
  }

  predicate Holds(c: Clause, row: Row, keys: seq<KeyRow>) {
    match c
    case Test(col, op, v) => CompareCell(Cell(row, col), op, v) == True
    case OneOf(col, vs) => Cell(row, col).Some? && Cell(row, col).value in vs
    case Owned(owner) => row.apiKeyId.Some? && OwnedBy(keys, row.apiKeyId.value, owner)
  }

  predicate AllHold(clauses: seq<Clause>, row: Row, keys: seq<KeyRow>) {
    forall i :: 0 <= i < |clauses| ==> Holds(clauses[i], row, keys)
  }

  // ---------- the builder ----------

  function ArgsOf(c: Clause): seq<Value> {
    match c
    case Test(_, _, v) => [v]
    case OneOf(_, vs) => vs
    case Owned(owner) => [IntV(owner)]
  }

  /** The condition of a clause whose first argument gets number `from`. */
  function Numbered(c: Clause, from: int): Condition {
    match c
    case Test(col, op, _) => Compare(col, op, from)
    case OneOf(col, vs) => InList(col, Counting(from, |vs|))
    case Owned(_) => InOwnedKeys(from)
  }

  /** `buildUsageWhereClauseWithPrefix`: the argument list and the conditions, grown side by side. */
  class WhereBuilder {
    var args: seq<Value>
    var conditions: seq<Condition>
    ghost var clauses: seq<Clause>

    ghost predicate Valid() reads this {
      Represents(conditions, args, clauses)
    }

    constructor ()
      ensures Valid() && clauses == []
    {
      args, conditions, clauses := [], [], [];
      new;
      NothingRepresented();
    }

    /** The closure `add`, for a comparison. */
    method Add(col: Column, op: Operator, value: Value)
      requires Valid()
      modifies this
      ensures Valid() && clauses == old(clauses) + [Test(col, op, value)]
    {
      RepresentsMore(conditions, args, clauses, Test(col, op, value));
      args := args + [value];
      conditions := conditions + [Compare(col, op, |args|)];
      clauses := clauses + [Test(col, op, value)];
    }

    /** The closure `add`, for the owner subquery. */
    method AddOwner(owner: int)
      requires Valid()
      modifies this
      ensures Valid() && clauses == old(clauses) + [Owned(owner)]
    {
      RepresentsMore(conditions, args, clauses, Owned(owner));
      args := args + [IntV(owner)];
      conditions := conditions + [InOwnedKeys(|args|)];
      clauses := clauses + [Owned(owner)];
    }

    /** The closure `addIn`. */
    method AddIn(col: Column, values: seq<int>)
      requires Valid()
      modifies this
      ensures Valid() && clauses == old(clauses) + When(|values| > 0, OneOf(col, Ints(values)))
    {
      hide Represents, Ints, Counting, When;
      WhenCases(|values| > 0, OneOf(col, Ints(values)));
      if |values| == 0 {
        NothingAdded(clauses);
        return;
      }
      ghost var clause := OneOf(col, Ints(values));
      RepresentsMore(conditions, args, clauses, clause);
      NumberedInts(|args| + 1, values);
      var placeholders := AppendEach(values);
      conditions := conditions + [InList(col, placeholders)];
      clauses := clauses + [clause];
    }

    /** The loop of `addIn`: one argument and one placeholder per value. */
    method AppendEach(values: seq<int>) returns (placeholders: seq<int>)
      modifies this`args
      ensures args == old(args) + Ints(values) && placeholders == Counting(|old(args)| + 1, |values|)
    {
      hide Ints, Counting;
      ghost var before := args;
      placeholders := [];
      NumberedInts(|args| + 1, values);
      for i := 0 to |values|
        invariant args == before + Ints(values[..i]) && |Ints(values[..i])| == i
        invariant placeholders == Counting(|before| + 1, i)
      {
        OneMoreInt(|before| + 1, values, i);
        Sequences.ConcatAssociates(before, Ints(values[..i]), [IntV(values[i])]);
        args := args + [IntV(values[i])];
        placeholders := placeholders + [|args|];
      }
      assert values[..|values|] == values;
    }

    /** `if condition { add(...) }`. */
    method AddWhen(condition: bool, col: Column, op: Operator, value: Value)
      requires Valid()
      modifies this
      ensures Valid() && clauses == old(clauses) + When(condition, Test(col, op, value))
    {
      if condition {
        Add(col, op, value);
      } else {
        assert clauses + [] == clauses;
      }
    }

    method AddKeyConditions(f: Filter)
      requires Valid()
      modifies this
      ensures Valid() && clauses == WithKeys(old(clauses), f)
    {
      hide WhereBuilder.Valid;
      if |f.keyIds| > 0 {
        AddIn(ApiKeyId, f.keyIds);
      } else if f.keyId > 0 {
        Add(ApiKeyId, Eq, IntV(f.keyId));
      }
      if f.ownerUserId > 0 {
        AddOwner(f.ownerUserId);
      }
    }

    method AddTextConditions(f: Filter)
      requires Valid()
      modifies this
      ensures Valid() && clauses == WithText(old(clauses), f)
    {
      hide When, WhereBuilder.Valid;
      AddWhen(f.sessionId != "", SessionId, Eq, StrV(f.sessionId));
      AddWhen(f.clientType != "", ClientType, Eq, StrV(f.clientType));
      AddWhen(f.clientIp != "", ClientIp, Eq, StrV(f.clientIp));
      AddWhen(f.model != "", Model, Eq, StrV(f.model));
      AddWhen(f.reasoningEffort != "", ReasoningEffort, Eq, StrV(f.reasoningEffort));
      AddWhen(f.endpoint != "", Endpoint, Eq, StrV(f.endpoint));
      AddWhen(f.upstreamMode != "", UpstreamMode, Eq, StrV(f.upstreamMode));
    }

    method AddOutcomeConditions(f: Filter)
      requires Valid()
      modifies this
      ensures Valid() && clauses == WithOutcome(old(clauses), f)
    {
      hide When, WhereBuilder.Valid;
      AddWhen(f.errorType != "", ErrorType, Eq, StrV(f.errorType));
      AddWhen(f.errorType == "" && f.upstreamErrorType != "", UpstreamErrorType, Eq, StrV(f.upstreamErrorType));
      AddWhen(f.excludeErrorType != "", ErrorType, Ne, StrV(f.excludeErrorType));
      AddWhen(f.statusCode > 0, StatusCode, Eq, IntV(f.statusCode));
      AddWhen(f.successSet, Success, Eq, BoolV(f.success));
      AddWhen(f.startTime.Some?, CreatedAt, Ge, TimeOf(f.startTime));
      AddWhen(f.endTime.Some?, CreatedAt, Lt, TimeOf(f.endTime));
    }
  }

  /** The conditions and arguments are those of the clauses, numbered from 1 without gaps. */
  ghost predicate Represents(conditions: seq<Condition>, args: seq<Value>, clauses: seq<Clause>) {
    && |conditions| == |clauses|
    && WellNumbered(conditions, args)
    && forall i :: 0 <= i < |clauses| ==> Carries(conditions[i], args, clauses[i])
  }

  /** The clause's arguments stand in the argument list from number `from` on. */
  predicate StandsAt(args: seq<Value>, clause: Clause, from: int) {
    && 1 <= from && from - 1 + |ArgsOf(clause)| <= |args|
    && args[from - 1..from - 1 + |ArgsOf(clause)|] == ArgsOf(clause)
  }

  /** The condition is the clause's, and its placeholders name the clause's arguments. */
  ghost predicate Carries(c: Condition, args: seq<Value>, clause: Clause) {
    exists from: int :: StandsAt(args, clause, from) && c == Numbered(clause, from)
  }

  lemma WhenCases(condition: bool, clause: Clause)
    ensures When(condition, clause) == if condition then [clause] else []
  {
  }

  lemma NothingAdded(clauses: seq<Clause>)
    ensures clauses + [] == clauses
  {
  }

  lemma NumberedInts(from: int, values: seq<int>)
    ensures |Ints(values)| == |values| && Ints(values[..0]) == [] && Counting(from, 0) == []
  {
  }

  lemma OneMoreInt(from: int, values: seq<int>, i: nat)
    requires i < |values|
    ensures Ints(values[..i + 1]) == Ints(values[..i]) + [IntV(values[i])] && |Ints(values[..i + 1])| == i + 1
    ensures Counting(from, i + 1) == Counting(from, i) + [from + i]
  {
  }

  lemma NothingRepresented()
    ensures Represents([], [], [])
  {
  }

  lemma SliceKept(s: seq<Value>, more: seq<Value>, i: nat, j: nat)
    requires i <= j <= |s|
    ensures (s + more)[i..j] == s[i..j]
  {
  }

  lemma CarriesMore(c: Condition, args: seq<Value>, more: seq<Value>, clause: Clause)
    requires Carries(c, args, clause)
    ensures Carries(c, args + more, clause)
  {
    hide Numbered;
    var from: int :| StandsAt(args, clause, from) && c == Numbered(clause, from);
    SliceKept(args, more, from - 1, from - 1 + |ArgsOf(clause)|);
  }

  lemma RepresentsMore(conditions: seq<Condition>, args: seq<Value>, clauses: seq<Clause>, clause: Clause)
    requires Represents(conditions, args, clauses)
    ensures Represents(conditions + [Numbered(clause, |args| + 1)], args + ArgsOf(clause), clauses + [clause])
  {
    hide Carries;
    var next := Numbered(clause, |args| + 1);
    var more := args + ArgsOf(clause);
    var longer := conditions + [next];
    assert longer[..|longer| - 1] == conditions;
    assert PlaceholdersOf(next) == Counting(|args| + 1, |ArgsOf(clause)|);
    assert Counting(1, |args|) + Counting(|args| + 1, |ArgsOf(clause)|) == Counting(1, |more|);
    forall i | 0 <= i < |clauses| + 1 ensures Carries(longer[i], more, (clauses + [clause])[i]) {
      if i < |clauses| {
        CarriesMore(conditions[i], args, ArgsOf(clause), clauses[i]);
      } else {
        CarriesNew(args, clause);
      }
    }
  }

  lemma CarriesNew(args: seq<Value>, clause: Clause)
    ensures Carries(Numbered(clause, |args| + 1), args + ArgsOf(clause), clause)
  {
    var from := |args| + 1;
    assert (args + ArgsOf(clause))[from - 1..from - 1 + |ArgsOf(clause)|] == ArgsOf(clause);
  }

  /** `buildUsageWhereClause`. */
  method BuildWhere(f: Filter) returns (conditions: seq<Condition>, args: seq<Value>)
    ensures Represents(conditions, args, Clauses(f))
  {
    hide WithKeys, WithText, WithOutcome, Represents;
    var b := new WhereBuilder();
    b.AddKeyConditions(f);
    b.AddTextConditions(f);
    b.AddOutcomeConditions(f);
    conditions, args := b.conditions, b.args;
  }

  // ---------- meaning ----------

  lemma CountingIn(from: int, n: nat, p: int)
    ensures p in Counting(from, n) <==> from <= p < from + n
  {
    var s := Counting(from, n);
    if from <= p < from + n { assert s[p - from] == p; }
  }

  lemma {:induction false} PlaceholdersInRange(conditions: seq<Condition>, i: nat, p: int)
    requires i < |conditions| && p in PlaceholdersOf(conditions[i])
    ensures p in AllPlaceholders(conditions)
    decreases |conditions|
  {
    if i < |conditions| - 1 {
      PlaceholdersInRange(conditions[..|conditions| - 1], i, p);
    }
  }

  /** Each placeholder names one of the arguments. */
  lemma EvaluationDefined(conditions: seq<Condition>, args: seq<Value>, i: nat)
    requires WellNumbered(conditions, args) && i < |conditions|
    ensures forall p :: p in PlaceholdersOf(conditions[i]) ==> 1 <= p <= |args|
  {
    forall p | p in PlaceholdersOf(conditions[i]) ensures 1 <= p <= |args| {
      PlaceholdersInRange(conditions, i, p);
      CountingIn(1, |args|, p);
    }
  }

  /** Does the WHERE clause select the row: is every condition true, not merely not false? */
  predicate Selects(conditions: seq<Condition>, args: seq<Value>, row: Row, keys: seq<KeyRow>)
    requires WellNumbered(conditions, args)
  {
    forall i :: 0 <= i < |conditions| ==>
      (EvaluationDefined(conditions, args, i); Evaluate(conditions[i], args, row, keys)) == True
  }

  lemma EvaluateTest(col: Column, op: Operator, v: Value, args: seq<Value>, from: int, row: Row, keys: seq<KeyRow>)
    requires 1 <= from <= |args| && args[from - 1] == v
    ensures Evaluate(Compare(col, op, from), args, row, keys) == True <==> Holds(Test(col, op, v), row, keys)
  {
    hide CompareCell, Cell;
  }

  lemma EvaluateOwned(owner: int, args: seq<Value>, from: int, row: Row, keys: seq<KeyRow>)
    requires 1 <= from <= |args| && args[from - 1] == IntV(owner)
    ensures Evaluate(InOwnedKeys(from), args, row, keys) == True <==> Holds(Owned(owner), row, keys)
  {
    hide OwnedBy;
  }

  lemma EvaluateOneOf(col: Column, vs: seq<Value>, args: seq<Value>, from: int, row: Row, keys: seq<KeyRow>)
    requires 1 <= from && from - 1 + |vs| <= |args| && args[from - 1..from - 1 + |vs|] == vs
    requires forall p :: p in PlaceholdersOf(InList(col, Counting(from, |vs|))) ==> 1 <= p <= |args|
    ensures Evaluate(InList(col, Counting(from, |vs|)), args, row, keys) == True <==> Holds(OneOf(col, vs), row, keys)
  {
    hide Cell;
    var ps := Counting(from, |vs|);
    forall i | 0 <= i < |vs| ensures args[ps[i] - 1] == vs[i] {
      assert args[from - 1..from - 1 + |vs|][i] == vs[i];
    }
    if Cell(row, col).Some? && Cell(row, col).value in vs {
      var i :| 0 <= i < |vs| && vs[i] == Cell(row, col).value;
      assert ps[i] in PlaceholdersOf(InList(col, ps)) && args[ps[i] - 1] == Cell(row, col).value;
    }
  }

  lemma EvaluateNumbered(args: seq<Value>, clause: Clause, from: int, row: Row, keys: seq<KeyRow>)
    requires StandsAt(args, clause, from)
    requires forall p :: p in PlaceholdersOf(Numbered(clause, from)) ==> 1 <= p <= |args|
    ensures Evaluate(Numbered(clause, from), args, row, keys) == True <==> Holds(clause, row, keys)
  {
    hide Evaluate, Holds, Counting;
    match clause
    case Test(col, op, v) =>
      assert args[from - 1..from - 1 + |ArgsOf(clause)|][0] == v;
      EvaluateTest(col, op, v, args, from, row, keys);
    case Owned(owner) =>
      assert args[from - 1..from - 1 + |ArgsOf(clause)|][0] == IntV(owner);
      EvaluateOwned(owner, args, from, row, keys);
    case OneOf(col, vs) =>
      assert ArgsOf(clause) == vs && Numbered(clause, from) == InList(col, Counting(from, |vs|));
      EvaluateOneOf(col, vs, args, from, row, keys);
  }

  lemma EvaluateCarried(c: Condition, args: seq<Value>, clause: Clause, row: Row, keys: seq<KeyRow>)
    requires Carries(c, args, clause)
    requires forall p :: p in PlaceholdersOf(c) ==> 1 <= p <= |args|
    ensures Evaluate(c, args, row, keys) == True <==> Holds(clause, row, keys)
  {
    hide Evaluate, Holds, Numbered, PlaceholdersOf, ArgsOf, StandsAt;
    var from: int :| StandsAt(args, clause, from) && c == Numbered(clause, from);
    EvaluateNumbered(args, clause, from, row, keys);
  }

  lemma SelectsIffAllHold(conditions: seq<Condition>, args: seq<Value>, clauses: seq<Clause>, row: Row,
                          keys: seq<KeyRow>)
    requires Represents(conditions, args, clauses)
    ensures Selects(conditions, args, row, keys) <==> AllHold(clauses, row, keys)
  {
    hide Holds, Evaluate, Carries, WellNumbered;
    forall i | 0 <= i < |conditions|
      ensures (EvaluationDefined(conditions, args, i); Evaluate(conditions[i], args, row, keys)) == True
         <==> Holds(clauses[i], row, keys) {
      EvaluationDefined(conditions, args, i);
      EvaluateCarried(conditions[i], args, clauses[i], row, keys);
    }
  }

  lemma AllHoldMore(base: seq<Clause>, condition: bool, clause: Clause, row: Row, keys: seq<KeyRow>)
    ensures AllHold(base + When(condition, clause), row, keys)
       <==> AllHold(base, row, keys) && (condition ==> Holds(clause, row, keys))
  {
    hide Holds;
    var all := base + When(condition, clause);
    assert forall i :: 0 <= i < |base| ==> all[i] == base[i];
    if condition { assert all[|base|] == clause; }
  }

  lemma KeysMean(base: seq<Clause>, f: Filter, row: Row, keys: seq<KeyRow>)
    ensures AllHold(WithKeys(base, f), row, keys) <==> AllHold(base, row, keys) && KeyMatches(f, row, keys)
  {
    hide AllHold, OwnedBy, When;
    var b1 := base + When(|f.keyIds| > 0, OneOf(ApiKeyId, Ints(f.keyIds)));
    var b2 := b1 + When(|f.keyIds| == 0 && f.keyId > 0, Test(ApiKeyId, Eq, IntV(f.keyId)));
    AllHoldMore(base, |f.keyIds| > 0, OneOf(ApiKeyId, Ints(f.keyIds)), row, keys);
    AllHoldMore(b1, |f.keyIds| == 0 && f.keyId > 0, Test(ApiKeyId, Eq, IntV(f.keyId)), row, keys);
    AllHoldMore(b2, f.ownerUserId > 0, Owned(f.ownerUserId), row, keys);
    if row.apiKeyId.Some? { IntsIn(f.keyIds, row.apiKeyId.value); }
  }

  lemma IntsIn(values: seq<int>, v: int)
    ensures IntV(v) in Ints(values) <==> v in values
  {
    if v in values {
      var i :| 0 <= i < |values| && values[i] == v;
      assert Ints(values)[i] == IntV(v);
    }
  }

  lemma EqHolds(col: Column, v: Value, row: Row, keys: seq<KeyRow>)
    ensures Holds(Test(col, Eq, v), row, keys) <==> Cell(row, col) == Some(v)
  {
  }

  /** Null is neither unequal to a value nor later nor earlier than it. */
  lemma OtherHolds(col: Column, v: Value, row: Row, keys: seq<KeyRow>)
    requires Cell(row, col).Some?
    ensures Holds(Test(col, Ne, v), row, keys) <==> Cell(row, col).value != v
    ensures Cell(row, col).value.TimeV? && v.TimeV? ==>
              && (Holds(Test(col, Ge, v), row, keys) <==> Cell(row, col).value.t >= v.t)
              && (Holds(Test(col, Lt, v), row, keys) <==> Cell(row, col).value.t < v.t)
  {
  }

  lemma TextMeans(base: seq<Clause>, f: Filter, row: Row, keys: seq<KeyRow>)
    ensures AllHold(WithText(base, f), row, keys) <==> AllHold(base, row, keys) && TextMatches(f, row)
  {
    hide AllHold, Holds, When;
    var b1 := base + When(f.sessionId != "", Test(SessionId, Eq, StrV(f.sessionId)));
    var b2 := b1 + When(f.clientType != "", Test(ClientType, Eq, StrV(f.clientType)));
    var b3 := b2 + When(f.clientIp != "", Test(ClientIp, Eq, StrV(f.clientIp)));
    var b4 := b3 + When(f.model != "", Test(Model, Eq, StrV(f.model)));
    var b5 := b4 + When(f.reasoningEffort != "", Test(ReasoningEffort, Eq, StrV(f.reasoningEffort)));
    var b6 := b5 + When(f.endpoint != "", Test(Endpoint, Eq, StrV(f.endpoint)));
    AllHoldMore(base, f.sessionId != "", Test(SessionId, Eq, StrV(f.sessionId)), row, keys);
    AllHoldMore(b1, f.clientType != "", Test(ClientType, Eq, StrV(f.clientType)), row, keys);
    AllHoldMore(b2, f.clientIp != "", Test(ClientIp, Eq, StrV(f.clientIp)), row, keys);
    AllHoldMore(b3, f.model != "", Test(Model, Eq, StrV(f.model)), row, keys);
    AllHoldMore(b4, f.reasoningEffort != "", Test(ReasoningEffort, Eq, StrV(f.reasoningEffort)), row, keys);
    AllHoldMore(b5, f.endpoint != "", Test(Endpoint, Eq, StrV(f.endpoint)), row, keys);
    AllHoldMore(b6, f.upstreamMode != "", Test(UpstreamMode, Eq, StrV(f.upstreamMode)), row, keys);
    EqHolds(SessionId, StrV(f.sessionId), row, keys);
    EqHolds(ClientType, StrV(f.clientType), row, keys);
    EqHolds(ClientIp, StrV(f.clientIp), row, keys);
    EqHolds(Model, StrV(f.model), row, keys);
    EqHolds(ReasoningEffort, StrV(f.reasoningEffort), row, keys);
    EqHolds(Endpoint, StrV(f.endpoint), row, keys);
    EqHolds(UpstreamMode, StrV(f.upstreamMode), row, keys);
  }

  lemma OutcomeMeans(base: seq<Clause>, f: Filter, row: Row, keys: seq<KeyRow>)
    ensures AllHold(WithOutcome(base, f), row, keys) <==> AllHold(base, row, keys) && OutcomeMatches(f, row)
  {
    hide AllHold, Holds, When;
    var b1 := base + When(f.errorType != "", Test(ErrorType, Eq, StrV(f.errorType)));
    var b2 := b1 + When(f.errorType == "" && f.upstreamErrorType != "",
                        Test(UpstreamErrorType, Eq, StrV(f.upstreamErrorType)));
    var b3 := b2 + When(f.excludeErrorType != "", Test(ErrorType, Ne, StrV(f.excludeErrorType)));
    var b4 := b3 + When(f.statusCode > 0, Test(StatusCode, Eq, IntV(f.statusCode)));
    var b5 := b4 + When(f.successSet, Test(Success, Eq, BoolV(f.success)));
    var b6 := b5 + When(f.startTime.Some?, Test(CreatedAt, Ge, TimeOf(f.startTime)));
    AllHoldMore(base, f.errorType != "", Test(ErrorType, Eq, StrV(f.errorType)), row, keys);
    AllHoldMore(b1, f.errorType == "" && f.upstreamErrorType != "",
                Test(UpstreamErrorType, Eq, StrV(f.upstreamErrorType)), row, keys);
    AllHoldMore(b2, f.excludeErrorType != "", Test(ErrorType, Ne, StrV(f.excludeErrorType)), row, keys);
    AllHoldMore(b3, f.statusCode > 0, Test(StatusCode, Eq, IntV(f.statusCode)), row, keys);
    AllHoldMore(b4, f.successSet, Test(Success, Eq, BoolV(f.success)), row, keys);
    AllHoldMore(b5, f.startTime.Some?, Test(CreatedAt, Ge, TimeOf(f.startTime)), row, keys);
    AllHoldMore(b6, f.endTime.Some?, Test(CreatedAt, Lt, TimeOf(f.endTime)), row, keys);
    EqHolds(ErrorType, StrV(f.errorType), row, keys);
    EqHolds(UpstreamErrorType, StrV(f.upstreamErrorType), row, keys);
    OtherHolds(ErrorType, StrV(f.excludeErrorType), row, keys);
    EqHolds(StatusCode, IntV(f.statusCode), row, keys);
    EqHolds(Success, BoolV(f.success), row, keys);
    OtherHolds(CreatedAt, TimeOf(f.startTime), row, keys);
    OtherHolds(CreatedAt, TimeOf(f.endTime), row, keys);
  }

  lemma ClausesMean(f: Filter, row: Row, keys: seq<KeyRow>)
    ensures AllHold(Clauses(f), row, keys) <==> Matches(f, row, keys)
  {
    hide WithKeys, WithText, WithOutcome, KeyMatches, TextMatches, OutcomeMatches, Holds;
    KeysMean([], f, row, keys);
    TextMeans(WithKeys([], f), f, row, keys);
    OutcomeMeans(WithText(WithKeys([], f), f), f, row, keys);
  }

  /**
   * For every filter: the placeholders are $1 to $n, once each and in order, for the n arguments,
   * and the clause selects a row, null key included, exactly when the filter means it.
   */
  lemma WhereClauseMeansFilter(f: Filter, conditions: seq<Condition>, args: seq<Value>, row: Row, keys: seq<KeyRow>)
    requires Represents(conditions, args, Clauses(f))
    ensures WellNumbered(conditions, args)
    ensures Selects(conditions, args, row, keys) <==> Matches(f, row, keys)
  {
    hide Clauses, AllHold, Selects, Matches;
    SelectsIffAllHold(conditions, args, Clauses(f), row, keys);
    ClausesMean(f, row, keys);
  }

  // ---------- the query builder ----------

  /** The ids of an owner's keys, or None when the lookup failed. */
  function OwnedIds(keys: seq<KeyRow>, owner: int): seq<int> {
    if keys == [] then [] else
    OwnedIds(keys[..|keys| - 1], owner)
    + if keys[|keys| - 1].owner == Some(owner) then [keys[|keys| - 1].id] else []
  }

  lemma {:induction false} OwnedIdsIn(keys: seq<KeyRow>, owner: int, id: int)
    ensures id in OwnedIds(keys, owner) <==> OwnedBy(keys, id, owner)
  {
    if keys != [] {
      var init, last := keys[..|keys| - 1], keys[|keys| - 1];
      OwnedIdsIn(init, owner, id);
      if OwnedBy(init, id, owner) {
        var i :| 0 <= i < |init| && init[i].id == id && init[i].owner == Some(owner);
        assert keys[i] == init[i];
      }
      if OwnedBy(keys, id, owner) && !(last.id == id && last.owner == Some(owner)) {
        var i :| 0 <= i < |keys| && keys[i].id == id && keys[i].owner == Some(owner);
        assert init[i] == keys[i];
      }
      assert keys[|keys| - 1] == last;
    }
  }

  /** `if condition { q = q.Where(...) }`. */
  method Where(q: seq<Clause>, condition: bool, clause: Clause) returns (r: seq<Clause>)
    ensures r == q + When(condition, clause)
  {
    r := q;
    if condition {
      r := r + [clause];
    }
  }

  /** `applyUsageFilter`: the predicates put on the query; the owner's keys are looked up first. */
  method ApplyFilter(f: Filter, ownedIds: Option<seq<int>>) returns (q: seq<Clause>)
    ensures q == WithOutcome(WithText(QueryKeys(f, ownedIds), f), f)
  {
    hide When;
    q := ApplyKeys(f, ownedIds);
    q := Where(q, f.sessionId != "", Test(SessionId, Eq, StrV(f.sessionId)));
    q := Where(q, f.clientType != "", Test(ClientType, Eq, StrV(f.clientType)));
    q := Where(q, f.clientIp != "", Test(ClientIp, Eq, StrV(f.clientIp)));
    q := Where(q, f.model != "", Test(Model, Eq, StrV(f.model)));
    q := Where(q, f.reasoningEffort != "", Test(ReasoningEffort, Eq, StrV(f.reasoningEffort)));
    q := Where(q, f.endpoint != "", Test(Endpoint, Eq, StrV(f.endpoint)));
    q := Where(q, f.upstreamMode != "", Test(UpstreamMode, Eq, StrV(f.upstreamMode)));
    assert q == WithText(QueryKeys(f, ownedIds), f);
    q := Where(q, f.errorType != "", Test(ErrorType, Eq, StrV(f.errorType)));
    q := Where(q, f.errorType == "" && f.upstreamErrorType != "",
               Test(UpstreamErrorType, Eq, StrV(f.upstreamErrorType)));
    q := Where(q, f.excludeErrorType != "", Test(ErrorType, Ne, StrV(f.excludeErrorType)));
    q := Where(q, f.statusCode > 0, Test(StatusCode, Eq, IntV(f.statusCode)));
    q := Where(q, f.successSet, Test(Success, Eq, BoolV(f.success)));
    q := Where(q, f.startTime.Some?, Test(CreatedAt, Ge, TimeOf(f.startTime)));
    q := Where(q, f.endTime.Some?, Test(CreatedAt, Lt, TimeOf(f.endTime)));
  }

  method ApplyKeys(f: Filter, ownedIds: Option<seq<int>>) returns (q: seq<Clause>)
    ensures q == QueryKeys(f, ownedIds)
  {
    q := [];
    if |f.keyIds| > 0 {
      q := q + [OneOf(ApiKeyId, Ints(f.keyIds))];
    } else if f.keyId > 0 {
      q := q + [Test(ApiKeyId, Eq, IntV(f.keyId))];
    }
    if f.ownerUserId > 0 {
      if ownedIds.Some? {
        if |ownedIds.value| == 0 {
          q := q + [Test(ApiKeyId, Eq, IntV(-1))];
        } else {
          q := q + [OneOf(ApiKeyId, Ints(ownedIds.value))];
        }
      }
    }
  }

  function QueryKeys(f: Filter, ownedIds: Option<seq<int>>): seq<Clause> {
    When(|f.keyIds| > 0, OneOf(ApiKeyId, Ints(f.keyIds)))
    + When(|f.keyIds| == 0 && f.keyId > 0, Test(ApiKeyId, Eq, IntV(f.keyId)))
    + When(f.ownerUserId > 0 && ownedIds.Some?,
           if ownedIds.Some? && |ownedIds.value| > 0 then OneOf(ApiKeyId, Ints(ownedIds.value))
           else Test(ApiKeyId, Eq, IntV(-1)))
  }

  /** Key ids are assigned by the database and positive; a log row may lack its key. */
  predicate RealKey(row: Row) {
    row.apiKeyId.Some? ==> row.apiKeyId.value > 0
  }

  lemma QueryKeysMean(f: Filter, ownedIds: Option<seq<int>>, row: Row, keys: seq<KeyRow>)
    requires RealKey(row) && (ownedIds.Some? ==> ownedIds.value == OwnedIds(keys, f.ownerUserId))
    ensures AllHold(QueryKeys(f, ownedIds), row, keys)
       <==> KeyMatches(if ownedIds.Some? then f else f.(ownerUserId := 0), row, keys)
  {
    hide AllHold, OwnedBy, When, OwnedIds;
    var b1 := [] + When(|f.keyIds| > 0, OneOf(ApiKeyId, Ints(f.keyIds)));
    var b2 := b1 + When(|f.keyIds| == 0 && f.keyId > 0, Test(ApiKeyId, Eq, IntV(f.keyId)));
    var last := if ownedIds.Some? && |ownedIds.value| > 0 then OneOf(ApiKeyId, Ints(ownedIds.value))
        else Test(ApiKeyId, Eq, IntV(-1));
    assert AllHold([], row, keys) by { NothingAsked(row, keys); }
    assert b1 == When(|f.keyIds| > 0, OneOf(ApiKeyId, Ints(f.keyIds)));
    AllHoldMore([], |f.keyIds| > 0, OneOf(ApiKeyId, Ints(f.keyIds)), row, keys);
    AllHoldMore(b1, |f.keyIds| == 0 && f.keyId > 0, Test(ApiKeyId, Eq, IntV(f.keyId)), row, keys);
    AllHoldMore(b2, f.ownerUserId > 0 && ownedIds.Some?, last, row, keys);
    if row.apiKeyId.Some? {
      IntsIn(f.keyIds, row.apiKeyId.value);
      OwnedIdsIn(keys, f.ownerUserId, row.apiKeyId.value);
      if ownedIds.Some? { IntsIn(ownedIds.value, row.apiKeyId.value); }
    }
  }

  lemma NothingAsked(row: Row, keys: seq<KeyRow>)
    ensures AllHold([], row, keys)
  {
  }

  /**
   * The query builder agrees with the WHERE clause and with the filter on every row as long as the
   * owner lookup succeeds; when it fails the owner is left out of the query altogether.
   */
  lemma QueryMeansFilter(f: Filter, ownedIds: Option<seq<int>>, row: Row, keys: seq<KeyRow>)
    requires RealKey(row) && (ownedIds.Some? ==> ownedIds.value == OwnedIds(keys, f.ownerUserId))
    ensures AllHold(WithOutcome(WithText(QueryKeys(f, ownedIds), f), f), row, keys)
       <==> Matches(if ownedIds.Some? then f else f.(ownerUserId := 0), row, keys)
  {
    hide WithText, WithOutcome, QueryKeys, KeyMatches, AllHold;
    QueryKeysMean(f, ownedIds, row, keys);
    TextMeans(QueryKeys(f, ownedIds), f, row, keys);
    OutcomeMeans(WithText(QueryKeys(f, ownedIds), f), f, row, keys);
  }

  /** After a failed lookup the two forms differ on a row exactly when only the owner excludes it. */
  lemma FailedLookupDiffersIff(f: Filter, row: Row, keys: seq<KeyRow>)
    requires RealKey(row)
    ensures AllHold(WithOutcome(WithText(QueryKeys(f, None), f), f), row, keys) != AllHold(Clauses(f), row, keys)
       <==> f.ownerUserId > 0 && Matches(f.(ownerUserId := 0), row, keys)
            && !(row.apiKeyId.Some? && OwnedBy(keys, row.apiKeyId.value, f.ownerUserId))
  {
    hide WithText, WithOutcome, QueryKeys, AllHold, Clauses, OwnedBy;
    QueryMeansFilter(f, None, row, keys);
    ClausesMean(f, row, keys);
  }

  const BLANK_FILTER := Filter([], 0, 0, "", "", "", "", "", "", "", "", "", "", 0, false, false, None, None)

  /** Another owner's row, kept out by the clause and let in by the query whose owner lookup failed. */
  lemma FailedLookupLetsIn(row: Row, owner: int)
    requires RealKey(row) && owner > 0
    ensures var f := BLANK_FILTER.(ownerUserId := owner);
            AllHold(WithOutcome(WithText(QueryKeys(f, None), f), f), row, []) && !AllHold(Clauses(f), row, [])
  {
    hide WithText, WithOutcome, QueryKeys, AllHold, Clauses;
    var f := BLANK_FILTER.(ownerUserId := owner);
    QueryMeansFilter(f, None, row, []);
    FailedLookupDiffersIff(f, row, []);
  }
}
