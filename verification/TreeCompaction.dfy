/**
 * Compaction of long strings anywhere in a request payload: the gateway walks the JSON tree and
 * replaces every long string under a text-carrying key, keeping the originals as segments.
 */
module TreeCompaction {
  import opened Wrappers
  import opened Sequences
  import opened Text
  import opened Json

  const PLACEHOLDER := "[gateway_context_summary]"
  const STATE_SCHEMA := "gateway_context_restore_state.v1"
  const MIN_RUNES := 4000

  datatype Segment = Segment(origin: string, role: string, text: string)

  /** The wording of the text that stands in for a compacted string, and of the role of a path. */
  datatype Wording = Wording(anchor: (string, string) -> string, role: seq<string> -> string)

  /** `gatewayContextCompactableStringKey`. */
  predicate CompactableKey(key: string) {
    Trim(key) == "instructions" || Trim(key) == "input" || Trim(key) == "content"
    || Trim(key) == "text" || Trim(key) == "arguments" || Trim(key) == "output"
  }

  predicate Protected(part: string) {
    part == "tools" || part == "tool_choice" || part == "metadata"
  }

  /** `gatewayContextSkipGenericCompaction`. */
  predicate Skip(path: seq<string>) {
    exists i :: 0 <= i < |path| && Protected(path[i])
  }

  predicate Marked(text: string) {
    Contains(text, PLACEHOLDER) || Contains(text, STATE_SCHEMA)
  }

  predicate Long(text: string) {
    |text| >= MIN_RUNES && !Marked(text)
  }

  /** Which texts are replaced: those of 4000 characters or more that do not come from a compaction. */
  lemma LongIs(text: string)
    ensures Long(text) <==> |text| >= 4000 && !Contains(text, "[gateway_context_summary]")
                            && !Contains(text, "gateway_context_restore_state.v1")
  {
  }

  function Replacement(w: Wording, origin: string, text: string): string {
    PLACEHOLDER + "\n\n" + w.anchor(origin, text)
  }

  function IndexPart(i: int): string {
    "[" + Decimal(i) + "]"
  }

  const TEXT_KEYS := ["instructions", "input", "content", "text", "arguments", "output"]

  /** Six keys hold text, white space around them aside; three path parts close everything below them. */
  lemma KeysAre(key: string, path: seq<string>)
    ensures CompactableKey(key) <==> Trim(key) in TEXT_KEYS
    ensures Skip(path) <==> "tools" in path || "tool_choice" in path || "metadata" in path
  {
    hide Trim;
    assert forall part :: part in path ==> exists i :: 0 <= i < |path| && path[i] == part;
    assert TEXT_KEYS[0] == "instructions" && TEXT_KEYS[1] == "input" && TEXT_KEYS[2] == "content";
    assert TEXT_KEYS[3] == "text" && TEXT_KEYS[4] == "arguments" && TEXT_KEYS[5] == "output";
  }

  /** How a text inside a list is named. */
  lemma OriginReads(a: string, i: nat, b: string)
    ensures Join([a, IndexPart(i), b], ".") == a + ".[" + Decimal(i) + "]." + b
  {
    hide Decimal;
    assert [a, IndexPart(i), b][1..] == [IndexPart(i), b] && [IndexPart(i), b][1..] == [b];
    assert Join([b], ".") == b;
    assert Join([IndexPart(i), b], ".") == IndexPart(i) + "." + b;
  }

  // ---------- specification ----------

  function CompactText(w: Wording, text: string, path: seq<string>): string {
    if Long(text) then Replacement(w, Join(path, "."), text) else text
  }

  /** The payload after compaction; `path` leads to `value`. */
  function Compact(w: Wording, value: Json, path: seq<string>): Json
    decreases value, 0
  {
    match value
    case Obj(fields) => Obj(map k | k in fields :: CompactChild(w, fields[k], k, path))
    case Arr(items) => Arr(seq(|items|, i requires 0 <= i < |items| => Compact(w, items[i], path + [IndexPart(i)])))
    case _ => value
  }

  function CompactChild(w: Wording, child: Json, key: string, path: seq<string>): Json
    decreases child, 1
  {
    if Skip(path + [key]) then child
    else if child.Str? && CompactableKey(key) then Str(CompactText(w, child.s, path + [key]))
    else Compact(w, child, path + [key])
  }

  /** The texts that compaction takes out, each with its origin and role. */
  ghost function Taken(w: Wording, value: Json, path: seq<string>): multiset<Segment>
    decreases value, 0
  {
    match value
    case Obj(fields) => SumMap(map k | k in fields :: TakenChild(w, fields[k], k, path))
    case Arr(items) => SumSeq(seq(|items|, i requires 0 <= i < |items| => Taken(w, items[i], path + [IndexPart(i)])))
    case _ => multiset{}
  }

  ghost function TakenChild(w: Wording, child: Json, key: string, path: seq<string>): multiset<Segment>
    decreases child, 1
  {
    if Skip(path + [key]) then multiset{}
    else if child.Str? && CompactableKey(key) then
      if Long(child.s) then multiset{Segment(Join(path + [key], "."), w.role(path + [key]), child.s)} else multiset{}
    else Taken(w, child, path + [key])
  }

  ghost function SumMap(m: map<string, multiset<Segment>>): multiset<Segment>
    decreases |m|
  {
    if m == map[] then multiset{} else
    var k :| k in m;
    m[k] + SumMap(m - {k})
  }

  ghost function SumSeq(ms: seq<multiset<Segment>>): multiset<Segment> {
    if ms == [] then multiset{} else SumSeq(ms[..|ms| - 1]) + ms[|ms| - 1]
  }

  /** What is still to be taken from the keys in `todo`. */
  ghost function TakenFrom(w: Wording, fields: map<string, Json>, todo: set<string>,
                           path: seq<string>): multiset<Segment>
    requires todo <= fields.Keys
  {
    SumMap(map k | k in todo :: TakenChild(w, fields[k], k, path))
  }

  lemma {:induction false} SumMapPick(m: map<string, multiset<Segment>>, k: string)
    requires k in m
    ensures SumMap(m) == m[k] + SumMap(m - {k})
    decreases |m|
  {
    var j :| j in m && SumMap(m) == m[j] + SumMap(m - {j});
    if j != k {
      SumMapPick(m - {j}, k);
      SumMapPick(m - {k}, j);
      assert (m - {j}) - {k} == (m - {k}) - {j};
    }
  }

  lemma TakenFromPick(w: Wording, fields: map<string, Json>, todo: set<string>, path: seq<string>, k: string)
    requires todo <= fields.Keys && k in todo
    ensures TakenFrom(w, fields, todo, path)
         == TakenChild(w, fields[k], k, path) + TakenFrom(w, fields, todo - {k}, path)
  {
    hide TakenChild;
    var m := map j | j in todo :: TakenChild(w, fields[j], j, path);
    SumMapPick(m, k);
    assert m - {k} == map j | j in todo - {k} :: TakenChild(w, fields[j], j, path);
  }

  // ---------- in which order ----------

  /** The texts that one walk may collect, in order: the keys of an object come in any order. */
  ghost predicate Yields(w: Wording, value: Json, path: seq<string>, out: seq<Segment>)
    decreases value, 2
  {
    match value
    case Obj(fields) => YieldsKeys(w, value, fields.Keys, path, out)
    case Arr(items) => YieldsItems(w, value, 0, path, out)
    case _ => out == []
  }

  ghost predicate YieldsKeys(w: Wording, value: Json, todo: set<string>, path: seq<string>, out: seq<Segment>)
    requires value.Obj? && todo <= value.fields.Keys
    decreases value, 1, |todo|
  {
    if todo == {} then out == [] else
    exists k, first, rest :: k in todo && out == first + rest
      && YieldsChild(w, value.fields[k], k, path, first) && YieldsKeys(w, value, todo - {k}, path, rest)
  }

  ghost predicate YieldsItems(w: Wording, value: Json, i: nat, path: seq<string>, out: seq<Segment>)
    requires value.Arr? && i <= |value.items|
    decreases value, 1, |value.items| - i
  {
    if i == |value.items| then out == [] else
    exists first, rest :: out == first + rest
      && Yields(w, value.items[i], path + [IndexPart(i)], first) && YieldsItems(w, value, i + 1, path, rest)
  }

  ghost predicate YieldsChild(w: Wording, child: Json, key: string, path: seq<string>, out: seq<Segment>)
    decreases child, 3
  {
    if Skip(path + [key]) then out == []
    else if child.Str? && CompactableKey(key) then
      out == if Long(child.s) then [Segment(Join(path + [key], "."), w.role(path + [key]), child.s)] else []
    else Yields(w, child, path + [key], out)
  }

  /** Whatever a walk collects, in whatever order, is what compaction takes out. */
  lemma {:induction false} YieldsTaken(w: Wording, value: Json, path: seq<string>, out: seq<Segment>)
    requires Yields(w, value, path, out)
    ensures multiset(out) == Taken(w, value, path)
    decreases value, 2
  {
    hide YieldsKeys, YieldsItems, TakenChild;
    match value
    case Obj(fields) =>
      YieldsKeysTaken(w, value, fields.Keys, path, out);
      assert (map k | k in fields :: TakenChild(w, fields[k], k, path))
          == map k | k in fields.Keys :: TakenChild(w, fields[k], k, path);
    case Arr(items) => YieldsItemsTaken(w, value, 0, path, out);
    case _ =>
  }

  lemma {:induction false} YieldsKeysTaken(w: Wording, value: Json, todo: set<string>, path: seq<string>,
                                           out: seq<Segment>)
    requires value.Obj? && todo <= value.fields.Keys && YieldsKeys(w, value, todo, path, out)
    ensures multiset(out) == TakenFrom(w, value.fields, todo, path)
    decreases value, 1, |todo|
  {
    hide TakenFrom, YieldsChild, TakenChild;
    if todo == {} {
      NothingTaken(w, value.fields, path);
    } else {
      var k, first, rest :| k in todo && out == first + rest && YieldsChild(w, value.fields[k], k, path, first)
                            && YieldsKeys(w, value, todo - {k}, path, rest);
      YieldsChildTaken(w, value.fields[k], k, path, first);
      YieldsKeysTaken(w, value, todo - {k}, path, rest);
      TakenFromPick(w, value.fields, todo, path, k);
    }
  }

  lemma NothingTaken(w: Wording, fields: map<string, Json>, path: seq<string>)
    ensures TakenFrom(w, fields, {}, path) == multiset{}
  {
    hide TakenChild;
  }

  lemma {:induction false} YieldsChildTaken(w: Wording, child: Json, key: string, path: seq<string>, out: seq<Segment>)
    requires YieldsChild(w, child, key, path, out)
    ensures multiset(out) == TakenChild(w, child, key, path)
    decreases child, 3
  {
    hide CompactableKey, Skip, Marked, Yields, Taken;
    if !Skip(path + [key]) && !(child.Str? && CompactableKey(key)) {
      YieldsTaken(w, child, path + [key], out);
    }
  }

  lemma {:induction false} YieldsItemsTaken(w: Wording, value: Json, i: nat, path: seq<string>, out: seq<Segment>)
    requires value.Arr? && i <= |value.items| && YieldsItems(w, value, i, path, out)
    ensures SumSeq(TakenItems(w, value.items, path)[..i]) + multiset(out) == Taken(w, value, path)
    decreases value, 1, |value.items| - i
  {
    hide Yields, IndexPart, SumSeq;
    var each := TakenItems(w, value.items, path);
    assert each[..|value.items|] == each;
    if i < |value.items| {
      var first, rest :| out == first + rest && Yields(w, value.items[i], path + [IndexPart(i)], first)
                         && YieldsItems(w, value, i + 1, path, rest);
      YieldsTaken(w, value.items[i], path + [IndexPart(i)], first);
      YieldsItemsTaken(w, value, i + 1, path, rest);
      SumSeqMore(each, i);
    }
  }

  ghost function TakenItems(w: Wording, items: seq<Json>, path: seq<string>): seq<multiset<Segment>> {
    seq(|items|, i requires 0 <= i < |items| => Taken(w, items[i], path + [IndexPart(i)]))
  }

  lemma SumSeqMore(ms: seq<multiset<Segment>>, i: nat)
    requires i < |ms|
    ensures SumSeq(ms[..i + 1]) == SumSeq(ms[..i]) + ms[i]
  {
    assert ms[..i + 1][..i] == ms[..i];
  }

  /** What was collected so far, followed by whatever the keys to come yield, is what the object yields. */
  ghost predicate Continues(w: Wording, value: Json, todo: set<string>, path: seq<string>, done: seq<Segment>)
    requires value.Obj? && todo <= value.fields.Keys
  {
    forall rest :: YieldsKeys(w, value, todo, path, rest) ==>
      YieldsKeys(w, value, value.fields.Keys, path, done + rest)
  }

  lemma NothingVisited(w: Wording, value: Json, path: seq<string>)
    requires value.Obj?
    ensures Continues(w, value, value.fields.Keys, path, [])
  {
    hide YieldsKeys;
    assert forall rest: seq<Segment> :: [] + rest == rest;
  }

  lemma ContinuesWith(w: Wording, value: Json, todo: set<string>, path: seq<string>, done: seq<Segment>, k: string,
                      first: seq<Segment>)
    requires value.Obj? && todo <= value.fields.Keys && Continues(w, value, todo, path, done)
    requires k in todo && YieldsChild(w, value.fields[k], k, path, first)
    ensures Continues(w, value, todo - {k}, path, done + first)
  {
    hide YieldsChild;
    forall rest | YieldsKeys(w, value, todo - {k}, path, rest)
      ensures YieldsKeys(w, value, value.fields.Keys, path, (done + first) + rest) {
      assert YieldsKeys(w, value, todo, path, first + rest);
      ConcatAssociates(done, first, rest);
    }
  }

  lemma AllVisited(w: Wording, value: Json, path: seq<string>, done: seq<Segment>)
    requires value.Obj? && Continues(w, value, {}, path, done)
    ensures Yields(w, value, path, done)
  {
    assert done + [] == done;
    assert YieldsKeys(w, value, {}, path, []);
  }

  ghost predicate ContinuesAt(w: Wording, value: Json, i: nat, path: seq<string>, done: seq<Segment>)
    requires value.Arr? && i <= |value.items|
  {
    forall rest :: YieldsItems(w, value, i, path, rest) ==> YieldsItems(w, value, 0, path, done + rest)
  }

  lemma NoItemVisited(w: Wording, value: Json, path: seq<string>)
    requires value.Arr?
    ensures ContinuesAt(w, value, 0, path, [])
  {
    hide YieldsItems;
    assert forall rest: seq<Segment> :: [] + rest == rest;
  }

  lemma ContinuesAfter(w: Wording, value: Json, i: nat, path: seq<string>, done: seq<Segment>, first: seq<Segment>)
    requires value.Arr? && i < |value.items| && ContinuesAt(w, value, i, path, done)
    requires Yields(w, value.items[i], path + [IndexPart(i)], first)
    ensures ContinuesAt(w, value, i + 1, path, done + first)
  {
    hide Yields, IndexPart;
    forall rest | YieldsItems(w, value, i + 1, path, rest)
      ensures YieldsItems(w, value, 0, path, (done + first) + rest) {
      assert YieldsItems(w, value, i, path, first + rest);
      ConcatAssociates(done, first, rest);
    }
  }

  lemma AllItemsVisited(w: Wording, value: Json, path: seq<string>, done: seq<Segment>)
    requires value.Arr? && ContinuesAt(w, value, |value.items|, path, done)
    ensures Yields(w, value, path, done)
  {
    assert done + [] == done;
    assert YieldsItems(w, value, |value.items|, path, []);
  }

  // ---------- the walk ----------

  /**
   * The walk over a payload. The keys of an object are visited in whatever order the map yields
   * them; the resulting payload is the same for every order, and `old` gains exactly the texts
   * that were replaced, in the order of the visit.
   */
  method CompactLargeStrings(w: Wording, value: Json, old0: seq<Segment>, path: seq<string>)
    returns (next: Json, old1: seq<Segment>, changed: bool)
    ensures next == Compact(w, value, path)
    ensures old0 <= old1 && Yields(w, value, path, old1[|old0|..])
    ensures multiset(old1) == multiset(old0) + Taken(w, value, path)
    ensures changed <==> |old1| > |old0|
    decreases value, 0, 1
  {
    hide CompactChild, TakenChild, YieldsKeys, YieldsItems;
    match value {
      case Obj(fields) =>
        var out;
        out, old1, changed := CompactObject(w, value, old0, path);
        next := Obj(out);
      case Arr(items) =>
        var out;
        out, old1, changed := CompactArray(w, value, old0, path);
        next := Arr(out);
      case _ =>
        next, old1, changed := value, old0, false;
    }
    YieldsTaken(w, value, path, old1[|old0|..]);
    assert old1 == old0 + old1[|old0|..];
  }

  method CompactObject(w: Wording, value: Json, old0: seq<Segment>, path: seq<string>)
    returns (out: map<string, Json>, old1: seq<Segment>, changed: bool)
    requires value.Obj?
    ensures Obj(out) == Compact(w, value, path)
    ensures old0 <= old1 && Yields(w, value, path, old1[|old0|..])
    ensures changed <==> |old1| > |old0|
    decreases value, 0, 0
  {
    hide CompactChild, TakenChild, Compact, Taken, YieldsChild, YieldsKeys, Continues;
    var fields := value.fields;
    out, old1, changed := fields, old0, false;
    var todo := fields.Keys;
    NothingVisited(w, value, path);
    assert old1[|old0|..] == [];
    while todo != {}
      invariant todo <= fields.Keys && out.Keys == fields.Keys
      invariant forall k :: k in todo ==> out[k] == fields[k]
      invariant forall k :: k in fields && k !in todo ==> out[k] == CompactChild(w, fields[k], k, path)
      invariant old0 <= old1
      invariant Continues(w, value, todo, path, old1[|old0|..])
      invariant changed <==> |old1| > |old0|
      decreases todo
    {
      var k :| k in todo;
      var child, taken, some := CompactEntry(w, fields[k], k, old1, path);
      ContinuesWith(w, value, todo, path, old1[|old0|..], k, taken[|old1|..]);
      assert taken[|old0|..] == old1[|old0|..] + taken[|old1|..];
      out := out[k := child];
      old1 := taken;
      changed := changed || some;
      todo := todo - {k};
    }
    AllVisited(w, value, path, old1[|old0|..]);
    ObjectCompacted(w, fields, out, path);
  }

  lemma ObjectCompacted(w: Wording, fields: map<string, Json>, out: map<string, Json>, path: seq<string>)
    requires out.Keys == fields.Keys && forall k :: k in fields ==> out[k] == CompactChild(w, fields[k], k, path)
    ensures Compact(w, Obj(fields), path) == Obj(out)
  {
    hide CompactChild;
    assert out == map k | k in fields :: CompactChild(w, fields[k], k, path);
  }

  method CompactArray(w: Wording, value: Json, old0: seq<Segment>, path: seq<string>)
    returns (out: seq<Json>, old1: seq<Segment>, changed: bool)
    requires value.Arr?
    ensures Arr(out) == Compact(w, value, path)
    ensures old0 <= old1 && Yields(w, value, path, old1[|old0|..])
    ensures changed <==> |old1| > |old0|
    decreases value, 0, 0
  {
    hide Compact, Taken, IndexPart, Yields, ContinuesAt;
    var items := value.items;
    out, old1, changed := items, old0, false;
    NoItemVisited(w, value, path);
    assert old1[|old0|..] == [];
    for i := 0 to |items|
      invariant |out| == |items| && forall j :: i <= j < |items| ==> out[j] == items[j]
      invariant forall j :: 0 <= j < i ==> out[j] == Compact(w, items[j], path + [IndexPart(j)])
      invariant old0 <= old1 && ContinuesAt(w, value, i, path, old1[|old0|..])
      invariant changed <==> |old1| > |old0|
    {
      var child, taken, some := CompactLargeStrings(w, items[i], old1, path + [IndexPart(i)]);
      ContinuesAfter(w, value, i, path, old1[|old0|..], taken[|old1|..]);
      assert taken[|old0|..] == old1[|old0|..] + taken[|old1|..];
      out := out[i := child];
      old1 := taken;
      changed := changed || some;
    }
    AllItemsVisited(w, value, path, old1[|old0|..]);
    ArrayCompacted(w, items, out, path);
  }

  lemma ArrayCompacted(w: Wording, items: seq<Json>, out: seq<Json>, path: seq<string>)
    requires |out| == |items| && forall j :: 0 <= j < |items| ==> out[j] == Compact(w, items[j], path + [IndexPart(j)])
    ensures Compact(w, Arr(items), path) == Arr(out)
  {
    hide IndexPart, CompactChild;
    assert Compact(w, Arr(items), path).items == out;
  }

  /** One entry of an object. */
  method CompactEntry(w: Wording, child: Json, key: string, old0: seq<Segment>, path: seq<string>)
    returns (next: Json, old1: seq<Segment>, changed: bool)
    ensures next == CompactChild(w, child, key, path)
    ensures old0 <= old1 && YieldsChild(w, child, key, path, old1[|old0|..])
    ensures changed <==> |old1| > |old0|
    decreases child, 1
  {
    hide CompactableKey, Marked, Yields, Taken;
    next, old1, changed := child, old0, false;
    var nextPath := path + [key];
    if Skip(nextPath) {
      return;
    }
    if child.Str? && CompactableKey(key) {
      if Long(child.s) {
        old1 := old0 + [Segment(Join(nextPath, "."), w.role(nextPath), child.s)];
        next := Str(Replacement(w, Join(nextPath, "."), child.s));
        changed := true;
      }
      return;
    }
    next, old1, changed := CompactLargeStrings(w, child, old0, nextPath);
  }

  // ---------- what happens at every place of the tree ----------

  datatype Step = Key(name: string) | Index(i: nat)

  /** The value at the end of a way through the tree. */
  function At(value: Json, steps: seq<Step>): Option<Json>
    decreases |steps|
  {
    if steps == [] then Some(value) else
    match steps[0]
    case Key(k) => if value.Obj? && k in value.fields then At(value.fields[k], steps[1..]) else None
    case Index(i) => if value.Arr? && i < |value.items| then At(value.items[i], steps[1..]) else None
  }

  /** A way starts with a key of an object or an index of an array, and goes on from there. */
  lemma AtGoesOn(fields: map<string, Json>, items: seq<Json>, rest: seq<Step>)
    ensures forall k :: At(Obj(fields), [Key(k)] + rest) == if k in fields then At(fields[k], rest) else None
    ensures forall i: nat :: At(Arr(items), [Index(i)] + rest) == if i < |items| then At(items[i], rest) else None
    ensures forall value :: At(value, []) == Some(value)
  {
    forall k ensures At(Obj(fields), [Key(k)] + rest) == if k in fields then At(fields[k], rest) else None {
      assert ([Key(k)] + rest)[1..] == rest;
    }
    forall i: nat ensures At(Arr(items), [Index(i)] + rest) == if i < |items| then At(items[i], rest) else None {
      assert ([Index(i)] + rest)[1..] == rest;
    }
  }

  function Part(step: Step): string {
    match step case Key(k) => k case Index(i) => IndexPart(i)
  }

  function Parts(steps: seq<Step>): seq<string> {
    if steps == [] then [] else [Part(steps[0])] + Parts(steps[1..])
  }

  /** Is a string at the end of `steps` open to compaction? */
  predicate Eligible(path: seq<string>, steps: seq<Step>) {
    steps != [] && steps[|steps| - 1].Key? && CompactableKey(steps[|steps| - 1].name) && !Skip(path + Parts(steps))
  }

  /** How the value after compaction relates to the value before, at the end of `steps`. */
  predicate Corresponds(w: Wording, path: seq<string>, steps: seq<Step>, before: Option<Json>, after: Option<Json>) {
    match before
    case None => after == None
    case Some(Str(s)) => after == Some(Str(if Eligible(path, steps) then CompactText(w, s, path + Parts(steps)) else s))
    case Some(Obj(fields)) => after.Some? && after.value.Obj? && after.value.fields.Keys == fields.Keys
    case Some(Arr(items)) => after.Some? && after.value.Arr? && |after.value.items| == |items|
    case Some(_) => after == before
  }

  lemma SkipExtends(path: seq<string>, more: seq<string>)
    requires Skip(path)
    ensures Skip(path + more)
  {
    var i :| 0 <= i < |path| && Protected(path[i]);
    assert (path + more)[i] == path[i];
  }

  /** Below a protected part nothing changes. */
  lemma {:induction false} SkippedUnchanged(w: Wording, value: Json, path: seq<string>)
    requires Skip(path)
    ensures Compact(w, value, path) == value && Taken(w, value, path) == multiset{}
    decreases value
  {
    match value
    case Obj(fields) =>
      forall k | k in fields ensures Skip(path + [k]) {
        SkipExtends(path, [k]);
      }
      SumMapEmpty(map k | k in fields :: TakenChild(w, fields[k], k, path));
    case Arr(items) =>
      forall i | 0 <= i < |items|
        ensures Compact(w, items[i], path + [IndexPart(i)]) == items[i]
        ensures Taken(w, items[i], path + [IndexPart(i)]) == multiset{} {
        SkipExtends(path, [IndexPart(i)]);
        SkippedUnchanged(w, items[i], path + [IndexPart(i)]);
      }
      SumSeqEmpty(seq(|items|, i requires 0 <= i < |items| => Taken(w, items[i], path + [IndexPart(i)])));
    case _ =>
  }

  lemma {:induction false} SumMapEmpty(m: map<string, multiset<Segment>>)
    ensures SumMap(m) == multiset{} <==> forall k :: k in m ==> m[k] == multiset{}
    decreases |m|
  {
    if m != map[] {
      var j :| j in m && SumMap(m) == m[j] + SumMap(m - {j});
      SumMapEmpty(m - {j});
      assert forall k :: k in m ==> k == j || (k in m - {j} && (m - {j})[k] == m[k]);
    }
  }

  lemma {:induction false} SumSeqEmpty(ms: seq<multiset<Segment>>)
    ensures SumSeq(ms) == multiset{} <==> forall i :: 0 <= i < |ms| ==> ms[i] == multiset{}
  {
    if ms != [] {
      SumSeqEmpty(ms[..|ms| - 1]);
      assert forall i :: 0 <= i < |ms| ==> i == |ms| - 1 || ms[i] == ms[..|ms| - 1][i];
    }
  }

  lemma SplitParts(path: seq<string>, steps: seq<Step>)
    requires steps != []
    ensures path + Parts(steps) == (path + [Part(steps[0])]) + Parts(steps[1..])
  {
  }

  lemma EligibleTail(path: seq<string>, steps: seq<Step>)
    requires |steps| > 1
    ensures Eligible(path, steps) == Eligible(path + [Part(steps[0])], steps[1..])
  {
    hide CompactableKey, Skip, Parts;
    SplitParts(path, steps);
    assert steps[1..][|steps| - 2] == steps[|steps| - 1];
  }

  /** The relation holds at a place if it holds from one step further down. */
  lemma CorrespondsTail(w: Wording, path: seq<string>, steps: seq<Step>, before: Option<Json>, after: Option<Json>)
    requires steps != [] && Corresponds(w, path + [Part(steps[0])], steps[1..], before, after)
    requires |steps| == 1 && steps[0].Key? ==> before.Some? && !before.value.Str?
    ensures Corresponds(w, path, steps, before, after)
  {
    hide CompactText, Parts, Eligible, Part;
    SplitParts(path, steps);
    if |steps| > 1 {
      EligibleTail(path, steps);
    } else {
      LastIsIndex(path, steps);
    }
  }

  lemma LastIsIndex(path: seq<string>, steps: seq<Step>)
    requires |steps| == 1
    ensures steps[0].Index? ==> !Eligible(path, steps)
    ensures !Eligible(path + [Part(steps[0])], steps[1..])
  {
  }

  /** Below a protected part every place is as it was. */
  lemma ProtectedPlace(w: Wording, path: seq<string>, steps: seq<Step>, value: Option<Json>)
    requires steps != [] && Skip(path + [Part(steps[0])])
    ensures Corresponds(w, path, steps, value, value)
  {
    hide CompactText, Skip, Part;
    SplitParts(path, steps);
    SkipExtends(path + [Part(steps[0])], Parts(steps[1..]));
  }

  /** A string under a key, itself or anything looked for below it. */
  lemma StringPlace(w: Wording, text: string, k: string, path: seq<string>, rest: seq<Step>)
    requires !Skip(path + [k])
    ensures Corresponds(w, path, [Key(k)] + rest, At(Str(text), rest), At(CompactChild(w, Str(text), k, path), rest))
  {
    hide CompactText, Skip, CompactableKey;
    var steps := [Key(k)] + rest;
    if rest == [] {
      assert steps == [Key(k)] && Parts(steps) == [k] by { assert steps[1..] == []; }
    }
  }

  /**
   * Place by place: every place exists after compaction iff it existed before, objects keep their
   * keys and arrays their length, numbers, booleans and nulls are untouched, and a string changes
   * exactly when it is long, unmarked, under a text-carrying key and not below a protected part.
   */
  lemma {:induction false} CompactionPlaceByPlace(w: Wording, value: Json, path: seq<string>, steps: seq<Step>)
    ensures Corresponds(w, path, steps, At(value, steps), At(Compact(w, value, path), steps))
    decreases |steps|
  {
    hide CompactableKey, CompactText, Skip, Eligible;
    if steps == [] {
      assert !Eligible(path, steps) by { NoStepNotEligible(path); }
    } else {
      var rest := steps[1..];
      match steps[0]
      case Key(k) =>
        if value.Obj? && k in value.fields {
          hide Corresponds;
          var child := value.fields[k];
          if Skip(path + [k]) {
            ProtectedPlace(w, path, steps, At(child, rest));
          } else if child.Str? {
            assert steps == [Key(k)] + rest;
            StringPlace(w, child.s, k, path, rest);
          } else {
            CompactionPlaceByPlace(w, child, path + [k], rest);
            CorrespondsTail(w, path, steps, At(child, rest), At(Compact(w, child, path + [k]), rest));
          }
        }
      case Index(i) =>
        if value.Arr? && i < |value.items| {
          hide Corresponds;
          var next := path + [IndexPart(i)];
          CompactionPlaceByPlace(w, value.items[i], next, rest);
          CorrespondsTail(w, path, steps, At(value.items[i], rest), At(Compact(w, value.items[i], next), rest));
        }
    }
  }

  lemma NoStepNotEligible(path: seq<string>)
    ensures !Eligible(path, [])
  {
  }

  // ---------- idempotence ----------

  lemma ReplacementMarked(w: Wording, origin: string, text: string)
    ensures Marked(Replacement(w, origin, text))
  {
    var r := Replacement(w, origin, text);
    assert r[0..] == r && PLACEHOLDER <= r;
    assert Contains(r, PLACEHOLDER);
  }

  lemma CompactKeepsKind(w: Wording, value: Json, path: seq<string>)
    ensures Compact(w, value, path).Str? <==> value.Str?
  {
  }

  lemma ChildIdempotent(w: Wording, child: Json, key: string, path: seq<string>)
    requires Compact(w, Compact(w, child, path + [key]), path + [key]) == Compact(w, child, path + [key])
    ensures CompactChild(w, CompactChild(w, child, key, path), key, path) == CompactChild(w, child, key, path)
  {
    hide CompactableKey, Skip, Marked, Replacement, Compact;
    var next := path + [key];
    CompactKeepsKind(w, child, next);
    if child.Str? {
      ReplacementMarked(w, Join(next, "."), child.s);
      assert Compact(w, child, next) == child by { CompactPlain(w, child, next); }
    }
  }

  lemma CompactPlain(w: Wording, child: Json, path: seq<string>)
    requires child.Str?
    ensures Compact(w, child, path) == child
  {
  }

  /** Compacting twice is compacting once. */
  lemma {:induction false} CompactIdempotent(w: Wording, value: Json, path: seq<string>)
    ensures Compact(w, Compact(w, value, path), path) == Compact(w, value, path)
    decreases value
  {
    hide CompactableKey, Skip, Marked, Replacement;
    match value
    case Obj(fields) =>
      var once := map k | k in fields :: CompactChild(w, fields[k], k, path);
      forall k | k in fields ensures CompactChild(w, once[k], k, path) == once[k] {
        CompactIdempotent(w, fields[k], path + [k]);
        ChildIdempotent(w, fields[k], k, path);
      }
      assert (map k | k in once :: CompactChild(w, once[k], k, path)) == once;
    case Arr(items) =>
      forall i | 0 <= i < |items|
        ensures Compact(w, Compact(w, items[i], path + [IndexPart(i)]), path + [IndexPart(i)])
             == Compact(w, items[i], path + [IndexPart(i)]) {
        CompactIdempotent(w, items[i], path + [IndexPart(i)]);
      }
      var once := Compact(w, value, path).items;
      assert Compact(w, Arr(once), path).items == once;
    case _ =>
  }

  lemma ChildChangedIff(w: Wording, child: Json, key: string, path: seq<string>)
    requires Compact(w, child, path + [key]) == child <==> Taken(w, child, path + [key]) == multiset{}
    ensures CompactChild(w, child, key, path) == child <==> TakenChild(w, child, key, path) == multiset{}
  {
    hide CompactableKey, Skip, Marked, Replacement, Compact, Taken;
    if child.Str? { ReplacementMarked(w, Join(path + [key], "."), child.s); }
  }

  /** The payload changes exactly when some text was taken out of it. */
  lemma {:induction false} ChangedIffTaken(w: Wording, value: Json, path: seq<string>)
    ensures Compact(w, value, path) == value <==> Taken(w, value, path) == multiset{}
    decreases value
  {
    hide CompactChild, TakenChild, SumMap, SumSeq, IndexPart;
    match value
    case Obj(fields) =>
      forall k | k in fields
        ensures CompactChild(w, fields[k], k, path) == fields[k] <==> TakenChild(w, fields[k], k, path) == multiset{} {
        ChangedIffTaken(w, fields[k], path + [k]);
        ChildChangedIff(w, fields[k], k, path);
      }
      SumMapEmpty(map k | k in fields :: TakenChild(w, fields[k], k, path));
      var once := map k | k in fields :: CompactChild(w, fields[k], k, path);
      assert once == fields <==> forall k :: k in fields ==> once[k] == fields[k];
    case Arr(items) =>
      var each := seq(|items|, i requires 0 <= i < |items| => Taken(w, items[i], path + [IndexPart(i)]));
      forall i | 0 <= i < |items|
        ensures Compact(w, items[i], path + [IndexPart(i)]) == items[i] <==> each[i] == multiset{} {
        ChangedIffTaken(w, items[i], path + [IndexPart(i)]);
      }
      SumSeqEmpty(each);
      var once := Compact(w, value, path).items;
      assert once == items <==> forall i :: 0 <= i < |items| ==> once[i] == items[i];
    case _ =>
  }
}
