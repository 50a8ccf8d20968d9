/**
 * The order of the texts a compaction takes out. Go visits the keys of a map in no fixed order, and
 * the order of the texts decides which line counts as the latest: when is it the same for every walk?
 */
module TakenOrder {
  import opened Text
  import opened Json
  import opened TreeCompaction

  /** No object on the way has two keys that yield texts. */
  ghost predicate SingleFile(w: Wording, value: Json, path: seq<string>)
    decreases value, 0
  {
    match value
    case Obj(fields) =>
      && (forall k :: k in fields ==> SingleFileChild(w, fields[k], k, path))
      && forall j, k :: j in fields && k in fields && j != k ==>
           TakenChild(w, fields[j], j, path) == multiset{} || TakenChild(w, fields[k], k, path) == multiset{}
    case Arr(items) => forall i :: 0 <= i < |items| ==> SingleFile(w, items[i], path + [IndexPart(i)])
    case _ => true
  }

  ghost predicate SingleFileChild(w: Wording, child: Json, key: string, path: seq<string>)
    decreases child, 1
  {
    Skip(path + [key]) || (child.Str? && CompactableKey(key)) || SingleFile(w, child, path + [key])
  }

  // ---------- one order ----------

  lemma {:induction false} YieldsUnique(w: Wording, value: Json, path: seq<string>, a: seq<Segment>, b: seq<Segment>)
    requires SingleFile(w, value, path) && Yields(w, value, path, a) && Yields(w, value, path, b)
    ensures a == b
    decreases value, 2
  {
    hide YieldsKeys, YieldsItems, TakenChild, SingleFileChild;
    match value
    case Obj(fields) => KeysUnique(w, value, path, a, b);
    case Arr(items) => ItemsUnique(w, value, 0, path, a, b);
    case _ =>
  }

  lemma {:induction false} ItemsUnique(w: Wording, value: Json, i: nat, path: seq<string>, a: seq<Segment>,
                                       b: seq<Segment>)
    requires value.Arr? && i <= |value.items| && SingleFile(w, value, path)
    requires YieldsItems(w, value, i, path, a) && YieldsItems(w, value, i, path, b)
    ensures a == b
    decreases value, 1, |value.items| - i
  {
    hide Yields, IndexPart;
    if i < |value.items| {
      var next := path + [IndexPart(i)];
      var a1, a2 :| a == a1 + a2 && Yields(w, value.items[i], next, a1) && YieldsItems(w, value, i + 1, path, a2);
      var b1, b2 :| b == b1 + b2 && Yields(w, value.items[i], next, b1) && YieldsItems(w, value, i + 1, path, b2);
      YieldsUnique(w, value.items[i], next, a1, b1);
      ItemsUnique(w, value, i + 1, path, a2, b2);
    }
  }

  lemma {:induction false} ChildUnique(w: Wording, child: Json, key: string, path: seq<string>, a: seq<Segment>,
                                       b: seq<Segment>)
    requires SingleFileChild(w, child, key, path) && YieldsChild(w, child, key, path, a)
    requires YieldsChild(w, child, key, path, b)
    ensures a == b
    decreases child, 3
  {
    hide Skip, CompactableKey, Long, Yields, SingleFile;
    if !Skip(path + [key]) && !(child.Str? && CompactableKey(key)) {
      YieldsUnique(w, child, path + [key], a, b);
    }
  }

  lemma EmptyTaken(w: Wording, child: Json, key: string, path: seq<string>, out: seq<Segment>)
    requires YieldsChild(w, child, key, path, out) && TakenChild(w, child, key, path) == multiset{}
    ensures out == []
  {
    hide YieldsChild, TakenChild;
    YieldsChildTaken(w, child, key, path, out);
    assert |multiset(out)| == |out|;
  }

  lemma {:induction false} YieldsNothing(w: Wording, value: Json, todo: set<string>, path: seq<string>,
                                         out: seq<Segment>)
    requires value.Obj? && todo <= value.fields.Keys && YieldsKeys(w, value, todo, path, out)
    requires forall k :: k in todo ==> TakenChild(w, value.fields[k], k, path) == multiset{}
    ensures out == []
    decreases |todo|
  {
    hide YieldsChild, TakenChild;
    if todo != {} {
      var k, first, rest :| k in todo && out == first + rest && YieldsChild(w, value.fields[k], k, path, first)
                            && YieldsKeys(w, value, todo - {k}, path, rest);
      EmptyTaken(w, value.fields[k], k, path, first);
      YieldsNothing(w, value, todo - {k}, path, rest);
    }
  }

  /** If no other key yields anything, the object yields what that one key yields. */
  lemma {:induction false} YieldsOfOne(w: Wording, value: Json, todo: set<string>, path: seq<string>, key: string,
                                       out: seq<Segment>)
    requires value.Obj? && todo <= value.fields.Keys && YieldsKeys(w, value, todo, path, out) && key in todo
    requires forall k :: k in todo && k != key ==> TakenChild(w, value.fields[k], k, path) == multiset{}
    ensures YieldsChild(w, value.fields[key], key, path, out)
    decreases |todo|
  {
    hide YieldsChild, TakenChild;
    var k, first, rest :| k in todo && out == first + rest && YieldsChild(w, value.fields[k], k, path, first)
                          && YieldsKeys(w, value, todo - {k}, path, rest);
    if k == key {
      YieldsNothing(w, value, todo - {k}, path, rest);
      assert out == first;
    } else {
      EmptyTaken(w, value.fields[k], k, path, first);
      assert out == rest;
      YieldsOfOne(w, value, todo - {k}, path, key, rest);
    }
  }

  lemma {:induction false} KeysUnique(w: Wording, value: Json, path: seq<string>, a: seq<Segment>, b: seq<Segment>)
    requires value.Obj? && SingleFile(w, value, path)
    requires YieldsKeys(w, value, value.fields.Keys, path, a) && YieldsKeys(w, value, value.fields.Keys, path, b)
    ensures a == b
    decreases value, 1
  {
    hide YieldsChild, TakenChild, SingleFileChild, YieldsKeys;
    var fields := value.fields;
    if key :| key in fields && TakenChild(w, fields[key], key, path) != multiset{} {
      YieldsOfOne(w, value, fields.Keys, path, key, a);
      YieldsOfOne(w, value, fields.Keys, path, key, b);
      ChildUnique(w, fields[key], key, path, a, b);
    } else {
      YieldsNothing(w, value, fields.Keys, path, a);
      YieldsNothing(w, value, fields.Keys, path, b);
    }
  }

  // ---------- two orders ----------

  lemma {:induction false} SomeYield(w: Wording, value: Json, path: seq<string>) returns (out: seq<Segment>)
    ensures Yields(w, value, path, out)
    decreases value, 2
  {
    hide YieldsKeys, YieldsItems;
    match value
    case Obj(fields) => out := SomeKeysYield(w, value, fields.Keys, path);
    case Arr(items) => out := SomeItemsYield(w, value, 0, path);
    case _ => out := [];
  }

  lemma {:induction false} SomeKeysYield(w: Wording, value: Json, todo: set<string>, path: seq<string>)
    returns (out: seq<Segment>)
    requires value.Obj? && todo <= value.fields.Keys
    ensures YieldsKeys(w, value, todo, path, out)
    decreases value, 1, |todo|
  {
    hide YieldsChild;
    out := [];
    if todo != {} {
      var k :| k in todo;
      var first := SomeChildYield(w, value.fields[k], k, path);
      var rest := SomeKeysYield(w, value, todo - {k}, path);
      out := first + rest;
    }
  }

  lemma {:induction false} SomeItemsYield(w: Wording, value: Json, i: nat, path: seq<string>)
    returns (out: seq<Segment>)
    requires value.Arr? && i <= |value.items|
    ensures YieldsItems(w, value, i, path, out)
    decreases value, 1, |value.items| - i
  {
    hide Yields, IndexPart;
    out := [];
    if i < |value.items| {
      var first := SomeYield(w, value.items[i], path + [IndexPart(i)]);
      var rest := SomeItemsYield(w, value, i + 1, path);
      out := first + rest;
    }
  }

  lemma {:induction false} SomeChildYield(w: Wording, child: Json, key: string, path: seq<string>)
    returns (out: seq<Segment>)
    ensures YieldsChild(w, child, key, path, out)
    decreases child, 3
  {
    hide Skip, CompactableKey, Long, Yields;
    out := [];
    if !Skip(path + [key]) {
      if child.Str? && CompactableKey(key) {
        if Long(child.s) { out := [Segment(Join(path + [key], "."), w.role(path + [key]), child.s)]; }
      } else {
        out := SomeYield(w, child, path + [key]);
      }
    }
  }

  /** Different keys of an object never yield the same text under the same origin. */
  ghost predicate Separate(w: Wording, value: Json, path: seq<string>)
    decreases value, 0
  {
    match value
    case Obj(fields) =>
      && (forall k :: k in fields && !fields[k].Str? ==> Separate(w, fields[k], path + [k]))
      && forall j, k :: j in fields && k in fields && j != k ==>
           TakenChild(w, fields[j], j, path) !! TakenChild(w, fields[k], k, path)
    case Arr(items) => forall i :: 0 <= i < |items| ==> Separate(w, items[i], path + [IndexPart(i)])
    case _ => true
  }

  lemma CancelRight<T>(a: seq<T>, b: seq<T>, rest: seq<T>)
    ensures a + rest == b + rest ==> a == b
  {
    assert a == (a + rest)[..|a|] && b == (b + rest)[..|b|];
  }

  lemma CancelLeft<T>(pre: seq<T>, a: seq<T>, b: seq<T>)
    ensures pre + a == pre + b ==> a == b
  {
    assert a == (pre + a)[|pre|..] && b == (pre + b)[|pre|..];
  }

  lemma {:induction false} TwoYields(w: Wording, value: Json, path: seq<string>)
    returns (a: seq<Segment>, b: seq<Segment>)
    requires !SingleFile(w, value, path) && Separate(w, value, path)
    ensures Yields(w, value, path, a) && Yields(w, value, path, b) && a != b
    decreases value
  {
    hide YieldsKeys, YieldsItems, YieldsChild, TakenChild, SingleFileChild, IndexPart;
    a, b := [], [];
    match value
    case Obj(fields) =>
      if k :| k in fields && !SingleFileChild(w, fields[k], k, path) {
        assert !fields[k].Str? && !SingleFile(w, fields[k], path + [k]) && !Skip(path + [k]) by {
          DeeperChild(w, fields[k], k, path);
        }
        var x, y := TwoYields(w, fields[k], path + [k]);
        a, b := DifferUnderKey(w, value, path, k, x, y);
      } else {
        var j, k :| j in fields && k in fields && j != k && TakenChild(w, fields[j], j, path) != multiset{}
                    && TakenChild(w, fields[k], k, path) != multiset{};
        a, b := TwoKeysTwoOrders(w, value, path, j, k);
      }
    case Arr(items) =>
      var i :| 0 <= i < |items| && !SingleFile(w, items[i], path + [IndexPart(i)]);
      var x, y := TwoYields(w, items[i], path + [IndexPart(i)]);
      a, b := DifferAtIndex(w, value, path, i, x, y);
  }

  lemma DeeperChild(w: Wording, child: Json, key: string, path: seq<string>)
    requires !SingleFileChild(w, child, key, path)
    ensures !child.Str? && !SingleFile(w, child, path + [key]) && !Skip(path + [key])
  {
  }

  lemma KeyFirst(w: Wording, value: Json, todo: set<string>, path: seq<string>, k: string, first: seq<Segment>,
                 rest: seq<Segment>)
    requires value.Obj? && todo <= value.fields.Keys && k in todo && YieldsChild(w, value.fields[k], k, path, first)
    requires YieldsKeys(w, value, todo - {k}, path, rest)
    ensures YieldsKeys(w, value, todo, path, first + rest)
  {
    hide YieldsChild;
  }

  lemma DifferUnderKey(w: Wording, value: Json, path: seq<string>, k: string, x: seq<Segment>, y: seq<Segment>)
    returns (a: seq<Segment>, b: seq<Segment>)
    requires value.Obj? && k in value.fields && !value.fields[k].Str? && !Skip(path + [k]) && x != y
    requires Yields(w, value.fields[k], path + [k], x) && Yields(w, value.fields[k], path + [k], y)
    ensures Yields(w, value, path, a) && Yields(w, value, path, b) && a != b
  {
    hide YieldsKeys, Skip;
    var rest := SomeKeysYield(w, value, value.fields.Keys - {k}, path);
    KeyFirst(w, value, value.fields.Keys, path, k, x, rest);
    KeyFirst(w, value, value.fields.Keys, path, k, y, rest);
    CancelRight(x, y, rest);
    a, b := x + rest, y + rest;
  }

  lemma TwoKeysTwoOrders(w: Wording, value: Json, path: seq<string>, j: string, k: string)
    returns (a: seq<Segment>, b: seq<Segment>)
    requires value.Obj? && Separate(w, value, path) && j in value.fields && k in value.fields && j != k
    requires TakenChild(w, value.fields[j], j, path) != multiset{}
    requires TakenChild(w, value.fields[k], k, path) != multiset{}
    ensures Yields(w, value, path, a) && Yields(w, value, path, b) && a != b
  {
    hide YieldsKeys, YieldsChild, TakenChild;
    var fields := value.fields;
    var keys := fields.Keys;
    var x := SomeChildYield(w, fields[j], j, path);
    var y := SomeChildYield(w, fields[k], k, path);
    var rest := SomeKeysYield(w, value, keys - {j} - {k}, path);
    assert keys - {j} - {k} == keys - {k} - {j};
    KeyFirst(w, value, keys - {j}, path, k, y, rest);
    KeyFirst(w, value, keys - {k}, path, j, x, rest);
    KeyFirst(w, value, keys, path, j, x, y + rest);
    KeyFirst(w, value, keys, path, k, y, x + rest);
    a, b := x + (y + rest), y + (x + rest);
    YieldsChildTaken(w, fields[j], j, path, x);
    YieldsChildTaken(w, fields[k], k, path, y);
    assert x[0] in multiset(x) && y[0] in multiset(y);
    assert a[0] == x[0] && b[0] == y[0];
  }

  lemma {:induction false} BeforeIndex(w: Wording, value: Json, path: seq<string>, i: nat) returns (pre: seq<Segment>)
    requires value.Arr? && i <= |value.items|
    ensures ContinuesAt(w, value, i, path, pre)
    decreases i
  {
    hide ContinuesAt, Yields, IndexPart;
    if i == 0 {
      NoItemVisited(w, value, path);
      pre := [];
    } else {
      var before := BeforeIndex(w, value, path, i - 1);
      var first := SomeYield(w, value.items[i - 1], path + [IndexPart(i - 1)]);
      ContinuesAfter(w, value, i - 1, path, before, first);
      pre := before + first;
    }
  }

  lemma DifferAtIndex(w: Wording, value: Json, path: seq<string>, i: nat, x: seq<Segment>, y: seq<Segment>)
    returns (a: seq<Segment>, b: seq<Segment>)
    requires value.Arr? && i < |value.items| && x != y
    requires Yields(w, value.items[i], path + [IndexPart(i)], x)
    requires Yields(w, value.items[i], path + [IndexPart(i)], y)
    ensures Yields(w, value, path, a) && Yields(w, value, path, b) && a != b
  {
    hide Yields, IndexPart;
    var pre := BeforeIndex(w, value, path, i);
    var post := SomeItemsYield(w, value, i + 1, path);
    assert YieldsItems(w, value, i, path, x + post) && YieldsItems(w, value, i, path, y + post);
    CancelRight(x, y, post);
    CancelLeft(pre, x + post, y + post);
    a, b := pre + (x + post), pre + (y + post);
    ItemsAreYields(w, value, path, a);
    ItemsAreYields(w, value, path, b);
  }

  lemma ItemsAreYields(w: Wording, value: Json, path: seq<string>, out: seq<Segment>)
    requires value.Arr? && YieldsItems(w, value, 0, path, out)
    ensures Yields(w, value, path, out)
  {
  }

  /** Every walk collects the same texts in the same order. */
  ghost predicate OneOrder(w: Wording, value: Json, path: seq<string>) {
    forall a, b :: Yields(w, value, path, a) && Yields(w, value, path, b) ==> a == b
  }

  /**
   * The order is fixed if no object has two keys that yield texts, and, texts being told apart by
   * their origin, only then.
   */
  lemma OneOrderIff(w: Wording, value: Json, path: seq<string>)
    ensures SingleFile(w, value, path) ==> OneOrder(w, value, path)
    ensures Separate(w, value, path) ==> (OneOrder(w, value, path) <==> SingleFile(w, value, path))
  {
    hide Yields, SingleFile, Separate;
    if SingleFile(w, value, path) {
      forall a, b | Yields(w, value, path, a) && Yields(w, value, path, b) ensures a == b {
        YieldsUnique(w, value, path, a, b);
      }
    } else if Separate(w, value, path) {
      var a, b := TwoYields(w, value, path);
    }
  }

  /** Two long texts in one message may be collected in either order. */
  lemma TwoTextsTwoOrders(w: Wording, path: seq<string>, a: string, b: string)
    requires !Skip(path) && Long(a) && Long(b)
    ensures var message := Obj(map["content" := Str(a), "output" := Str(b)]);
            exists x: Segment, y: Segment :: x.text == a && y.text == b
              && Yields(w, message, path, [x, y]) && Yields(w, message, path, [y, x])
  {
    hide YieldsKeys, YieldsChild, Long;
    var message := Obj(map["content" := Str(a), "output" := Str(b)]);
    var x, y := TextSegment(w, path, "content", a), TextSegment(w, path, "output", b);
    assert "content" != "output" by { assert |"content"| == 7 && |"output"| == 6; }
    LongChildYields(w, path, "content", a);
    LongChildYields(w, path, "output", b);
    var keys := message.fields.Keys;
    assert keys - {"content"} == {"output"} && keys - {"output"} == {"content"};
    assert YieldsKeys(w, message, {"content"} - {"content"}, path, []) by { NoKeyLeft(w, message, path); }
    assert YieldsKeys(w, message, {"output"} - {"output"}, path, []) by { NoKeyLeft(w, message, path); }
    assert [x] + [] == [x] && [y] + [] == [y] && [x] + [y] == [x, y] && [y] + [x] == [y, x];
    KeyFirst(w, message, {"content"}, path, "content", [x], []);
    KeyFirst(w, message, {"output"}, path, "output", [y], []);
    KeyFirst(w, message, keys, path, "content", [x], [y]);
    KeyFirst(w, message, keys, path, "output", [y], [x]);
  }

  function TextSegment(w: Wording, path: seq<string>, key: string, text: string): Segment {
    Segment(Join(path + [key], "."), w.role(path + [key]), text)
  }

  lemma NoKeyLeft(w: Wording, value: Json, path: seq<string>)
    requires value.Obj?
    ensures YieldsKeys(w, value, {}, path, []) && {"content"} - {"content"} == {} == {"output"} - {"output"}
  {
  }

  lemma LongChildYields(w: Wording, path: seq<string>, key: string, text: string)
    requires !Skip(path) && Long(text) && (key == "content" || key == "output")
    ensures YieldsChild(w, Str(text), key, path, [TextSegment(w, path, key, text)])
  {
    hide Trim, Long;
    TrimFixed(key);
    forall i | 0 <= i < |path + [key]| ensures !Protected((path + [key])[i]) {
      if i < |path| { assert (path + [key])[i] == path[i]; }
    }
  }
}
