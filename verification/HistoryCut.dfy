/**
 * Cutting old history out of a conversation: where the cut falls, and when it keeps every tool
 * result together with the call it answers.
 */
module HistoryCut {
  import opened Wrappers

  /**
   * What the cut has to know of one conversation item: whether it must not come first after a cut,
   * which call ids it makes, and which call id it answers.
   */
  datatype Item = Item(needs: bool, calls: set<string>, answers: Option<string>)

  /** Only items that need their predecessor answer a call, and those make no calls themselves. */
  predicate Conversation(items: seq<Item>) {
    forall i :: 0 <= i < |items| ==>
      (items[i].answers.Some? ==> items[i].needs) && (items[i].needs ==> items[i].calls == {})
  }

  /** The end of the run of set flags that starts at `k`. */
  function RunEnd(flags: seq<bool>, k: nat): (end: nat)
    requires k <= |flags|
    ensures k <= end <= |flags| && forall i :: k <= i < end ==> flags[i]
    ensures end < |flags| ==> !flags[end]
    decreases |flags| - k
  {
    if k < |flags| && flags[k] then RunEnd(flags, k + 1) else k
  }

  /** The first index at or below `k` that is `lead` or may come first after a cut. */
  function BackUp(items: seq<Item>, lead: nat, k: nat): (cut: nat)
    requires lead <= k <= |items| && (k == |items| ==> k == lead)
    ensures lead <= cut <= k
    ensures cut > lead ==> !items[cut].needs
    ensures forall i :: cut < i <= k && i < |items| ==> items[i].needs
  {
    if k > lead && items[k].needs then BackUp(items, lead, k - 1) else k
  }

  /** Where the kept suffix starts: `keep` items from the end, then back to an item that may come first. */
  function CutAt(items: seq<Item>, lead: nat, keep: nat): (cut: nat)
    requires lead <= |items| && keep >= 2
    ensures lead <= cut <= |items|
  {
    BackUp(items, lead, if |items| - keep < lead then lead else |items| - keep)
  }

  /** A cut that drops anything keeps at least `keep` items and starts at an item that may come first. */
  lemma CutKeepsEnough(items: seq<Item>, lead: nat, keep: nat)
    requires lead <= |items| && keep >= 2 && CutAt(items, lead, keep) > lead
    ensures |items| - CutAt(items, lead, keep) >= keep
    ensures !items[CutAt(items, lead, keep)].needs
  {
  }

  /** Every answer has its call somewhere before it. */
  predicate Paired(items: seq<Item>) {
    forall i :: 0 <= i < |items| && items[i].answers.Some? ==>
      exists j :: 0 <= j < i && items[i].answers.value in items[j].calls
  }

  /** The last item before `i` that may come first, or -1. */
  function BaseOf(items: seq<Item>, i: nat): (b: int)
    requires i <= |items|
    ensures -1 <= b < i
    ensures b >= 0 ==> !items[b].needs
    ensures forall k :: b < k < i ==> items[k].needs
  {
    if i == 0 then -1 else if !items[i - 1].needs then i - 1 else BaseOf(items, i - 1)
  }

  /** Each answer whose base lies behind the leading items follows its call through answers only. */
  predicate SerialBehind(items: seq<Item>, lead: nat) {
    forall i :: 0 <= i < |items| && items[i].answers.Some? && BaseOf(items, i) > lead ==>
      items[i].answers.value in items[BaseOf(items, i)].calls
  }

  ghost predicate EveryCutSafe(items: seq<Item>, lead: nat)
    requires lead <= |items|
  {
    forall keep: nat :: keep >= 2 && CutAt(items, lead, keep) > lead ==> Paired(items[CutAt(items, lead, keep)..])
  }

  /** One cut of a serial history leaves every answer its call. */
  lemma SerialCutSafe(items: seq<Item>, lead: nat, cut: nat)
    requires Conversation(items) && SerialBehind(items, lead)
    requires lead < cut < |items| && !items[cut].needs
    ensures Paired(items[cut..])
  {
    var rest := items[cut..];
    forall i | 0 <= i < |rest| && rest[i].answers.Some?
      ensures exists j :: 0 <= j < i && rest[i].answers.value in rest[j].calls {
      var b := BaseOf(items, cut + i);
      assert rest[i] == items[cut + i];
      assert !items[cut].needs && b >= cut;
      assert rest[b - cut] == items[b];
    }
  }

  /** A cut right before the base of an answer shows whether the base makes its call. */
  lemma CutAtBase(items: seq<Item>, lead: nat, i: nat)
    requires Conversation(items) && lead < |items| && i < |items| && items[i].answers.Some?
    requires BaseOf(items, i) > lead && EveryCutSafe(items, lead)
    ensures items[i].answers.value in items[BaseOf(items, i)].calls
  {
    var b := BaseOf(items, i);
    var keep := |items| - b;
    assert keep >= 2;
    assert CutAt(items, lead, keep) == b;
    var rest := items[b..];
    assert Paired(rest);
    assert rest[i - b] == items[i];
    forall k | 0 < k < i - b ensures rest[k].calls == {} {
      assert rest[k] == items[b + k] && items[b + k].needs;
    }
    var j :| 0 <= j < i - b && rest[i - b].answers.value in rest[j].calls;
    assert rest[0] == items[b];
  }

  /**
   * Exactly when the cut is safe: no choice of how much to keep ever parts an answer from its call
   * if and only if each answer behind the leading items follows its call through answers only.
   */
  lemma EveryCutSafeIffSerial(items: seq<Item>, lead: nat)
    requires Conversation(items) && lead < |items|
    ensures EveryCutSafe(items, lead) <==> SerialBehind(items, lead)
  {
    if EveryCutSafe(items, lead) {
      forall i | 0 <= i < |items| && items[i].answers.Some? && BaseOf(items, i) > lead
        ensures items[i].answers.value in items[BaseOf(items, i)].calls {
        CutAtBase(items, lead, i);
      }
    }
    if SerialBehind(items, lead) {
      forall keep: nat | keep >= 2 && CutAt(items, lead, keep) > lead
        ensures Paired(items[CutAt(items, lead, keep)..]) {
        SerialCutSafe(items, lead, CutAt(items, lead, keep));
      }
    }
  }

  /** Two parallel calls followed by their two answers: paired as a whole, but not after the cut. */
  lemma ParallelCallsAreCutApart()
    ensures exists items: seq<Item> :: Conversation(items) && Paired(items)
              && CutAt(items, 0, 2) > 0 && !Paired(items[CutAt(items, 0, 2)..])
  {
    var a, b := Item(false, {"a"}, None), Item(false, {"b"}, None);
    var ra, rb := Item(true, {}, Some("a")), Item(true, {}, Some("b"));
    var items := [a, b, ra, rb];
    assert items[2].needs && !items[1].needs;
    assert CutAt(items, 0, 2) == BackUp(items, 0, 2) == BackUp(items, 0, 1) == 1;
    var rest := items[1..];
    assert rest == [b, ra, rb];
    assert "a" != "b";
    assert rest[1].answers == Some("a") && !Paired(rest);
    assert items[2].answers == Some("a") && "a" in items[0].calls;
    assert items[3].answers == Some("b") && "b" in items[1].calls;
    assert Paired(items);
  }
}
