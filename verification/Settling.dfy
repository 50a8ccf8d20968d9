/** Text that grows piece by piece and is replaced now and then: the last replacement and what came after it. */
module Settling {
  import opened Sequences

  /** The pieces of all elements, in order. */
  function Concat<T, U>(add: T -> seq<U>, xs: seq<T>): seq<U> {
    if xs == [] then [] else add(xs[0]) + Concat(add, xs[1..])
  }

  lemma {:induction false} ConcatSnoc<T, U>(add: T -> seq<U>, xs: seq<T>, x: T)
    ensures Concat(add, xs + [x]) == Concat(add, xs) + add(x)
  {
    if xs == [] {
      assert ([] + [x])[1..] == [] && add(x) + [] == add(x);
    } else {
      assert (xs + [x])[1..] == xs[1..] + [x];
      ConcatSnoc(add, xs[1..], x);
      ConcatAssociates(add(xs[0]), Concat(add, xs[1..]), add(x));
    }
  }

  /** How many elements there are up to the last one that replaces; none if nothing does. */
  function LastReset<T, U>(reset: T -> seq<U>, xs: seq<T>): (k: nat)
    ensures k <= |xs| && (k > 0 ==> reset(xs[k - 1]) != []) && forall i :: k <= i < |xs| ==> reset(xs[i]) == []
  {
    if xs == [] || reset(xs[|xs| - 1]) != [] then |xs| else LastReset(reset, xs[..|xs| - 1])
  }

  /** The last replacement, followed by the pieces added after it. */
  function Settled<T, U>(reset: T -> seq<U>, add: T -> seq<U>, xs: seq<T>): seq<U> {
    var k := LastReset(reset, xs);
    (if k > 0 then reset(xs[k - 1]) else []) + Concat(add, xs[k..])
  }

  lemma SettledSnoc<T, U>(reset: T -> seq<U>, add: T -> seq<U>, xs: seq<T>, x: T)
    ensures Settled(reset, add, xs + [x]) == if reset(x) != [] then reset(x) else Settled(reset, add, xs) + add(x)
  {
    var all, k := xs + [x], LastReset(reset, xs);
    assert all[|all| - 1] == x && all[..|all| - 1] == xs;
    if reset(x) != [] {
      assert all[|all|..] == [];
    } else {
      assert LastReset(reset, all) == k;
      assert all[k..] == xs[k..] + [x];
      ConcatSnoc(add, xs[k..], x);
      ConcatAssociates(if k > 0 then reset(xs[k - 1]) else [], Concat(add, xs[k..]), add(x));
    }
  }

  lemma SettledNothing<T, U>(reset: T -> seq<U>, add: T -> seq<U>)
    ensures Settled(reset, add, []) == []
  {
  }
}
