/** The in-flight limiter: a counted slot per running large request of a key. */
module InFlightLimiter {
  import opened Text

  // ---------- specification ----------

  type Counts = map<string, int>

  function CountOf(counts: Counts, key: string): int {
    if key in counts then counts[key] else 0
  }

  predicate Counted(key: string, limit: int) {
    !Blank(key) && limit > 0
  }

  /** The outcome of an acquire: not subject to the limiter, a slot to give back, or a refusal. */
  datatype Grant = Free | Slot | Refused

  function AcquireStep(counts: Counts, key: string, limit: int): (Counts, Grant) {
    if !Counted(key, limit) then (counts, Free)
    else if CountOf(counts, key) >= limit then (counts, Refused)
    else (counts[key := CountOf(counts, key) + 1], Slot)
  }

  function ReleaseStep(counts: Counts, key: string): Counts {
    if CountOf(counts, key) <= 1 then counts - {key} else counts[key := CountOf(counts, key) - 1]
  }

  // ---------- the limiter ----------

  class Limiter {
    var inFlight: Counts

    constructor ()
      ensures inFlight == map[]
    {
      inFlight := map[];
    }

    /** `tryAcquire` up to the release function, which is `Release` for the same key. */
    method TryAcquire(key: string, limit: int) returns (grant: Grant)
      modifies this
      ensures (inFlight, grant) == AcquireStep(old(inFlight), key, limit)
    {
      if Trim(key) == "" || limit <= 0 {
        return Free;
      }
      var current := 0;
      if key in inFlight {
        current := inFlight[key];
      }
      if current >= limit {
        return Refused;
      }
      inFlight := inFlight[key := current + 1];
      return Slot;
    }

    method Release(key: string)
      modifies this
      ensures inFlight == ReleaseStep(old(inFlight), key)
    {
      if key !in inFlight || inFlight[key] <= 1 {
        inFlight := inFlight - {key};
        return;
      }
      inFlight := inFlight[key := inFlight[key] - 1];
    }
  }

  // ---------- runs ----------

  /** An acquire by a request, or the one release of the slot that request was granted. */
  datatype Op = Acquire(request: nat, key: string, limit: int) | Release(request: nat)

  /** The limiter together with the slots that were granted and not yet given back. */
  datatype State = State(counts: Counts, held: map<nat, string>)

  const EMPTY := State(map[], map[])

  /** Requests acquire once, and give a slot back only while they hold it. */
  predicate Enabled(s: State, op: Op) {
    match op
    case Acquire(r, _, _) => r !in s.held
    case Release(r) => r in s.held
  }

  function Apply(s: State, op: Op): State
    requires Enabled(s, op)
  {
    match op
    case Acquire(r, key, limit) =>
      var (counts, grant) := AcquireStep(s.counts, key, limit);
      State(counts, if grant.Slot? then s.held[r := key] else s.held)
    case Release(r) => State(ReleaseStep(s.counts, s.held[r]), s.held - {r})
  }

  function HoldersOf(held: map<nat, string>, key: string): set<nat> {
    set r | r in held && held[r] == key
  }

  /** A key is in the map exactly while some request holds a slot of it, with the number of holders. */
  ghost predicate ConsistentFor(s: State, k: string) {
    && (k in s.counts <==> HoldersOf(s.held, k) != {})
    && (k in s.counts ==> s.counts[k] == |HoldersOf(s.held, k)|)
  }

  ghost predicate Consistent(s: State) {
    forall k :: ConsistentFor(s, k)
  }

  lemma HoldersCount(held: map<nat, string>, key: string)
    ensures HoldersOf(held, key) == {} <==> |HoldersOf(held, key)| == 0
  {
  }

  lemma AcquireHolders(held: map<nat, string>, r: nat, key: string, k: string)
    requires r !in held
    ensures HoldersOf(held[r := key], k) == if k == key then HoldersOf(held, k) + {r} else HoldersOf(held, k)
  {
  }

  lemma ReleaseHolders(held: map<nat, string>, r: nat, k: string)
    requires r in held
    ensures HoldersOf(held - {r}, k) == HoldersOf(held, k) - {r}
    ensures r in HoldersOf(held, k) <==> k == held[r]
  {
  }

  lemma AcquireConsistent(s: State, r: nat, key: string, limit: int, k: string)
    requires Enabled(s, Acquire(r, key, limit)) && ConsistentFor(s, k) && ConsistentFor(s, key)
    ensures ConsistentFor(Apply(s, Acquire(r, key, limit)), k)
  {
    hide Blank, HoldersOf;
    AcquireHolders(s.held, r, key, k);
    if k == key && r !in HoldersOf(s.held, k) {
      assert |HoldersOf(s.held, k) + {r}| == |HoldersOf(s.held, k)| + 1;
    }
    NotHolding(s.held, r, k);
  }

  lemma NotHolding(held: map<nat, string>, r: nat, k: string)
    requires r !in held
    ensures r !in HoldersOf(held, k)
  {
  }

  lemma ReleaseConsistent(s: State, r: nat, k: string)
    requires Enabled(s, Release(r)) && ConsistentFor(s, k) && ConsistentFor(s, s.held[r])
    ensures ConsistentFor(Apply(s, Release(r)), k)
  {
    hide Blank, HoldersOf;
    ReleaseHolders(s.held, r, k);
    ReleaseHolders(s.held, r, s.held[r]);
    if k == s.held[r] {
      assert |HoldersOf(s.held, k) - {r}| == |HoldersOf(s.held, k)| - 1;
      HoldersCount(s.held - {r}, k);
    }
  }

  /** Every step keeps the counts equal to the number of holders and grants exactly below the limit. */
  lemma StepConsistent(s: State, op: Op)
    requires Consistent(s) && Enabled(s, op)
    ensures Consistent(Apply(s, op))
    ensures op.Acquire? && Counted(op.key, op.limit) ==>
              (AcquireStep(s.counts, op.key, op.limit).1.Slot? <==> |HoldersOf(s.held, op.key)| < op.limit)
    ensures op.Acquire? && !Counted(op.key, op.limit) ==> Apply(s, op) == s
  {
    hide Blank, HoldersOf;
    var t := Apply(s, op);
    forall k ensures ConsistentFor(t, k) {
      assert ConsistentFor(s, k);
      if op.Acquire? {
        assert ConsistentFor(s, op.key);
        AcquireConsistent(s, op.request, op.key, op.limit, k);
      } else {
        assert ConsistentFor(s, s.held[op.request]);
        ReleaseConsistent(s, op.request, k);
      }
    }
    if op.Acquire? {
      assert ConsistentFor(s, op.key);
      HoldersCount(s.held, op.key);
    }
  }

  predicate Legal(s: State, ops: seq<Op>)
    decreases |ops|
  {
    ops == [] || (Enabled(s, ops[0]) && Legal(Apply(s, ops[0]), ops[1..]))
  }

  function After(s: State, ops: seq<Op>): State
    requires Legal(s, ops)
    decreases |ops|
  {
    if ops == [] then s else After(Apply(s, ops[0]), ops[1..])
  }

  /** One more operation takes the state one step further. */
  lemma {:induction false} OneMore(s: State, ops: seq<Op>, op: Op)
    requires Legal(s, ops) && Enabled(After(s, ops), op)
    ensures Legal(s, ops + [op]) && After(s, ops + [op]) == Apply(After(s, ops), op)
    decreases |ops|
  {
    hide Enabled, Apply;
    var all := ops + [op];
    if ops == [] {
      assert all == [op] && all[1..] == [];
    } else {
      assert all[1..] == ops[1..] + [op] && all[0] == ops[0];
      OneMore(Apply(s, ops[0]), ops[1..], op);
    }
  }

  /** No key holds more slots than the largest limit it was ever asked with. */
  predicate Within(s: State, limit: int) {
    forall k :: k in s.counts ==> s.counts[k] <= limit
  }

  predicate LimitsUpTo(ops: seq<Op>, limit: int) {
    forall i :: 0 <= i < |ops| && ops[i].Acquire? ==> ops[i].limit <= limit
  }

  lemma {:induction false} RunFrom(s: State, ops: seq<Op>, limit: int)
    requires Consistent(s) && Legal(s, ops) && LimitsUpTo(ops, limit) && Within(s, limit)
    ensures Consistent(After(s, ops)) && Within(After(s, ops), limit)
    decreases |ops|
  {
    hide Consistent, Blank;
    if ops != [] {
      StepConsistent(s, ops[0]);
      assert ops[0].Acquire? ==> ops[0].limit <= limit;
      RunFrom(Apply(s, ops[0]), ops[1..], limit);
    }
  }

  lemma NothingHeld()
    ensures Consistent(EMPTY)
  {
    forall k ensures ConsistentFor(EMPTY, k) { assert HoldersOf(EMPTY.held, k) == {}; }
  }

  /**
   * For every interleaving of acquires and once-only releases: the count of a key is the number of
   * its outstanding slots, is never above the limit, and the map is empty when nothing is held.
   */
  lemma SlotsBalance(ops: seq<Op>, limit: int)
    requires Legal(EMPTY, ops) && LimitsUpTo(ops, limit)
    ensures var s := After(EMPTY, ops);
            && (forall k :: CountOf(s.counts, k) == |HoldersOf(s.held, k)|)
            && (forall k :: k in s.counts ==> 0 < s.counts[k] <= limit)
            && (s.held == map[] <==> s.counts == map[])
  {
    hide Legal, After;
    assert Consistent(EMPTY) by { NothingHeld(); }
    RunFrom(EMPTY, ops, limit);
    var s := After(EMPTY, ops);
    forall k ensures CountOf(s.counts, k) == |HoldersOf(s.held, k)| && (k in s.counts ==> 0 < s.counts[k]) {
      assert ConsistentFor(s, k);
      HoldersCount(s.held, k);
    }
    if s.held != map[] {
      var r :| r in s.held;
      assert r in HoldersOf(s.held, s.held[r]);
      assert ConsistentFor(s, s.held[r]);
    } else {
      forall k ensures k !in s.counts { assert ConsistentFor(s, k) && HoldersOf(s.held, k) == {}; }
    }
  }
}
