/**
 * The large-request burst limiter: a log of accepted times per key, pruned in place on every call,
 * and the plain sliding log it must answer like.
 */
module BurstLimiter {
  import opened Text

  type Time = int

  // ---------- specification of one call ----------

  /** The accepted times later than `cutoff`, in order. */
  function Live(log: seq<Time>, cutoff: Time): seq<Time> {
    if log == [] then []
    else if log[0] > cutoff then [log[0]] + Live(log[1..], cutoff)
    else Live(log[1..], cutoff)
  }

  /** Does the limiter apply at all? */
  predicate Guarded(key: string, limit: int, window: int) {
    !Blank(key) && limit > 0 && window > 0
  }

  /** The pruned log after a call at `now`, and the answer. */
  function Decide(log: seq<Time>, limit: int, window: int, now: Time): (seq<Time>, bool) {
    var keep := Live(log, now - window);
    if |keep| >= limit then (keep, false) else (keep + [now], true)
  }

  // ---------- the limiter ----------

  /** A Go slice: the first `len` cells of a backing array. */
  datatype Slice = Slice(cells: array<Time>, len: nat)

  class Limiter {
    var events: map<string, Slice>

    /** Slices stay inside their arrays, and two keys never share one. */
    ghost predicate Valid() reads this {
      && (forall k :: k in events ==> events[k].len <= events[k].cells.Length)
      && (forall k, l :: k in events && l in events && k != l ==> events[k].cells != events[l].cells)
    }

    ghost function Log(key: string): seq<Time>
      reads this, if key in events then {events[key].cells} else {}
      requires Valid()
    {
      if key in events then events[key].cells[..events[key].len] else []
    }

    constructor ()
      ensures Valid() && events == map[]
    {
      events := map[];
    }

    /**
     * Prunes the log of `key` inside its own backing array and records an accepted time: in place
     * while there is room, in a larger array otherwise. Other keys are not touched.
     */
    method Allow(key: string, limit: int, window: int, now: Time) returns (ok: bool)
      requires Valid()
      modifies this, if key in events then {events[key].cells} else {}
      ensures Valid()
      ensures !Guarded(key, limit, window) ==> ok && events == old(events) && Log(key) == old(Log(key))
      ensures Guarded(key, limit, window) ==> (Log(key), ok) == Decide(old(Log(key)), limit, window, now)
      ensures forall k :: k != key ==> Log(k) == old(Log(k))
    {
      if Trim(key) == "" || limit <= 0 || window <= 0 {
        return true;
      }
      hide Trim, Live;
      var slice;
      if key in events {
        slice := events[key];
      } else {
        var empty := new Time[0];
        slice := Slice(empty, 0);
      }
      assert slice.cells[..slice.len] == old(Log(key));
      slice, ok := Record(slice, limit, window, now);
      events := events[key := slice];
    }
  }

  /** The part of a call that works on the backing array of one key. */
  method Record(s: Slice, limit: int, window: int, now: Time) returns (r: Slice, ok: bool)
    requires s.len <= s.cells.Length
    modifies s.cells
    ensures r.len <= r.cells.Length && (r.cells == s.cells || fresh(r.cells))
    ensures (r.cells[..r.len], ok) == Decide(old(s.cells[..s.len]), limit, window, now)
  {
    var kept := Compact(s.cells, s.len, now - window);
    r := Slice(s.cells, kept);
    ok := kept < limit;
    if ok {
      r := Append(r, now);
    }
  }

  /** Go's `append`: in place while the array has room, otherwise in a larger copy. */
  method Append(s: Slice, t: Time) returns (r: Slice)
    requires s.len <= s.cells.Length
    modifies s.cells
    ensures r.len <= r.cells.Length && (r.cells == s.cells || fresh(r.cells))
    ensures r.cells[..r.len] == old(s.cells[..s.len]) + [t]
  {
    ghost var before := s.cells[..s.len];
    if s.len < s.cells.Length {
      s.cells[s.len] := t;
      r := Slice(s.cells, s.len + 1);
    } else {
      var larger := new Time[2 * s.len + 1];
      for j := 0 to s.len
        invariant s.cells[..s.len] == before
        invariant larger[..j] == before[..j]
      {
        assert before[j] == s.cells[j];
        larger[j] := s.cells[j];
      }
      larger[s.len] := t;
      r := Slice(larger, s.len + 1);
    }
    assert r.cells[..r.len] == before + [t];
  }

  lemma {:induction false} LiveSnoc(log: seq<Time>, t: Time, cutoff: Time)
    ensures Live(log + [t], cutoff) == Live(log, cutoff) + if t > cutoff then [t] else []
  {
    if log == [] {
      assert log + [t] == [t] && [t][1..] == [];
    } else {
      assert (log + [t])[1..] == log[1..] + [t] && (log + [t])[0] == log[0];
      LiveSnoc(log[1..], t, cutoff);
      if log[0] > cutoff {
        assert [log[0]] + (Live(log[1..], cutoff) + if t > cutoff then [t] else [])
            == ([log[0]] + Live(log[1..], cutoff)) + if t > cutoff then [t] else [];
      }
    }
  }

  /** `keep := events[:0]` and the append loop: the write index never passes the read index. */
  method Compact(cells: array<Time>, len: nat, cutoff: Time) returns (kept: nat)
    requires len <= cells.Length
    modifies cells
    ensures kept <= len && cells[..kept] == Live(old(cells[..len]), cutoff)
  {
    kept := 0;
    ghost var log := cells[..len];
    var i := 0;
    while i < len
      invariant kept <= i <= len
      invariant forall j :: i <= j < len ==> cells[j] == log[j]
      invariant cells[..kept] == Live(log[..i], cutoff)
    {
      var ts := cells[i];
      assert log[..i + 1] == log[..i] + [ts];
      LiveSnoc(log[..i], ts, cutoff);
      if ts > cutoff {
        ghost var before := cells[..kept];
        cells[kept] := ts;
        kept := kept + 1;
        assert cells[..kept] == before + [ts];
      }
      i := i + 1;
    }
    assert log[..len] == log;
  }
}
