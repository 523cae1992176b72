// The rate limit on cache reloads (src/processor.rs, trigger_cache_reload).
//
// A caller reads the clock before it waits for the lock, so readings can reach the gate out of order.

module ReloadGate {
  import Arith

  // Instant::duration_since is zero when the argument is later.
  function Elapsed(now: int, last: int): nat {
    if now >= last then now - last else 0
  }

  predicate Accepts(last: int, now: int, interval: nat) {
    Elapsed(now, last) >= interval
  }

  /** The time of the last accepted reload, behind its lock. */
  class Gate {
    const interval: nat
    var last: int

    constructor (now: int, interval: nat)
      ensures this.interval == interval && last == now - interval
    {
      this.interval := interval;
      last := now - interval;
    }

    method Trigger(now: int) returns (reload: bool)
      modifies this
      ensures reload <==> Accepts(old(last), now, interval)
      ensures last == if reload then now else old(last)
    {
      if Elapsed(now, last) < interval {
        return false;
      }
      last := now;
      reload := true;
    }

    method TriggerAll(readings: seq<int>) returns (accepted: seq<int>)
      modifies this
      ensures accepted == Accepted(old(last), readings, interval)
    {
      accepted := [];
      for i := 0 to |readings|
        invariant accepted + Accepted(last, readings[i..], interval) == Accepted(old(last), readings, interval)
      {
        var before := last;
        var reload := Trigger(readings[i]);
        assert readings[i..][1..] == readings[i + 1..];
        if reload {
          accepted := accepted + [readings[i]];
        }
      }
    }
  }

  // The clock readings of the accepted calls, in the order they took the lock.
  function Accepted(last: int, readings: seq<int>, interval: nat): seq<int>
    decreases |readings|
  {
    if readings == [] then []
    else if Accepts(last, readings[0], interval) then [readings[0]] + Accepted(readings[0], readings[1..], interval)
    else Accepted(last, readings[1..], interval)
  }

  // Accepted reloads are at least the interval apart, whatever order the readings arrive in.
  lemma {:induction false} AcceptedAreApart(last: int, readings: seq<int>, interval: nat)
    requires interval > 0
    ensures forall i :: 0 <= i < |Accepted(last, readings, interval)| ==>
      Accepted(last, readings, interval)[i] >= last + (i + 1) * interval
    ensures forall i, j :: 0 <= i < j < |Accepted(last, readings, interval)| ==>
      Accepted(last, readings, interval)[j] >= Accepted(last, readings, interval)[i] + (j - i) * interval
    decreases |readings|
  {
    if readings != [] {
      if Accepts(last, readings[0], interval) {
        AcceptedAreApart(readings[0], readings[1..], interval);
        var rest := Accepted(readings[0], readings[1..], interval);
        forall i | 0 <= i < |rest|
          ensures rest[i] >= last + (i + 2) * interval
        {
          Arith.Distribute(i + 1, 1, interval);
        }
      } else {
        AcceptedAreApart(last, readings[1..], interval);
      }
    }
  }

  // The last accepted reading, or what counted as one at the start.
  function Latest(last: int, accepted: seq<int>): int {
    if accepted == [] then last else accepted[|accepted| - 1]
  }

  // No reload is refused without need: after any calls, a reading is accepted exactly when it is at least the
  // interval after the last accepted one.
  lemma {:induction false} AcceptedWhenDue(last: int, readings: seq<int>, now: int, interval: nat)
    requires interval > 0
    ensures var accepted := Accepted(last, readings, interval);
      Accepted(last, readings + [now], interval)
      == accepted + (if now - Latest(last, accepted) >= interval then [now] else [])
    decreases |readings|
  {
    if readings == [] {
      assert [now][1..] == [];
    } else {
      assert (readings + [now])[1..] == readings[1..] + [now];
      AcceptedWhenDue(if Accepts(last, readings[0], interval) then readings[0] else last, readings[1..], now, interval);
    }
  }

  // Hence a stretch of the given length holds at most length / interval + 1 of them.
  lemma AtMostPerStretch(last: int, readings: seq<int>, interval: nat, i: nat, j: nat, length: nat)
    requires interval > 0 && i <= j < |Accepted(last, readings, interval)|
    requires Accepted(last, readings, interval)[j] - Accepted(last, readings, interval)[i] <= length
    ensures j - i + 1 <= length / interval + 1
  {
    AcceptedAreApart(last, readings, interval);
    Arith.Split(length, interval);
    var q := length / interval;
    if j - i > q {
      Arith.Monotone(q + 1, j - i, interval);
      Arith.Distribute(q, 1, interval);
    }
  }
}
