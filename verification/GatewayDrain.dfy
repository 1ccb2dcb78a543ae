/** The in-flight table and the drain loop in the form the gateway runs them. */
module GatewayDrain {
  import opened GatewayState
  import opened Gateway

  class Inflight {
    var counts: map<nat, nat>

    constructor ()
      ensures counts == map[]
    {
      counts := map[];
    }

    /** One request more on this port, and no change on any other. */
    method Incr(port: nat)
      modifies this
      ensures forall p :: InflightAt(counts, p) == InflightAt(old(counts), p) + if p == port then 1 else 0
      ensures counts == Incremented(old(counts), port)
    {
      counts := counts[port := (if port in counts then counts[port] else 0) + 1];
    }

    /** One request less on this port if there was any, and no change on any other; after an increment of
        the port every count is what it was before that. */
    method Decr(port: nat)
      modifies this
      ensures forall p :: p != port ==> InflightAt(counts, p) == InflightAt(old(counts), p)
      ensures if InflightAt(old(counts), port) == 0 then InflightAt(counts, port) == 0
              else InflightAt(counts, port) == InflightAt(old(counts), port) - 1
      ensures forall m, p :: old(counts) == Incremented(m, port) ==> InflightAt(counts, p) == InflightAt(m, p)
      ensures counts == Decremented(old(counts), port)
    {
      var n: int := if port in counts then counts[port] else 0;
      counts := counts[port := if n - 1 > 0 then n - 1 else 0];
    }
  }

  /** A decrement undoes an increment of the same port and neither touches another port. */
  lemma DecrUndoesIncr(m: map<nat, nat>, port: nat, other: nat)
    ensures InflightAt(Decremented(Incremented(m, port), port), other) == InflightAt(m, other)
    ensures other != port ==> InflightAt(Decremented(m, port), other) == InflightAt(m, other)
  {
  }

  /** What one round of the drain loop finds: has the new backend exited, and how many requests are
      in flight on the old port. */
  datatype Look = Look(watchDied: bool, count: nat)

  /** Rounds `k - 1` and `k` both read zero: enough to confirm the drain. */
  predicate Confirmed(looks: seq<Look>, k: nat) {
    0 < k < |looks| && looks[k - 1].count == 0 && looks[k].count == 0
  }

  /** Nothing before round `k` ends the loop. */
  predicate StillDraining(looks: seq<Look>, k: nat)
    requires k <= |looks|
  {
    forall j :: 0 <= j < k ==> !looks[j].watchDied && !Confirmed(looks, j)
  }

  /** `looks` are the rounds before the deadline and `last` the reading after it. */
  method WaitDrain(settleDied: bool, looks: seq<Look>, last: nat) returns (r: DrainResult, rounds: nat)
    ensures rounds <= |looks|
    ensures !settleDied ==> StillDraining(looks, rounds)
    ensures settleDied ==> r == WatchDied && rounds == 0
    ensures !settleDied && r == WatchDied ==> rounds < |looks| && looks[rounds].watchDied
    ensures !settleDied && rounds < |looks| && r != WatchDied ==>
      r == Drained && Confirmed(looks, rounds) && !looks[rounds].watchDied
    ensures !settleDied && rounds == |looks| ==> r == if last == 0 then Drained else TimedOut
  {
    rounds := 0;
    if settleDied {
      return WatchDied, 0;
    }
    var consecutiveZero := 0;
    while rounds < |looks|
      invariant 0 <= rounds <= |looks|
      invariant StillDraining(looks, rounds)
      invariant 0 <= consecutiveZero <= 1 && consecutiveZero < DRAIN_CONFIRM_POLLS
      invariant consecutiveZero == 1 <==> rounds > 0 && looks[rounds - 1].count == 0
    {
      if looks[rounds].watchDied {
        return WatchDied, rounds;
      }
      if looks[rounds].count <= 0 {
        consecutiveZero := consecutiveZero + 1;
        if consecutiveZero >= DRAIN_CONFIRM_POLLS {
          return Drained, rounds;
        }
      } else {
        consecutiveZero := 0;
      }
      rounds := rounds + 1;
    }
    r := if last <= 0 then Drained else TimedOut;
  }
}
