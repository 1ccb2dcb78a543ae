/** What the drain's readings of the old port's counter amount to over a whole run: a reading ends the drain
    exactly if it and the reading before it were both zero. */
module GatewayReadings {
  import opened Options
  import opened GatewayState
  import opened Gateway

  /** The step reads the old port's counter, and finds zero. */
  predicate ReadsZero(s: Gw, l: Label) {
    && l == Up(ReadCount) && s.up.UDraining? && s.up.prev.Some?
    && InflightAt(s.traffic.inflight, s.up.prev.value.port) == 0
  }

  /** Step `i` of the drain under way at `j` read zero, and was the last reading before `j`. */
  predicate LastReadZero(labels: seq<Label>, states: seq<Gw>, i: nat, j: nat)
    requires |states| == |labels| + 1 && j <= |labels|
  {
    && i < j && ReadsZero(states[i], labels[i])
    && (forall m :: i < m < j ==> labels[m] != Up(ReadCount))
    && (forall m :: i <= m <= j ==> states[m].up.UDraining?)
  }

  lemma DrainStep(s: Gw, l: Label)
    requires Next(s, l).up.UDraining? && (s.up.UDraining? ==> s.up.prev.Some?)
    ensures Next(s, l).up.prev.Some?
    ensures !s.up.UDraining? ==> Next(s, l).up.zeros == 0
    ensures s.up.UDraining? && l != Up(ReadCount) ==> Next(s, l).up == s.up
    ensures s.up.UDraining? && l == Up(ReadCount) ==>
      Next(s, l).up.zeros == if ReadsZero(s, l) then s.up.zeros + 1 else 0
    ensures Next(s, l).up.zeros < DRAIN_CONFIRM_POLLS || l != Up(ReadCount)
  {
  }

  /** The drain's own counter says exactly whether its last reading was zero. */
  lemma {:induction false} ZerosCounted(b: Backend, labels: seq<Label>, states: seq<Gw>, j: nat)
    requires IsRun(b, labels, states) && j <= |labels| && states[j].up.UDraining?
    ensures states[j].up.prev.Some? && states[j].up.zeros <= 1
    ensures states[j].up.zeros == 1 <==> exists i: nat :: LastReadZero(labels, states, i, j)
  {
    if j > 0 {
      var h: nat := j - 1;
      var s, l := states[h], labels[h];
      if s.up.UDraining? {
        ZerosCounted(b, labels, states, h);
      }
      DrainStep(s, l);
      if s.up.UDraining? && l != Up(ReadCount) {
        if i: nat :| LastReadZero(labels, states, i, h) {
          StillLast(labels, states, i, h);
        }
        if i: nat :| LastReadZero(labels, states, i, j) {
          StillLast(labels, states, i, h);
        }
      } else if ReadsZero(s, l) {
        assert LastReadZero(labels, states, h, j);
      }
    }
  }

  lemma StillLast(labels: seq<Label>, states: seq<Gw>, i: nat, j: nat)
    requires |states| == |labels| + 1 && j < |labels| && labels[j] != Up(ReadCount)
    requires states[j].up.UDraining? && states[j + 1].up.UDraining?
    ensures LastReadZero(labels, states, i, j + 1) <==> LastReadZero(labels, states, i, j)
  {
  }

  /** A reading ends the drain exactly if it is zero and the last one before it was. */
  lemma SecondZeroEndsDrain(b: Backend, labels: seq<Label>, states: seq<Gw>, j: nat)
    requires IsRun(b, labels, states) && j < |labels| && states[j].up.UDraining? && labels[j] == Up(ReadCount)
    ensures !states[j + 1].up.UDraining? <==>
              ReadsZero(states[j], labels[j])
              && exists i: nat :: LastReadZero(labels, states, i, j)
    ensures !states[j + 1].up.UDraining? ==> states[j + 1].up.UPolling? && states[j + 1].up.result == Drained
  {
    ZerosCounted(b, labels, states, j);
  }
}
