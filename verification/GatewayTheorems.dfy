/** The gateway's promises, for every run: any interleaving, any deaths, any traffic. */
module GatewayTheorems {
  import opened Options
  import opened GatewayState
  import opened Gateway
  import opened GatewaySafety
  import opened GatewayHistory
  import opened GatewayTargets

  ghost predicate RunSound(s: Gw) {
    && Safe(s) && CountsExact(s.traffic) && PortsApart(s) && DrainSound(s)
    && EventsSafe(s.log) && HistorySound(s) && TargetsSound(s)
  }

  lemma NextKeepsRunSound(s: Gw, l: Label)
    requires RunSound(s)
    ensures RunSound(Next(s, l))
  {
    NextKeepsCounts(s, l);
    NextKeepsDrainSound(s, l);
    match l
    case Up(u) => UpgradeKeepsEventsSafe(s, u); UpgradeKeepsHistory(s, u); UpgradeKeepsTargets(s, u);
    case Wd(w) => WatchdogKeepsEventsSafe(s, w); WatchdogKeepsHistory(s, w); WatchdogKeepsTargets(s, w);
    case Die(_) =>
    case Req(_) =>
  }

  lemma {:induction false} RunsAreSound(b: Backend, labels: seq<Label>, states: seq<Gw>, i: nat)
    requires IsRun(b, labels, states) && i <= |labels|
    ensures RunSound(states[i])
  {
    if i == 0 {
      assert forall port: nat :: InState(map[], Counted(port)) == {};
    } else {
      RunsAreSound(b, labels, states, i - 1);
      NextKeepsRunSound(states[i - 1], labels[i - 1]);
    }
  }

  /** Neither thread ever signals the backend that is current at that moment. */
  lemma NeverSignalsCurrent(b: Backend, labels: seq<Label>, states: seq<Gw>, i: nat, e: Event)
    requires IsRun(b, labels, states) && i <= |labels|
    requires e in states[i].log && e.Signalled?
    ensures e.currentThen != Some(e.target)
  {
    RunsAreSound(b, labels, states, i);
    assert EventSafe(e);
  }

  /** From its flip until it reports, an upgrade's own backend is the current one, whatever stale
      readings the watchdog acts on; and there is never a second upgrade thread. */
  lemma FlipToFinishOwnsCurrent(b: Backend, labels: seq<Label>, states: seq<Gw>, i: nat)
    requires IsRun(b, labels, states) && i <= |labels|
    ensures FlipToFinish(states[i].up) ==> states[i].current == Some(states[i].up.next)
    ensures states[i].running <==> states[i].up != UIdle
  {
    RunsAreSound(b, labels, states, i);
  }

  /** A live backend is current, or was already sent its signals, or is held by a thread that will
      kill it or publish it. With both threads at rest only the first two remain. */
  lemma NoBackendIsOrphaned(b: Backend, labels: seq<Label>, states: seq<Gw>, i: nat, x: Backend)
    requires IsRun(b, labels, states) && i <= |labels| && x in states[i].live
    ensures var s := states[i];
            && (s.current == Some(x) || x in s.signalled || Held(s, x))
            && (s.up.UIdle? && s.wd.WIdle? ==> s.current == Some(x) || x in s.signalled)
  {
    RunsAreSound(b, labels, states, i);
  }

  /** What event `e` may be once upgrade `n`, which captured `prev` at its start, has reported `phase`. */
  ghost predicate NonDestructive(e: Event, n: nat, prev: Option<Backend>, phase: Phase) {
    && (phase.SpawnFailed? || phase.PrewarmFailed? || phase.Superseded? ==> !Writes(e, n))
    && (phase != Complete && e.Signalled? && e.who == ByUpgrade(n) ==> Some(e.target) != prev)
    && (phase == Complete ==> !(e.RolledBack? && e.n == n))
  }

  /** An upgrade that fails before its flip never assigned the current backend; one that fails at all never
      signalled the backend it had captured to replace; one that completed never rolled back. */
  lemma FailedUpgradesAreNonDestructive(b: Backend, labels: seq<Label>, states: seq<Gw>, i: nat, n: nat, phase: Phase)
    returns (prev: Option<Backend>)
    requires IsRun(b, labels, states) && i <= |labels| && Finished(n, phase) in states[i].log
    ensures Captured(n, prev) in states[i].log
    ensures forall e :: e in states[i].log ==> NonDestructive(e, n, prev, phase)
  {
    RunsAreSound(b, labels, states, i);
    var log := states[i].log;
    assert Linked(log, Finished(n, phase)) && OutcomeSound(log, n, phase);
    prev :| Captured(n, prev) in log;
    forall e | e in log
      ensures NonDestructive(e, n, prev, phase)
    {
      assert Linked(log, e);
    }
  }

  /** A rollback overwrites the upgrade's own dead backend and nothing else, so it never undoes a
      heal; it restores the backend the upgrade captured exactly when the poll on record says alive. A heal
      overwrites exactly the backend it found dead. */
  lemma AssignmentsClobberNothing(b: Backend, labels: seq<Label>, states: seq<Gw>, i: nat, e: Event)
    requires IsRun(b, labels, states) && i <= |labels| && e in states[i].log
    ensures e.RolledBack? ==> e.overwritten == Some(e.next) && e.to == (if e.prevAlive then e.prev else None)
    ensures e.RolledBack? ==> Captured(e.n, e.prev) in states[i].log && PolledPrev(e.n, e.prevAlive) in states[i].log
    ensures e.Healed? ==> e.overwritten == Some(e.proc)
    ensures e.Flipped? ==> e.overwritten == e.prev
  {
    RunsAreSound(b, labels, states, i);
    assert EventSafe(e) && Linked(states[i].log, e);
  }

  /** The event is upgrade `n` signalling the backend it had captured. */
  ghost predicate SignalsCaptured(log: seq<Event>, e: Event, n: nat) {
    e.Signalled? && e.who == ByUpgrade(n) && Captured(n, Some(e.target)) in log
  }

  /** An upgrade signals the backend it captured only after it flipped away from it to `next`, then ended
      the drain, and then found `next` alive. */
  lemma PreviousKilledOnlyWhenReplaced(b: Backend, labels: seq<Label>, states: seq<Gw>, i: nat, k: nat, n: nat)
    returns (drained: nat, seen: nat, next: Backend)
    requires IsRun(b, labels, states) && i <= |labels|
    requires k < |states[i].log| && SignalsCaptured(states[i].log, states[i].log[k], n)
    ensures drained < seen < k && states[i].log[drained].DrainEnded? && states[i].log[drained].n == n
    ensures states[i].log[seen] == SawNextAlive(n, next)
    ensures Flipped(n, Some(states[i].log[k].target), Some(states[i].log[k].target), next) in states[i].log
  {
    RunsAreSound(b, labels, states, i);
    var log := states[i].log;
    assert log[k] in log && Linked(log, log[k]);
    assert KillsPrev(log[k], n) && ProvenBefore(log, k, n);
    seen :| 0 <= seen < k && log[seen].SawNextAlive? && log[seen].n == n && DrainEndedBefore(log, seen, n);
    drained :| 0 <= drained < seen && log[drained].DrainEnded? && log[drained].n == n;
    next := log[seen].next;
    assert log[seen] in log && Linked(log, log[seen]);
    var prev :| Flipped(n, prev, prev, next) in log && Captured(n, prev) in log;
    assert prev == Some(log[k].target);
  }

  /** Every port's counter is the number of requests between increment and decrement, so the
      `max(0, n - 1)` clamp never acts. */
  lemma CountersAreExact(b: Backend, labels: seq<Label>, states: seq<Gw>, i: nat, r: nat)
    requires IsRun(b, labels, states) && i <= |labels|
    requires r in states[i].traffic.requests && states[i].traffic.requests[r].Counted?
    ensures var x := states[i].traffic;
            var port := x.requests[r].port;
            && InflightAt(x.inflight, port) == |InState(x.requests, Counted(port))|
            && InflightAt(Decremented(x.inflight, port), port) == InflightAt(x.inflight, port) - 1
  {
    RunsAreSound(b, labels, states, i);
    var x := states[i].traffic;
    assert r in InState(x.requests, Counted(x.requests[r].port));
  }

  /** The signal to the old backend goes with the result of its drain, and if that was drained it interrupts
      only requests that had read the old port but were not yet counted when the drain loop took its last
      look (GatewayLog.LogIsTrue says that the entries mean this). */
  lemma DrainedKillInterruptsOnlyGap(b: Backend, labels: seq<Label>, states: seq<Gw>, i: nat, e: Event, n: nat)
    returns (result: DrainResult, gap: set<nat>)
    requires IsRun(b, labels, states) && i <= |labels| && e in states[i].log && SignalsCaptured(states[i].log, e, n)
    ensures DrainEnded(n, result, gap) in states[i].log && (result == Drained ==> e.interrupted <= gap)
  {
    RunsAreSound(b, labels, states, i);
    assert EventSafe(e) && Linked(states[i].log, e);
    result, gap := e.role.result, e.role.gap;
  }

  // ---- an example run -------------------------------------------------------------------

  /** Some run of the gateway ends in `s`. */
  ghost predicate Reached(b: Backend, s: Gw) {
    exists labels, states :: IsRun(b, labels, states) && states[|labels|] == s
  }

  lemma BootIsReached(b: Backend)
    ensures Reached(b, Booted(b))
  {
    assert IsRun(b, [], [Booted(b)]);
  }

  lemma Step(b: Backend, s: Gw, l: Label)
    requires Reached(b, s)
    ensures Reached(b, Next(s, l))
  {
    var labels, states :| IsRun(b, labels, states) && states[|labels|] == s;
    assert IsRun(b, labels + [l], states + [Next(s, l)]);
  }

  /** An upgrade has captured the old backend while request 0 has read its port. */
  function BoundBeforeSpawn(b: Backend): Gw {
    Gw(Some(b), {b}, {}, b.pid + 1, true, 1, USpawning(Some(b)), WIdle, Traffic(map[], map[0 := Bound(b.port)], 1),
       [Captured(1, Some(b))])
  }

  lemma ReachSpawn(b: Backend)
    ensures Reached(b, BoundBeforeSpawn(b))
  {
    BootIsReached(b);
    var s := Next(Booted(b), Req(Bind));
    Step(b, Booted(b), Req(Bind));
    Step(b, s, Up(Start));
    Step(b, Next(s, Up(Start)), Up(Capture));
  }

  /** The new backend is live and being drained for; request 0 is still not counted. */
  function BoundAfterFlip(b: Backend, zeros: nat): Gw {
    var next := Backend(b.pid + 1, b.port + 1);
    Gw(Some(next), {b, next}, {}, b.pid + 2, true, 1, UDraining(Some(b), next, zeros), WIdle,
       Traffic(map[], map[0 := Bound(b.port)], 1), [Captured(1, Some(b)), Flipped(1, Some(b), Some(b), next)])
  }

  /** The new backend is live and ready. */
  function BoundBeforeFlip(b: Backend): Gw {
    var next := Backend(b.pid + 1, b.port + 1);
    BoundBeforeSpawn(b).(live := {b} + {next}, nextPid := b.pid + 2, up := UFlipping(Some(b), next))
  }

  lemma ReachReady(b: Backend)
    ensures Reached(b, BoundBeforeFlip(b))
  {
    var s := BoundBeforeSpawn(b);
    ReachSpawn(b);
    SpawnNext(s, b.port + 1);
    Step(b, s, Up(SpawnOk(b.port + 1)));
    var s1 := Next(s, Up(SpawnOk(b.port + 1)));
    ReadyNext(s1);
    Step(b, s1, Up(Ready));
  }

  lemma ReachFlip(b: Backend)
    ensures Reached(b, BoundAfterFlip(b, 0))
  {
    var s, next := BoundBeforeFlip(b), Backend(b.pid + 1, b.port + 1);
    ReachReady(b);
    Step(b, s, Up(Flip));
    assert {b} + {next} == {b, next};
    assert Next(s, Up(Flip)) == BoundAfterFlip(b, 0);
  }

  lemma SpawnNext(s: Gw, port: nat)
    requires s.up.USpawning? && PortFree(s, port)
    ensures var x := Backend(s.nextPid, port);
      Next(s, Up(SpawnOk(port))) == s.(live := s.live + {x}, nextPid := s.nextPid + 1, up := UPrewarm(s.up.prev, x))
  {
  }

  lemma ReadyNext(s: Gw)
    requires s.up.UPrewarm? && s.up.next in s.live
    ensures Next(s, Up(Ready)) == s.(up := UFlipping(s.up.prev, s.up.next))
  {
  }

  /** The drain is over and request 0, which nobody counted, is the gap. */
  function DrainedWithGap(b: Backend): Gw {
    BoundAfterFlip(b, 1).(up := UPolling(Some(b), Backend(b.pid + 1, b.port + 1), Drained, {0}),
                          log := BoundAfterFlip(b, 1).log + [DrainEnded(1, Drained, {0})])
  }

  lemma ReachDrained(b: Backend)
    ensures Reached(b, DrainedWithGap(b))
  {
    ReachFlip(b);
    Step(b, BoundAfterFlip(b, 0), Up(ReadCount));
    assert Next(BoundAfterFlip(b, 0), Up(ReadCount)) == BoundAfterFlip(b, 1);
    Step(b, BoundAfterFlip(b, 1), Up(ReadCount));
    assert InState(map[0 := Bound(b.port)], Bound(b.port)) == {0};
    assert Next(BoundAfterFlip(b, 1), Up(ReadCount)) == DrainedWithGap(b);
  }

  lemma ReachKill(b: Backend) returns (s: Gw)
    ensures Reached(b, s) && b in s.live && s.traffic.requests == map[0 := Counted(b.port)]
    ensures s.up == UKillOld(Some(b), Backend(b.pid + 1, b.port + 1), Drained, {0})
  {
    ReachDrained(b);
    Step(b, DrainedWithGap(b), Req(Count(0)));
    s := Next(DrainedWithGap(b), Req(Count(0)));
    Step(b, s, Up(PollNext));
    s := Next(s, Up(PollNext));
  }

  /** That gap is real: a request caught between reading the port and being counted is interrupted
      by a kill that the drain had cleared. */
  lemma GapRequestIsInterrupted(b: Backend) returns (s: Gw, e: Event)
    ensures Reached(b, s) && e in s.log && e.Signalled? && e.role == OldBackend(Drained, {0})
    ensures e.interrupted == {0}
  {
    var t := ReachKill(b);
    Step(b, t, Up(UKill(false)));
    s := Next(t, Up(UKill(false)));
    assert InState(map[0 := Counted(b.port)], Counted(b.port)) == {0};
    e := s.log[|s.log| - 1];
  }
}
