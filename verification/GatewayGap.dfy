/** The requests on the old port after a flip: none comes anew, and a kill that follows a completed drain
    interrupts one exactly when the drain's last look left one unseen. */
module GatewayGap {
  import opened Options
  import opened GatewayState
  import opened Gateway
  import opened GatewaySafety
  import opened GatewayHistory
  import opened GatewayTargets
  import opened GatewayTheorems

  /** The unfinished requests that have read `port`, counted or not. */
  function OnPort(x: Traffic, port: nat): set<nat> {
    InState(x.requests, Bound(port)) + InState(x.requests, Counted(port))
  }

  /** While another port is current, no request comes to this one. */
  lemma PortOnlyEmpties(s: Gw, l: Label, port: nat)
    requires s.current.Some? ==> s.current.value.port != port
    ensures OnPort(Next(s, l).traffic, port) <= OnPort(s.traffic, port)
  {
    match l
    case Up(u) => assert UpgradeStep(s, u).traffic == s.traffic;
    case Wd(w) => assert WatchdogStep(s, w).traffic == s.traffic;
    case _ =>
  }

  /** In every run, from the flip until the upgrade reports, no request newly reads or counts on any port
      but the new backend's. */
  lemma {:induction false} AfterFlipPortEmpties(b: Backend, labels: seq<Label>, states: seq<Gw>, i: nat, j: nat, port: nat)
    requires IsRun(b, labels, states) && i <= j <= |labels|
    requires forall m :: i <= m < j ==> FlipToFinish(states[m].up) && states[m].up.next.port != port
    ensures OnPort(states[j].traffic, port) <= OnPort(states[i].traffic, port)
  {
    if i < j {
      AfterFlipPortEmpties(b, labels, states, i, j - 1, port);
      FlipToFinishOwnsCurrent(b, labels, states, j - 1);
      assert states[j] == Next(states[j - 1], labels[j - 1]);
      PortOnlyEmpties(states[j - 1], labels[j - 1], port);
    }
  }

  /** The upgrade has its new backend and has not reported yet. */
  predicate HasNext(u: Upgrade) {
    PreFlip(u) || FlipToFinish(u)
  }

  lemma UpgradeKeepsNext(s: Gw, u: UpgradeLabel)
    requires HasNext(s.up) && HasNext(UpgradeStep(s, u).up)
    ensures u.Start? || UpgradeStep(s, u).up.next == s.up.next
  {
  }

  lemma NextIsKept(s: Gw, l: Label)
    requires HasNext(s.up) && HasNext(Next(s, l).up)
    ensures Next(s, l).up.next == s.up.next
  {
    match l
    case Up(Start) => assert StartStep(s).up == s.up || StartStep(s).up == UStarted;
    case Up(u) => UpgradeKeepsNext(s, u);
    case Wd(w) => assert WatchdogStep(s, w).up == s.up;
    case _ =>
  }

  lemma {:induction false} NextStays(b: Backend, labels: seq<Label>, states: seq<Gw>, i: nat, j: nat)
    requires IsRun(b, labels, states) && i <= j <= |labels| && forall m :: i <= m <= j ==> HasNext(states[m].up)
    ensures HasNext(states[i].up) && HasNext(states[j].up) && states[j].up.next == states[i].up.next
    decreases j
  {
    if i < j {
      NextStays(b, labels, states, i, j - 1);
      assert states[j] == Next(states[j - 1], labels[j - 1]);
      NextIsKept(states[j - 1], labels[j - 1]);
    }
  }

  /** In every run: if the old backend was still alive at some moment i after the new one was spawned, then
      from the flip until the upgrade reports, whether or not it lives on, its port only empties. */
  lemma OldPortOnlyEmpties(b: Backend, labels: seq<Label>, states: seq<Gw>, i: nat, flip: nat, j: nat, prev: Backend)
    requires IsRun(b, labels, states) && i <= flip <= j <= |labels|
    requires (forall m :: i <= m <= j ==> HasNext(states[m].up)) && forall m :: flip <= m <= j ==> FlipToFinish(states[m].up)
    requires PrevOf(states[i].up) == Some(prev) && prev in states[i].live
    ensures OnPort(states[j].traffic, prev.port) <= OnPort(states[flip].traffic, prev.port)
  {
    RunsAreSound(b, labels, states, i);
    forall m | flip <= m < j
      ensures states[m].up.next.port != prev.port
    {
      NextStays(b, labels, states, i, m);
    }
    AfterFlipPortEmpties(b, labels, states, flip, j, prev.port);
  }

  // ---- how a run can go on ----------------------------------------------------------------

  /** `rest` are what `more` leads through from `s`. */
  ghost predicate Onward(s: Gw, more: seq<Label>, rest: seq<Gw>) {
    && |rest| == |more| + 1 && rest[0] == s
    && forall i {:trigger more[i]} :: 0 <= i < |more| ==> rest[i + 1] == Next(rest[i], more[i])
  }

  /** The event is upgrade `n` signalling `target` while requests were still on its port. */
  predicate Interrupts(e: Event, n: nat, target: Backend) {
    e.Signalled? && e.who == ByUpgrade(n) && e.target == target && e.interrupted != {}
  }

  /** Upgrade `n` has drained `prev` and the new backend `next` serves; `open` are the requests that were on
      the old port at some moment since. */
  ghost predicate DrainedOnly(s: Gw, n: nat, prev: Backend, next: Backend, open: set<nat>) {
    && Safe(s) && next.port != prev.port && s.upgradeNo >= n
    && (s.upgradeNo == n ==>
          !s.up.UStarted? && !s.up.USpawning? && !PreFlip(s.up) && !s.up.UDraining?)
    && (s.upgradeNo == n && (s.up.UPolling? || s.up.UKillOld?) ==>
          s.up.prev == Some(prev) && s.up.next == next && OnPort(s.traffic, prev.port) <= open)
    && forall e :: e in s.log && e.Signalled? && e.who == ByUpgrade(n) && e.target == prev ==> e.interrupted <= open
  }

  lemma UpgradeKeepsDrained(s: Gw, u: UpgradeLabel, n: nat, prev: Backend, next: Backend, open: set<nat>)
    requires DrainedOnly(s, n, prev, next, open)
    ensures DrainedOnly(UpgradeStep(s, u), n, prev, next, open)
  {
  }

  lemma WatchdogKeepsDrained(s: Gw, w: WatchdogLabel, n: nat, prev: Backend, next: Backend, open: set<nat>)
    requires DrainedOnly(s, n, prev, next, open)
    ensures DrainedOnly(WatchdogStep(s, w), n, prev, next, open)
  {
  }

  lemma NextKeepsDrained(s: Gw, l: Label, n: nat, prev: Backend, next: Backend, open: set<nat>)
    requires DrainedOnly(s, n, prev, next, open)
    ensures DrainedOnly(Next(s, l), n, prev, next, open)
  {
    match l
    case Up(u) => UpgradeKeepsDrained(s, u, n, prev, next, open);
    case Wd(w) => WatchdogKeepsDrained(s, w, n, prev, next, open);
    case Die(_) =>
    case Req(_) =>
      if s.upgradeNo == n && (s.up.UPolling? || s.up.UKillOld?) {
        PortOnlyEmpties(s, l, prev.port);
      }
  }

  lemma {:induction false} StaysDrained(s: Gw, more: seq<Label>, rest: seq<Gw>, i: nat, n: nat, prev: Backend,
                                        next: Backend, open: set<nat>)
    requires Onward(s, more, rest) && i <= |more| && DrainedOnly(s, n, prev, next, open)
    ensures DrainedOnly(rest[i], n, prev, next, open)
  {
    if i > 0 {
      StaysDrained(s, more, rest, i - 1, n, prev, next, open);
      assert rest[i] == Next(rest[i - 1], more[i - 1]);
      NextKeepsDrained(rest[i - 1], more[i - 1], n, prev, next, open);
    }
  }

  /** The next steps of a drained upgrade that finds both backends alive, whatever request `r` is at. */
  lemma KillsNow(s: Gw, r: nat) returns (more: seq<Label>, rest: seq<Gw>, e: Event)
    requires s.up.UPolling? && s.up.result == Drained && s.up.prev.Some?
    requires s.up.prev.value in s.live && s.up.next in s.live && r in OnPort(s.traffic, s.up.prev.value.port)
    ensures Onward(s, more, rest) && e in rest[|more|].log
    ensures e.Signalled? && e.who == ByUpgrade(s.upgradeNo) && e.target == s.up.prev.value
    ensures e.role == OldBackend(Drained, s.up.gap) && r in e.interrupted
  {
    var s1 := Next(s, Req(Count(r)));
    var s2 := Next(s1, Up(PollNext));
    var s3 := Next(s2, Up(UKill(false)));
    more, rest := [Req(Count(r)), Up(PollNext), Up(UKill(false))], [s, s1, s2, s3];
    e := Signalled(ByUpgrade(s.upgradeNo), s.up.prev.value, OldBackend(Drained, s.up.gap), s2.current,
                   InState(s2.traffic.requests, Counted(s.up.prev.value.port)));
    assert s2.up == UKillOld(s.up.prev, s.up.next, Drained, s.up.gap);
    assert s3.log == s2.log + [e];
  }

  /** Nothing has signalled the old backend yet for an upgrade that has only just drained. */
  lemma JustDrained(s: Gw, prev: Backend)
    requires RunSound(s) && s.up.UPolling? && s.up.result == Drained && s.up.prev == Some(prev) && prev in s.live
    ensures DrainedOnly(s, s.upgradeNo, prev, s.up.next, OnPort(s.traffic, prev.port))
    ensures OnPort(s.traffic, prev.port) <= s.up.gap
  {
    forall e | e in s.log && e.Signalled? && e.who == ByUpgrade(s.upgradeNo)
      ensures e.target != prev
    {
      assert Linked(s.log, e) && !KillsPrev(e, s.upgradeNo);
    }
  }

  /** In every run, when a drain has ended as drained with both backends alive: the upgrade can go on to a
      kill that interrupts a request if and only if some request that had read the old port before the
      drain's last look, uncounted then, is still unfinished. */
  lemma InterruptsIffGapOpen(b: Backend, labels: seq<Label>, states: seq<Gw>, i: nat, prev: Backend)
    requires IsRun(b, labels, states) && i <= |labels|
    requires states[i].up.UPolling? && states[i].up.result == Drained && states[i].up.prev == Some(prev)
    requires prev in states[i].live && states[i].up.next in states[i].live
    ensures var s := states[i];
      (exists more: seq<Label>, rest: seq<Gw>, e: Event ::
         Onward(s, more, rest) && e in rest[|more|].log && Interrupts(e, s.upgradeNo, prev))
      <==> exists r :: r in s.up.gap && r in OnPort(s.traffic, prev.port)
  {
    var s := states[i];
    var open := OnPort(s.traffic, prev.port);
    RunsAreSound(b, labels, states, i);
    JustDrained(s, prev);
    if r :| r in s.up.gap && r in open {
      var more, rest, e := KillsNow(s, r);
      assert Interrupts(e, s.upgradeNo, prev);
    } else {
      assert open == {};
      forall more: seq<Label>, rest: seq<Gw>, e: Event | Onward(s, more, rest) && e in rest[|more|].log
        ensures !Interrupts(e, s.upgradeNo, prev)
      {
        StaysDrained(s, more, rest, |more|, s.upgradeNo, prev, s.up.next, open);
      }
    }
  }
}
