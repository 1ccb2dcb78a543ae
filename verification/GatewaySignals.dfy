/** A backend that was sent a signal is out for good: no thread ever publishes it again. So it does not
    matter that the second signal of a kill may come any time after the first. */
module GatewaySignals {
  import opened Options
  import opened GatewayState
  import opened Gateway
  import opened GatewayTheorems

  predicate Unsignalled(s: Gw, b: Option<Backend>) {
    b.Some? ==> b.value !in s.signalled
  }

  /** Nothing that is current, or that a thread may still make current, has been signalled. */
  ghost predicate SignalsSound(s: Gw) {
    && (forall b :: b in s.signalled ==> b.pid < s.nextPid)
    && Unsignalled(s, s.current) && Unsignalled(s, NextOf(s.up)) && Unsignalled(s, ReplOf(s.wd))
    && (FlipToFinish(s.up) ==> Unsignalled(s, PrevOf(s.up)))
  }

  lemma KillKeepsSignals(s: Gw, survives: bool)
    requires Safe(s) && SignalsSound(s)
    ensures SignalsSound(UKillStep(s, survives)) && s.signalled <= UKillStep(s, survives).signalled
  {
  }

  lemma EarlyKeepsSignals(s: Gw, u: UpgradeLabel)
    requires Safe(s) && SignalsSound(s)
    requires u.Start? || u.Capture? || u.SpawnOk? || u.SpawnError? || u.Ready? || u.NotReady? || u.Flip?
    ensures SignalsSound(UpgradeStep(s, u)) && s.signalled <= UpgradeStep(s, u).signalled
  {
  }

  lemma LateKeepsSignals(s: Gw, u: UpgradeLabel)
    requires Safe(s) && SignalsSound(s)
    requires u.WatchNext? || u.ReadCount? || u.Deadline? || u.PollNext? || u.PollPrev? || u.Restore? || u.Finish?
    ensures SignalsSound(UpgradeStep(s, u)) && s.signalled <= UpgradeStep(s, u).signalled
  {
  }

  lemma UpgradeKeepsSignals(s: Gw, u: UpgradeLabel)
    requires Safe(s) && SignalsSound(s)
    ensures SignalsSound(UpgradeStep(s, u)) && s.signalled <= UpgradeStep(s, u).signalled
  {
    match u
    case UKill(survives) => KillKeepsSignals(s, survives);
    case WatchNext | ReadCount | Deadline | PollNext | PollPrev | Restore | Finish => LateKeepsSignals(s, u);
    case _ => EarlyKeepsSignals(s, u);
  }

  lemma WatchdogKeepsSignals(s: Gw, w: WatchdogLabel)
    requires Safe(s) && SignalsSound(s)
    ensures SignalsSound(WatchdogStep(s, w)) && s.signalled <= WatchdogStep(s, w).signalled
  {
  }

  lemma NextKeepsSignals(s: Gw, l: Label)
    requires Safe(s) && SignalsSound(s)
    ensures SignalsSound(Next(s, l)) && s.signalled <= Next(s, l).signalled
  {
    match l
    case Up(u) => UpgradeKeepsSignals(s, u);
    case Wd(w) => WatchdogKeepsSignals(s, w);
    case Die(_) =>
    case Req(_) =>
  }

  lemma {:induction false} RunsKeepSignals(b: Backend, labels: seq<Label>, states: seq<Gw>, i: nat)
    requires IsRun(b, labels, states) && i <= |labels|
    ensures SignalsSound(states[i])
    ensures i > 0 ==> states[i - 1].signalled <= states[i].signalled
  {
    if i > 0 {
      RunsKeepSignals(b, labels, states, i - 1);
      RunsAreSound(b, labels, states, i - 1);
      assert states[i] == Next(states[i - 1], labels[i - 1]);
      NextKeepsSignals(states[i - 1], labels[i - 1]);
    }
  }

  /** In every run: once a backend has been signalled it is not the current one, then or ever after. */
  lemma {:induction false} SignalledNeverCurrentAgain(b: Backend, labels: seq<Label>, states: seq<Gw>, i: nat, j: nat, x: Backend)
    requires IsRun(b, labels, states) && i <= j <= |labels| && x in states[i].signalled
    ensures x in states[j].signalled && states[j].current != Some(x)
    decreases j
  {
    RunsKeepSignals(b, labels, states, j);
    if i < j {
      SignalledNeverCurrentAgain(b, labels, states, i, j - 1, x);
    }
  }
}
