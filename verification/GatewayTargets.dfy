/** Who is who in the log of a gateway run: each upgrade is tied to the backend it captured at its start,
    so "the old backend" is an identity and not a label the upgrade gives itself. */
module GatewayTargets {
  import opened Options
  import opened GatewayState
  import opened Gateway
  import opened GatewaySafety
  import opened GatewayHistory

  ghost predicate HasCaptured(log: seq<Event>, n: nat) {
    exists prev :: Captured(n, prev) in log
  }

  /** Upgrade `n` flipped from the backend it had captured to `next`. */
  ghost predicate FlippedTo(log: seq<Event>, n: nat, next: Backend) {
    exists prev :: Flipped(n, prev, prev, next) in log && Captured(n, prev) in log
  }

  /** What the log must hold besides `e`. An upgrade's signal is one for the old backend if and only if it
      hits the backend that upgrade captured. */
  ghost predicate Linked(log: seq<Event>, e: Event) {
    match e
    case SawNextAlive(n, next) => FlippedTo(log, n, next)
    case RolledBack(n, _, next, prev, alive, _) =>
      Captured(n, prev) in log && FlippedTo(log, n, next) && PolledPrev(n, alive) in log
    case Signalled(who, target, role, _, _) =>
      who.ByUpgrade? ==>
        && (role.OldBackend? <==> Captured(who.n, Some(target)) in log)
        && (role.OldBackend? ==> DrainEnded(who.n, role.result, role.gap) in log)
    case Finished(n, _) => HasCaptured(log, n)
    case _ => true
  }

  ghost predicate AllLinked(log: seq<Event>) {
    forall e :: e in log ==> Linked(log, e)
  }

  ghost predicate OneCapture(log: seq<Event>) {
    forall n, x, y :: Captured(n, x) in log && Captured(n, y) in log ==> x == y
  }

  ghost predicate ThreadLinked(s: Gw) {
    var n, log := s.upgradeNo, s.log;
    match s.up
    case UIdle => true
    case UStarted => forall e :: e in log ==> !OfUpgrade(e, n)
    case USpawning(prev) => Captured(n, prev) in log
    case UPrewarm(prev, _) => Captured(n, prev) in log
    case UFlipping(prev, _) => Captured(n, prev) in log
    case UKillNext(prev, _, _) => Captured(n, prev) in log
    case UDraining(prev, next, _) => Captured(n, prev) in log && FlippedTo(log, n, next)
    case UPolling(prev, next, result, gap) =>
      Captured(n, prev) in log && FlippedTo(log, n, next) && (prev.Some? ==> DrainEnded(n, result, gap) in log)
    case UKillOld(prev, next, result, gap) =>
      Captured(n, prev) in log && FlippedTo(log, n, next) && (prev.Some? ==> DrainEnded(n, result, gap) in log)
    case URollingBack(prev, next) => Captured(n, prev) in log && FlippedTo(log, n, next)
    case URestoring(prev, next, alive) =>
      Captured(n, prev) in log && FlippedTo(log, n, next) && PolledPrev(n, alive) in log
    case UFinishing(_, _) => HasCaptured(log, n)
    case UFinishingUnspawned => HasCaptured(log, n)
  }

  ghost predicate TargetsSound(s: Gw) {
    AllLinked(s.log) && OneCapture(s.log) && ThreadLinked(s)
  }

  // ---- one event more -----------------------------------------------------------------

  ghost predicate Unseen(log: seq<Event>, n: nat) {
    forall e :: e in log ==> !OfUpgrade(e, n)
  }

  lemma AppendKeepsLink(log: seq<Event>, e: Event, x: Event)
    requires Linked(log, x) && x in log && (e.Captured? ==> Unseen(log, e.n))
    ensures Linked(log + [e], x)
  {
    assert e.Captured? ==> !OfUpgrade(x, e.n);
    if (x.SawNextAlive? || x.RolledBack?) {
      var prev :| Flipped(x.n, prev, prev, x.next) in log && Captured(x.n, prev) in log;
      assert Flipped(x.n, prev, prev, x.next) in log + [e] && Captured(x.n, prev) in log + [e];
    } else if x.Finished? {
      var prev :| Captured(x.n, prev) in log;
      assert Captured(x.n, prev) in log + [e];
    }
  }

  lemma AppendKeepsLinked(log: seq<Event>, e: Event)
    requires AllLinked(log) && OneCapture(log) && Linked(log + [e], e) && (e.Captured? ==> Unseen(log, e.n))
    ensures AllLinked(log + [e]) && OneCapture(log + [e])
  {
    forall x | x in log + [e]
      ensures Linked(log + [e], x)
    {
      if x in log {
        AppendKeepsLink(log, e, x);
      }
    }
    forall n, x, y | Captured(n, x) in log + [e] && Captured(n, y) in log + [e]
      ensures x == y
    {
      assert OfUpgrade(Captured(n, x), n) && OfUpgrade(Captured(n, y), n);
    }
  }

  // ---- the upgrade's steps --------------------------------------------------------------

  lemma StartKeepsTargets(s: Gw)
    requires Safe(s) && Numbered(s) && TargetsSound(s)
    ensures TargetsSound(StartStep(s))
  {
    forall e | e in s.log
      ensures !OfUpgrade(e, s.upgradeNo + 1)
    {
    }
  }

  lemma QuietKeepsTargets(s: Gw, u: UpgradeLabel)
    requires TargetsSound(s)
    requires u.SpawnOk? || u.SpawnError? || u.Ready? || u.NotReady?
    ensures TargetsSound(UpgradeStep(s, u))
  {
  }

  lemma CaptureKeepsTargets(s: Gw)
    requires TargetsSound(s)
    ensures TargetsSound(CaptureStep(s))
  {
    if s.up.UStarted? {
      AppendKeepsLinked(s.log, Captured(s.upgradeNo, s.current));
    }
  }

  lemma FlipKeepsTargets(s: Gw)
    requires TargetsSound(s)
    ensures TargetsSound(FlipStep(s))
  {
    if s.up.UFlipping? && s.current == s.up.prev {
      var e := Flipped(s.upgradeNo, s.current, s.up.prev, s.up.next);
      AppendKeepsLinked(s.log, e);
      assert e in s.log + [e] && Captured(s.upgradeNo, s.up.prev) in s.log + [e];
    }
  }

  lemma AppendKeepsSeen(log: seq<Event>, e: Event, n: nat, next: Backend)
    ensures FlippedTo(log, n, next) ==> FlippedTo(log + [e], n, next)
    ensures HasCaptured(log, n) ==> HasCaptured(log + [e], n)
  {
    if FlippedTo(log, n, next) {
      var prev :| Flipped(n, prev, prev, next) in log && Captured(n, prev) in log;
      assert Flipped(n, prev, prev, next) in log + [e] && Captured(n, prev) in log + [e];
    }
    if HasCaptured(log, n) {
      var prev :| Captured(n, prev) in log;
      assert Captured(n, prev) in log + [e];
    }
  }

  lemma DrainKeepsTargets(s: Gw, u: UpgradeLabel)
    requires TargetsSound(s) && (u.WatchNext? || u.ReadCount? || u.Deadline?)
    ensures TargetsSound(UpgradeStep(s, u))
  {
    var t := UpgradeStep(s, u);
    if t.log != s.log {
      var e := DrainEnded(s.upgradeNo, t.up.result, t.up.gap);
      assert t.log == s.log + [e];
      AppendKeepsLinked(s.log, e);
      AppendKeepsSeen(s.log, e, s.upgradeNo, s.up.next);
    }
  }

  lemma PollKeepsTargets(s: Gw, u: UpgradeLabel)
    requires TargetsSound(s) && (u.PollNext? || u.PollPrev?)
    ensures TargetsSound(UpgradeStep(s, u))
  {
    var t := UpgradeStep(s, u);
    if t.log != s.log {
      var e := if u.PollNext? then SawNextAlive(s.upgradeNo, s.up.next) else PolledPrev(s.upgradeNo, t.up.prevAlive);
      assert t.log == s.log + [e];
      AppendKeepsSeen(s.log, e, s.upgradeNo, s.up.next);
      AppendKeepsLinked(s.log, e);
      assert Captured(s.upgradeNo, s.up.prev) in t.log;
    }
  }

  lemma RestoreKeepsTargets(s: Gw)
    requires TargetsSound(s)
    ensures TargetsSound(RestoreStep(s))
  {
    if s.up.URestoring? {
      var t := RestoreStep(s);
      var e := t.log[|s.log|];
      assert t.log == s.log + [e];
      AppendKeepsSeen(s.log, e, s.upgradeNo, s.up.next);
      AppendKeepsLinked(s.log, e);
      assert Captured(s.upgradeNo, s.up.prev) in t.log;
    }
  }

  lemma KillKeepsTargets(s: Gw, survives: bool)
    requires Safe(s) && TargetsSound(s)
    ensures TargetsSound(UKillStep(s, survives))
  {
    if s.up.UKillNext? || (s.up.UKillOld? && s.up.prev.Some?) {
      var t := UKillStep(s, survives);
      assert Captured(s.upgradeNo, s.up.prev) in t.log;
      if t.log != s.log {
        var e := t.log[|s.log|];
        assert t.log == s.log + [e];
        AppendKeepsLinked(s.log, e);
      }
    }
  }

  lemma FinishKeepsTargets(s: Gw)
    requires TargetsSound(s)
    ensures TargetsSound(FinishStep(s))
  {
    if s.up.UFinishing? || s.up.UFinishingUnspawned? {
      var t := FinishStep(s);
      var e := t.log[|s.log|];
      assert t.log == s.log + [e];
      AppendKeepsSeen(s.log, e, s.upgradeNo, Backend(0, 0));
      AppendKeepsLinked(s.log, e);
    }
  }

  lemma UpgradeKeepsTargets(s: Gw, u: UpgradeLabel)
    requires Safe(s) && Numbered(s) && TargetsSound(s)
    ensures TargetsSound(UpgradeStep(s, u))
  {
    match u
    case Start => StartKeepsTargets(s);
    case Capture => CaptureKeepsTargets(s);
    case SpawnOk(_) | SpawnError | Ready | NotReady => QuietKeepsTargets(s, u);
    case Flip => FlipKeepsTargets(s);
    case WatchNext | ReadCount | Deadline => DrainKeepsTargets(s, u);
    case PollNext | PollPrev => PollKeepsTargets(s, u);
    case Restore => RestoreKeepsTargets(s);
    case UKill(survives) => KillKeepsTargets(s, survives);
    case Finish => FinishKeepsTargets(s);
  }

  /** The watchdog's events belong to no upgrade. */
  lemma WatchdogKeepsTargets(s: Gw, w: WatchdogLabel)
    requires TargetsSound(s)
    ensures TargetsSound(WatchdogStep(s, w))
  {
    var t := WatchdogStep(s, w);
    var e := WatchdogLogs(s, w);
    assert t.up == s.up && t.upgradeNo == s.upgradeNo;
    if t.log != s.log {
      AppendKeepsLinked(s.log, e);
      AppendKeepsThread(s, t, e);
    }
  }

  lemma AppendKeepsThread(s: Gw, t: Gw, e: Event)
    requires ThreadLinked(s) && t.log == s.log + [e] && t.up == s.up && t.upgradeNo == s.upgradeNo
    requires ByWatchdogAlone(e)
    ensures ThreadLinked(t)
  {
    match s.up
    case UFinishing(_, _) | UFinishingUnspawned => AppendKeepsSeen(s.log, e, s.upgradeNo, Backend(0, 0));
    case UDraining(_, next, _) => AppendKeepsSeen(s.log, e, s.upgradeNo, next);
    case UPolling(_, next, _, _) => AppendKeepsSeen(s.log, e, s.upgradeNo, next);
    case UKillOld(_, next, _, _) => AppendKeepsSeen(s.log, e, s.upgradeNo, next);
    case URollingBack(_, next) => AppendKeepsSeen(s.log, e, s.upgradeNo, next);
    case URestoring(_, next, _) => AppendKeepsSeen(s.log, e, s.upgradeNo, next);
    case _ =>
  }
}
