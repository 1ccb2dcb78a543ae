/** What the log of any gateway run says: who was signalled, what was overwritten, and what each
    upgrade had done by the time it reported its outcome. */
module GatewayHistory {
  import opened Options
  import opened GatewayState
  import opened Gateway
  import opened GatewaySafety

  // ---- every single event -------------------------------------------------------------

  /** No signal hits the current backend, a completed drain interrupts only requests nobody could
      have counted, and each assignment overwrites exactly what its thread set out to replace. */
  ghost predicate EventSafe(e: Event) {
    match e
    case Flipped(_, overwritten, prev, _) => overwritten == prev
    case Healed(overwritten, proc, _) => overwritten == Some(proc)
    case RolledBack(_, overwritten, next, prev, prevAlive, to) =>
      overwritten == Some(next) && to == if prevAlive then prev else None
    case Signalled(_, target, role, currentThen, interrupted) =>
      && currentThen != Some(target)
      && (role.OldBackend? && role.result == Drained ==> interrupted <= role.gap)
    case _ => true
  }

  ghost predicate EventsSafe(log: seq<Event>) {
    forall e :: e in log ==> EventSafe(e)
  }

  lemma UpgradeKeepsEventsSafe(s: Gw, u: UpgradeLabel)
    requires Safe(s) && PortsApart(s) && DrainSound(s) && EventsSafe(s.log)
    ensures EventsSafe(UpgradeStep(s, u).log)
  {
  }

  lemma WatchdogKeepsEventsSafe(s: Gw, w: WatchdogLabel)
    requires Safe(s) && EventsSafe(s.log)
    ensures EventsSafe(WatchdogStep(s, w).log)
  {
  }

  // ---- each upgrade, from start to outcome ----------------------------------------------

  ghost predicate OfUpgrade(e: Event, n: nat) {
    match e
    case Healed(_, _, _) => false
    case Signalled(who, _, _, _, _) => who == ByUpgrade(n)
    case _ => e.n == n
  }

  /** Upgrade `n` assigned the current backend. */
  ghost predicate Writes(e: Event, n: nat) {
    (e.Flipped? || e.RolledBack?) && e.n == n
  }

  /** Upgrade `n` signalled the backend it set out to replace, by the role it gave; GatewayTargets shows that
      the role tells the truth. */
  ghost predicate KillsPrev(e: Event, n: nat) {
    e.Signalled? && e.who == ByUpgrade(n) && e.role.OldBackend?
  }

  ghost predicate Untouched(log: seq<Event>, n: nat) {
    forall e :: e in log ==> !Writes(e, n) && !KillsPrev(e, n)
  }

  ghost predicate PrevSpared(log: seq<Event>, n: nat) {
    forall e :: e in log ==> !KillsPrev(e, n)
  }

  ghost predicate NotRolledBack(log: seq<Event>, n: nat) {
    forall e :: e in log ==> !(e.RolledBack? && e.n == n)
  }

  ghost predicate OutcomeSound(log: seq<Event>, n: nat, phase: Phase) {
    match phase
    case SpawnFailed | PrewarmFailed | Superseded => Untouched(log, n)
    case DiedPostFlip => PrevSpared(log, n)
    case Complete => NotRolledBack(log, n)
  }

  ghost predicate DrainEndedBefore(log: seq<Event>, i: nat, n: nat) {
    exists k :: 0 <= k < i <= |log| && log[k].DrainEnded? && log[k].n == n
  }

  ghost predicate ProvenBefore(log: seq<Event>, i: nat, n: nat) {
    exists j :: 0 <= j < i <= |log| && log[j].SawNextAlive? && log[j].n == n && DrainEndedBefore(log, j, n)
  }

  ghost predicate KillsProven(log: seq<Event>) {
    forall i, n: nat :: 0 <= i < |log| && KillsPrev(log[i], n) ==> ProvenBefore(log, i, n)
  }

  ghost predicate Numbered(s: Gw) {
    && (forall e, n: nat :: e in s.log && OfUpgrade(e, n) ==> n <= s.upgradeNo)
    && (s.running ==> forall e :: e in s.log && e.Finished? ==> e.n < s.upgradeNo)
  }

  ghost predicate OutcomesSound(s: Gw) {
    forall e :: e in s.log && e.Finished? ==> OutcomeSound(s.log, e.n, e.phase)
  }

  ghost predicate RunningSound(s: Gw) {
    var n := s.upgradeNo;
    match s.up
    case UIdle => true
    case UStarted | USpawning(_) | UPrewarm(_, _) | UFlipping(_, _) | UKillNext(_, _, _)
       | UFinishingUnspawned => Untouched(s.log, n)
    case UFinishing(_, phase) => OutcomeSound(s.log, n, phase)
    case UDraining(_, _, _) => PrevSpared(s.log, n) && NotRolledBack(s.log, n)
    case UPolling(prev, _, _, _) =>
      && PrevSpared(s.log, n) && NotRolledBack(s.log, n)
      && (prev.Some? ==> DrainEndedBefore(s.log, |s.log|, n))
    case UKillOld(_, _, _, _) =>
      PrevSpared(s.log, n) && NotRolledBack(s.log, n) && ProvenBefore(s.log, |s.log|, n)
    case URollingBack(_, _) | URestoring(_, _, _) => PrevSpared(s.log, n)
  }

  ghost predicate HistorySound(s: Gw) {
    Numbered(s) && OutcomesSound(s) && RunningSound(s) && KillsProven(s.log)
  }

  // ---- one event more -----------------------------------------------------------------

  /** A step logs nothing or one event, and an upgrade's events carry its number. */
  lemma UpgradeLogs(s: Gw, u: UpgradeLabel) returns (e: Event)
    ensures var t := UpgradeStep(s, u);
            t.log == s.log || (t.log == s.log + [e] && OfUpgrade(e, s.upgradeNo))
  {
    var t := UpgradeStep(s, u);
    e := if |t.log| > |s.log| then t.log[|s.log|] else Finished(0, Complete);
  }

  predicate ByWatchdogAlone(e: Event) {
    e.Healed? || (e.Signalled? && !e.who.ByUpgrade?)
  }

  lemma WatchdogLogs(s: Gw, w: WatchdogLabel) returns (e: Event)
    ensures var t := WatchdogStep(s, w);
            t.log == s.log || (t.log == s.log + [e] && ByWatchdogAlone(e))
  {
    var t := WatchdogStep(s, w);
    e := if |t.log| > |s.log| then t.log[|s.log|] else Healed(None, Backend(0, 0), Backend(0, 0));
  }

  /** Nothing in the log belongs to an upgrade that has not started. */
  lemma UnstartedUntouched(s: Gw)
    requires Numbered(s)
    ensures Untouched(s.log, s.upgradeNo + 1)
    ensures forall e :: e in s.log && e.Finished? ==> e.n <= s.upgradeNo
  {
    forall e | e in s.log
      ensures !Writes(e, s.upgradeNo + 1) && !KillsPrev(e, s.upgradeNo + 1)
      ensures e.Finished? ==> e.n <= s.upgradeNo
    {
      assert !OfUpgrade(e, s.upgradeNo + 1);
      assert e.Finished? ==> OfUpgrade(e, e.n);
    }
  }

  lemma AppendKeepsOutcome(log: seq<Event>, e: Event, n: nat, phase: Phase)
    requires OutcomeSound(log, n, phase) && !OfUpgrade(e, n)
    ensures OutcomeSound(log + [e], n, phase)
  {
  }

  lemma AppendKeepsProof(log: seq<Event>, e: Event, i: nat, n: nat)
    requires i <= |log|
    ensures DrainEndedBefore(log, i, n) ==> DrainEndedBefore(log + [e], i, n)
    ensures ProvenBefore(log, i, n) ==> ProvenBefore(log + [e], i, n)
  {
    if DrainEndedBefore(log, i, n) {
      var k :| 0 <= k < i <= |log| && log[k].DrainEnded? && log[k].n == n;
      assert (log + [e])[k] == log[k];
    }
    if ProvenBefore(log, i, n) {
      var j :| 0 <= j < i <= |log| && log[j].SawNextAlive? && log[j].n == n && DrainEndedBefore(log, j, n);
      var k :| 0 <= k < j && log[k].DrainEnded? && log[k].n == n;
      assert (log + [e])[k] == log[k] && (log + [e])[j] == log[j];
      assert DrainEndedBefore(log + [e], j, n);
    }
  }

  lemma AppendKeepsKillsProven(log: seq<Event>, e: Event)
    requires KillsProven(log)
    requires forall n: nat :: KillsPrev(e, n) ==> ProvenBefore(log, |log|, n)
    ensures KillsProven(log + [e])
  {
    forall i, n | 0 <= i < |log + [e]| && KillsPrev((log + [e])[i], n)
      ensures ProvenBefore(log + [e], i, n)
    {
      assert (log + [e])[i] == if i < |log| then log[i] else e;
      AppendKeepsProof(log, e, i, n);
    }
  }

  // ---- every step keeps the history sound -----------------------------------------------

  lemma UpgradeKeepsKillsProven(s: Gw, u: UpgradeLabel)
    requires Safe(s) && HistorySound(s)
    ensures KillsProven(UpgradeStep(s, u).log)
  {
    var t := UpgradeStep(s, u);
    var e := UpgradeLogs(s, u);
    if t.log != s.log {
      assert t.log[|s.log|] == e;
      AppendKeepsKillsProven(s.log, e);
    }
  }

  lemma UpgradeKeepsNumbers(s: Gw, u: UpgradeLabel)
    requires Safe(s) && HistorySound(s)
    ensures Numbered(UpgradeStep(s, u))
  {
    var t := UpgradeStep(s, u);
    var e := UpgradeLogs(s, u);
    UnstartedUntouched(s);
    if t.log != s.log {
      assert t.log[|s.log|] == e;
    }
  }

  lemma AppendKeepsOutcomes(s: Gw, e: Event, n: nat)
    requires Numbered(s) && OutcomesSound(s) && OfUpgrade(e, n)
    requires forall x :: x in s.log && x.Finished? ==> x.n != n
    ensures forall x :: x in s.log && x.Finished? ==> OutcomeSound(s.log + [e], x.n, x.phase)
  {
    forall x | x in s.log && x.Finished?
      ensures OutcomeSound(s.log + [e], x.n, x.phase)
    {
      AppendKeepsOutcome(s.log, e, x.n, x.phase);
    }
  }

  lemma UpgradeKeepsOutcomes(s: Gw, u: UpgradeLabel)
    requires Safe(s) && HistorySound(s)
    ensures OutcomesSound(UpgradeStep(s, u))
  {
    var t := UpgradeStep(s, u);
    var e := UpgradeLogs(s, u);
    if t.log != s.log {
      assert t.log[|s.log|] == e;
      AppendKeepsOutcomes(s, e, s.upgradeNo);
    }
  }

  /** The end of the drain and the poll that follows it are on record before anything relies on
      them. */
  lemma DrainRecorded(s: Gw, u: UpgradeLabel)
    requires Safe(s) && HistorySound(s)
    ensures var t := UpgradeStep(s, u);
            && (t.up.UPolling? && t.up.prev.Some? ==> DrainEndedBefore(t.log, |t.log|, t.upgradeNo))
            && (t.up.UKillOld? ==> ProvenBefore(t.log, |t.log|, t.upgradeNo))
  {
    var t := UpgradeStep(s, u);
    if t.log != s.log {
      var e := t.log[|s.log|];
      if t.up.UPolling? {
        assert t.upgradeNo == s.upgradeNo && t.log == s.log + [e];
        assert t.log[|s.log|] == e;
      } else if t.up.UKillOld? {
        assert t.upgradeNo == s.upgradeNo && t.log == s.log + [e];
        AppendKeepsProof(s.log, e, |s.log|, s.upgradeNo);
        assert t.log[|s.log|] == e;
      }
    }
  }

  lemma UpToFlipKeepsRunningSound(s: Gw, u: UpgradeLabel)
    requires Safe(s) && HistorySound(s)
    requires u.Start? || u.Capture? || u.SpawnOk? || u.SpawnError? || u.Ready? || u.NotReady? || u.Flip?
    ensures RunningSound(UpgradeStep(s, u))
  {
    UnstartedUntouched(s);
  }

  lemma AfterFlipKeepsRunningSound(s: Gw, u: UpgradeLabel)
    requires Safe(s) && HistorySound(s)
    requires u.WatchNext? || u.ReadCount? || u.Deadline? || u.PollNext? || u.PollPrev?
    ensures RunningSound(UpgradeStep(s, u))
  {
    DrainRecorded(s, u);
  }

  lemma EndKeepsRunningSound(s: Gw, u: UpgradeLabel)
    requires Safe(s) && HistorySound(s)
    requires u.Restore? || u.UKill? || u.Finish?
    ensures RunningSound(UpgradeStep(s, u))
  {
    DrainRecorded(s, u);
  }

  lemma UpgradeKeepsHistory(s: Gw, u: UpgradeLabel)
    requires Safe(s) && HistorySound(s)
    ensures HistorySound(UpgradeStep(s, u))
  {
    UpgradeKeepsKillsProven(s, u);
    UpgradeKeepsNumbers(s, u);
    UpgradeKeepsOutcomes(s, u);
    match u
    case WatchNext | ReadCount | Deadline | PollNext | PollPrev => AfterFlipKeepsRunningSound(s, u);
    case Restore | UKill(_) | Finish => EndKeepsRunningSound(s, u);
    case _ => UpToFlipKeepsRunningSound(s, u);
  }

  /** An event of no upgrade changes nothing in any upgrade's history. */
  lemma AppendKeepsHistory(s: Gw, t: Gw, e: Event)
    requires HistorySound(s) && t.log == s.log + [e] && ByWatchdogAlone(e)
    requires t.up == s.up && t.upgradeNo == s.upgradeNo && t.running == s.running
    ensures HistorySound(t)
  {
    AppendKeepsKillsProven(s.log, e);
    AppendKeepsProof(s.log, e, |s.log|, s.upgradeNo);
    forall n: nat, phase | OutcomeSound(s.log, n, phase)
      ensures OutcomeSound(t.log, n, phase)
    {
      AppendKeepsOutcome(s.log, e, n, phase);
    }
  }

  lemma WatchdogKeepsHistory(s: Gw, w: WatchdogLabel)
    requires Safe(s) && HistorySound(s)
    ensures HistorySound(WatchdogStep(s, w))
  {
    var t := WatchdogStep(s, w);
    var e := WatchdogLogs(s, w);
    assert t.up == s.up && t.upgradeNo == s.upgradeNo && t.running == s.running;
    if t.log != s.log {
      AppendKeepsHistory(s, t, e);
    }
  }
}
