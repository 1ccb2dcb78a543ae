/** The log of a gateway run is the whole truth: it explains which backend is current, and no backend
    appears or disappears without a spawn, a signal on record, or a death of its own. */
module GatewayLog {
  import opened Options
  import opened GatewayState
  import opened Gateway
  import opened GatewayTheorems

  /** The current backend after an event. */
  function After(current: Option<Backend>, e: Event): Option<Backend> {
    match e
    case Flipped(_, _, _, next) => Some(next)
    case RolledBack(_, _, _, _, _, to) => to
    case Healed(_, _, repl) => Some(repl)
    case _ => current
  }

  function CurrentAfter(first: Option<Backend>, log: seq<Event>): Option<Backend> {
    if log == [] then first else After(CurrentAfter(first, log[..|log| - 1]), log[|log| - 1])
  }

  /** What the event says is so in the state it was logged in. */
  predicate Records(e: Event, s: Gw) {
    match e
    case Captured(n, prev) => n == s.upgradeNo && prev == s.current
    case Flipped(n, overwritten, prev, next) =>
      n == s.upgradeNo && overwritten == s.current && s.up == UFlipping(prev, next)
    case DrainEnded(n, result, gap) => n == s.upgradeNo && RecordsDrain(s, result, gap)
    case SawNextAlive(n, next) =>
      n == s.upgradeNo && s.up.UPolling? && s.up.next == next && next in s.live && s.up.result != WatchDied
    case PolledPrev(n, alive) =>
      n == s.upgradeNo && s.up.URollingBack? && (alive <==> s.up.prev.Some? && s.up.prev.value in s.live)
    case RolledBack(n, overwritten, next, prev, prevAlive, _) =>
      n == s.upgradeNo && overwritten == s.current && s.up == URestoring(prev, next, prevAlive)
    case Healed(overwritten, proc, repl) =>
      overwritten == s.current && s.wd == WDeciding(proc, repl, true, false)
    case Signalled(who, target, role, currentThen, interrupted) =>
      && target in s.live && currentThen == s.current
      && interrupted == InState(s.traffic.requests, Counted(target.port))
      && RecordsKiller(s, who, target, role)
    case Finished(n, _) => n == s.upgradeNo && s.running
  }

  /** The drain ended as it says, and `gap` are the requests that have read the old port and are not
      counted on it. */
  predicate RecordsDrain(s: Gw, result: DrainResult, gap: set<nat>) {
    s.up.UDraining? && s.up.prev.Some? &&
    var port := s.up.prev.value.port;
    && gap == InState(s.traffic.requests, Bound(port))
    && match result
       case Drained => InflightAt(s.traffic.inflight, port) == 0
       case TimedOut => InflightAt(s.traffic.inflight, port) > 0
       case WatchDied => s.up.next !in s.live
  }

  /** The thread that signals, and what the target is to it. */
  predicate RecordsKiller(s: Gw, who: Actor, target: Backend, role: Role) {
    match who
    case ByUpgrade(n) =>
      n == s.upgradeNo &&
      (match role
       case OldBackend(result, gap) => s.up.UKillOld? && s.up.prev == Some(target) && s.up.result == result && s.up.gap == gap
       case NeverLive => s.up.UKillNext? && s.up.next == target
       case HealedAway => false)
    case ByWatchdog =>
      match role
      case OldBackend(_, _) => false
      case NeverLive => s.wd.WKillRepl? && s.wd.repl == target
      case HealedAway => s.wd.WKillProc? && s.wd.proc == target
  }

  /** A step logs nothing and assigns nothing, or logs one event that is true and says what it assigned. */
  ghost predicate Logged(s: Gw, t: Gw) {
    || (t.log == s.log && t.current == s.current)
    || (|t.log| == |s.log| + 1 && t.log[..|s.log|] == s.log &&
        t.current == After(s.current, t.log[|s.log|]) && Records(t.log[|s.log|], s))
  }

  lemma OneMoreEvent(s: Gw, t: Gw, e: Event)
    requires t.log == s.log + [e] && t.current == After(s.current, e) && Records(e, s)
    ensures Logged(s, t)
  {
  }

  lemma AssignmentIsLogged(s: Gw, u: UpgradeLabel)
    requires u.Flip? || u.Restore? || u.Capture?
    ensures Logged(s, UpgradeStep(s, u))
  {
    var t := UpgradeStep(s, u);
    if t.log != s.log {
      OneMoreEvent(s, t, t.log[|s.log|]);
    }
  }

  lemma DrainIsLogged(s: Gw, u: UpgradeLabel)
    requires u.WatchNext? || u.ReadCount? || u.Deadline?
    ensures Logged(s, UpgradeStep(s, u))
  {
    var t := UpgradeStep(s, u);
    if t.log != s.log {
      OneMoreEvent(s, t, t.log[|s.log|]);
    }
  }

  lemma EndIsLogged(s: Gw, u: UpgradeLabel)
    requires s.running <==> s.up != UIdle
    requires u.PollNext? || u.PollPrev? || u.UKill? || u.Finish?
    ensures Logged(s, UpgradeStep(s, u))
  {
    var t := UpgradeStep(s, u);
    if t.log != s.log {
      OneMoreEvent(s, t, t.log[|s.log|]);
    }
  }

  lemma UpgradeIsLogged(s: Gw, u: UpgradeLabel)
    requires s.running <==> s.up != UIdle
    ensures Logged(s, UpgradeStep(s, u))
  {
    match u
    case Flip | Restore | Capture => AssignmentIsLogged(s, u);
    case WatchNext | ReadCount | Deadline => DrainIsLogged(s, u);
    case PollNext | PollPrev | UKill(_) | Finish => EndIsLogged(s, u);
    case _ =>
  }

  lemma WatchdogIsLogged(s: Gw, w: WatchdogLabel)
    ensures Logged(s, WatchdogStep(s, w))
  {
    var t := WatchdogStep(s, w);
    if t.log != s.log {
      var e := t.log[|s.log|];
      assert t.log == s.log + [e];
      OneMoreEvent(s, t, e);
    }
  }

  lemma NextIsLogged(s: Gw, l: Label)
    requires s.running <==> s.up != UIdle
    ensures Logged(s, Next(s, l))
  {
    match l
    case Up(u) => UpgradeIsLogged(s, u);
    case Wd(w) => WatchdogIsLogged(s, w);
    case Die(_) =>
    case Req(_) =>
  }

  /** Every entry of the log of any run was written by one step of it, in order, and is true of the state
      that step found: who was current, who was alive, what was counted, what had only been read, and
      what the thread was about to do. */
  lemma {:induction false} LogIsTrue(b: Backend, labels: seq<Label>, states: seq<Gw>, i: nat, k: nat) returns (j: nat)
    requires IsRun(b, labels, states) && i <= |labels| && k < |states[i].log|
    ensures j < i && states[j].log == states[i].log[..k] && states[j + 1].log == states[i].log[..k + 1]
    ensures Records(states[i].log[k], states[j])
  {
    var s, t := states[i - 1], states[i];
    FlipToFinishOwnsCurrent(b, labels, states, i - 1);
    NextIsLogged(s, labels[i - 1]);
    if k < |s.log| {
      j := LogIsTrue(b, labels, states, i - 1, k);
      assert t.log[..k] == s.log[..k] && t.log[..k + 1] == s.log[..k + 1] && t.log[k] == s.log[k];
    } else {
      j := i - 1;
      assert t.log == t.log[..k + 1];
    }
  }

  /** In every run the log replays to the current backend. */
  lemma {:induction false} LogExplainsCurrent(b: Backend, labels: seq<Label>, states: seq<Gw>, i: nat)
    requires IsRun(b, labels, states) && i <= |labels|
    ensures states[i].current == CurrentAfter(Some(b), states[i].log)
  {
    if i > 0 {
      LogExplainsCurrent(b, labels, states, i - 1);
      FlipToFinishOwnsCurrent(b, labels, states, i - 1);
      NextIsLogged(states[i - 1], labels[i - 1]);
      Replays(Some(b), states[i - 1], states[i]);
    }
  }

  lemma Replays(first: Option<Backend>, s: Gw, t: Gw)
    requires Logged(s, t) && s.current == CurrentAfter(first, s.log)
    ensures t.current == CurrentAfter(first, t.log)
  {
    if |t.log| == |s.log| + 1 {
      assert t.log[..|t.log| - 1] == s.log;
    }
  }

  /** The step signals `x` on record. */
  ghost predicate Signals(s: Gw, t: Gw, x: Backend) {
    |t.log| == |s.log| + 1 && t.log[|s.log|].Signalled? && t.log[|s.log|].target == x
  }

  lemma UpgradeEndsOnRecord(s: Gw, u: UpgradeLabel, x: Backend)
    ensures var t := UpgradeStep(s, u);
      && (x in s.live && x !in t.live ==> Signals(s, t, x))
      && (x in t.live && x !in s.live ==> u.SpawnOk? && x == Backend(s.nextPid, u.port))
  {
  }

  lemma WatchdogEndsOnRecord(s: Gw, w: WatchdogLabel, x: Backend)
    ensures var t := WatchdogStep(s, w);
      && (x in s.live && x !in t.live ==> Signals(s, t, x))
      && (x in t.live && x !in s.live ==> w.WSpawnOk? && x == Backend(s.nextPid, w.port))
  {
  }

  /** A live backend is gone after a step only if it died by itself or was signalled on record, and a
      backend is new only if it was just spawned. */
  lemma NoSilentKills(s: Gw, l: Label, x: Backend)
    ensures var t := Next(s, l);
      && (x in s.live && x !in t.live ==> l == Die(x) || Signals(s, t, x))
      && (x in t.live && x !in s.live ==>
            ((l.Up? && l.u.SpawnOk?) || (l.Wd? && l.w.WSpawnOk?)) && x.pid == s.nextPid)
  {
    match l
    case Up(u) => UpgradeEndsOnRecord(s, u, x);
    case Wd(w) => WatchdogEndsOnRecord(s, w, x);
    case Die(_) =>
    case Req(_) =>
  }
}
