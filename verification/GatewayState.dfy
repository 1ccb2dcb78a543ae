/** The blue-green gateway of memnos_gateway.py as a machine whose steps interleave freely.

    Three kinds of actor share the current backend without a common lock: the rolling-upgrade
    thread, the watchdog thread and any number of request threads. A label names the next step
    of one of them, or the death of a backend; a label whose actor is not at that point of its
    program changes nothing, so every sequence of labels is a run. */
module GatewayState {
  import opened Options

  /** A process handle. Handles are never reused: each spawn takes a fresh `pid`. */
  datatype Backend = Backend(pid: nat, port: nat)

  const DRAIN_CONFIRM_POLLS: nat := 2

  datatype DrainResult = Drained | TimedOut | WatchDied

  datatype Phase = SpawnFailed | PrewarmFailed | Superseded | DiedPostFlip | Complete

  /** Where the upgrade thread stands, with the locals it still needs. */
  datatype Upgrade =
    | UIdle
    | UStarted
    | USpawning(prev: Option<Backend>)
    | UPrewarm(prev: Option<Backend>, next: Backend)
    | UFlipping(prev: Option<Backend>, next: Backend)
    | UKillNext(prev: Option<Backend>, next: Backend, why: Phase)
    | UDraining(prev: Option<Backend>, next: Backend, zeros: nat)
    | UPolling(prev: Option<Backend>, next: Backend, result: DrainResult, gap: set<nat>)
    | URollingBack(prev: Option<Backend>, next: Backend)
    | URestoring(prev: Option<Backend>, next: Backend, prevAlive: bool)
    | UKillOld(prev: Option<Backend>, next: Backend, result: DrainResult, gap: set<nat>)
    | UFinishing(next: Backend, phase: Phase)
    | UFinishingUnspawned

  /** Where the watchdog thread stands, with the locals it still needs. */
  datatype Watchdog =
    | WIdle
    | WAllowed
    | WProbing(proc: Backend)
    | WSpawning(proc: Backend)
    | WPrewarm(proc: Backend, repl: Backend)
    | WReading(proc: Backend, repl: Backend, ready: bool)
    | WDeciding(proc: Backend, repl: Backend, ready: bool, busy: bool)
    | WKillRepl(proc: Backend, repl: Backend)
    | WKillProc(proc: Backend)

  /** A request between its snapshot of the current port and its increment is `Bound`;
      between increment and decrement it is `Counted`. */
  datatype Request = Bound(port: nat) | Counted(port: nat)

  datatype Actor = ByUpgrade(n: nat) | ByWatchdog

  datatype Role = OldBackend(result: DrainResult, gap: set<nat>) | NeverLive | HealedAway

  /** What the outside world could observe, in order. Upgrades are numbered from 1. */
  datatype Event =
    | Captured(n: nat, prev: Option<Backend>)
    | Flipped(n: nat, overwritten: Option<Backend>, prev: Option<Backend>, next: Backend)
    | DrainEnded(n: nat, result: DrainResult, gap: set<nat>)
    | SawNextAlive(n: nat, next: Backend)
    | PolledPrev(n: nat, alive: bool)
    | RolledBack(n: nat, overwritten: Option<Backend>, next: Backend, prev: Option<Backend>,
                 prevAlive: bool, to: Option<Backend>)
    | Healed(overwritten: Option<Backend>, proc: Backend, repl: Backend)
    | Signalled(who: Actor, target: Backend, role: Role, currentThen: Option<Backend>,
                interrupted: set<nat>)
    | Finished(n: nat, phase: Phase)

  datatype Traffic = Traffic(inflight: map<nat, nat>, requests: map<nat, Request>, nextRequest: nat)

  datatype Gw = Gw(
    current: Option<Backend>,
    live: set<Backend>,
    signalled: set<Backend>,
    nextPid: nat,
    running: bool,
    upgradeNo: nat,
    up: Upgrade,
    wd: Watchdog,
    traffic: Traffic,
    log: seq<Event>)

  datatype UpgradeLabel =
    | Start
    | Capture
    | SpawnOk(port: nat)
    | SpawnError
    | Ready
    | NotReady
    | Flip
    | WatchNext
    | ReadCount
    | Deadline
    | PollNext
    | PollPrev
    | Restore
    | UKill(survives: bool)
    | Finish

  datatype WatchdogLabel =
    | WCheck
    | WCapture
    | WProbe(heal: bool)
    | WSpawnOk(port: nat)
    | WSpawnError
    | WReady(ready: bool)
    | WRead
    | WDecide
    | WKill(survives: bool)

  datatype RequestLabel = Bind | Count(r: nat) | Done(r: nat)

  datatype Label = Die(b: Backend) | Up(u: UpgradeLabel) | Wd(w: WatchdogLabel) | Req(q: RequestLabel)

  // ---- what each thread holds ---------------------------------------------------------

  function PrevOf(u: Upgrade): Option<Backend> {
    match u
    case UIdle | UStarted | UFinishing(_, _) | UFinishingUnspawned => None
    case _ => u.prev
  }

  /** The upgrade's backend exists but has not been published yet. */
  predicate PreFlip(u: Upgrade) {
    u.UPrewarm? || u.UFlipping? || u.UKillNext?
  }

  /** From the flip to the moment the upgrade reports that it finished. */
  predicate FlipToFinish(u: Upgrade) {
    u.UDraining? || u.UPolling? || u.URollingBack? || u.URestoring? || u.UKillOld? ||
    (u.UFinishing? && u.phase == Complete)
  }

  function NextOf(u: Upgrade): Option<Backend> {
    if PreFlip(u) || FlipToFinish(u) then Some(u.next) else None
  }

  function ProcOf(w: Watchdog): Option<Backend> {
    if w.WIdle? || w.WAllowed? then None else Some(w.proc)
  }

  /** The watchdog's replacement exists but has not been published. */
  function ReplOf(w: Watchdog): Option<Backend> {
    if w.WPrewarm? || w.WReading? || w.WDeciding? || w.WKillRepl? then Some(w.repl) else None
  }

  predicate Spawned(s: Gw, b: Option<Backend>) {
    b.Some? ==> b.value.pid < s.nextPid
  }

  predicate IdsFresh(s: Gw) {
    (forall b :: b in s.live ==> b.pid < s.nextPid) &&
    Spawned(s, s.current) && Spawned(s, PrevOf(s.up)) && Spawned(s, NextOf(s.up)) &&
    Spawned(s, ProcOf(s.wd)) && Spawned(s, ReplOf(s.wd))
  }

  predicate UpgradeOwns(s: Gw) {
    && (s.running <==> s.up != UIdle)
    && (PreFlip(s.up) ==>
          && s.current != NextOf(s.up) && PrevOf(s.up) != NextOf(s.up)
          && ProcOf(s.wd) != NextOf(s.up) && ReplOf(s.wd) != NextOf(s.up))
    && (s.up.UKillNext? ==> s.up.why == PrewarmFailed || s.up.why == Superseded)
    && (FlipToFinish(s.up) ==>
          && s.current == NextOf(s.up) && PrevOf(s.up) != NextOf(s.up)
          && ReplOf(s.wd) != NextOf(s.up))
  }

  predicate WatchdogOwns(s: Gw) {
    && (ReplOf(s.wd).Some? ==>
          && s.current != ReplOf(s.wd) && ProcOf(s.wd) != ReplOf(s.wd) && PrevOf(s.up) != ReplOf(s.wd))
       // a decision taken on "no upgrade is running" is never about that upgrade's own backend
    && (s.wd.WDeciding? && !s.wd.busy && FlipToFinish(s.up) ==> ProcOf(s.wd) != NextOf(s.up))
    && (s.wd.WKillProc? ==>
          && s.current != ProcOf(s.wd)
          && (FlipToFinish(s.up) ==> ProcOf(s.wd) != NextOf(s.up) && ProcOf(s.wd) != PrevOf(s.up)))
  }

  predicate Owned(s: Gw) {
    IdsFresh(s) && UpgradeOwns(s) && WatchdogOwns(s)
  }

  // ---- no orphans ---------------------------------------------------------------------

  /** A thread still holds `b` in a local and will either kill it or publish it. */
  predicate Held(s: Gw, b: Backend) {
    || (PreFlip(s.up) && s.up.next == b)
    || ((s.up.UDraining? || s.up.UPolling? || s.up.URollingBack? || s.up.URestoring? || s.up.UKillOld?)
        && s.up.prev == Some(b))
    || ReplOf(s.wd) == Some(b)
    || (s.wd.WKillProc? && s.wd.proc == b)
  }

  /** What the upgrade believes dead is dead, and stays so. */
  predicate DeathsRemembered(s: Gw) {
    && (s.up.UPolling? && s.up.result == WatchDied ==> s.up.next !in s.live)
    && (s.up.URollingBack? || s.up.URestoring? ==> s.up.next !in s.live)
    && (s.up.URestoring? && !s.up.prevAlive && s.up.prev.Some? ==> s.up.prev.value !in s.live)
  }

  predicate NoOrphans(s: Gw) {
    forall b :: b in s.live ==> s.current == Some(b) || b in s.signalled || Held(s, b)
  }

  predicate Safe(s: Gw) {
    Owned(s) && DeathsRemembered(s) && NoOrphans(s)
  }

  /** The step from `s` to `t` keeps it. */
  predicate Keeps(s: Gw, t: Gw) {
    !Safe(s) || Safe(t)
  }
}
