/** The steps of the gateway's actors. Each one keeps GatewayState.Safe: that is the contract of
    every step function below. */
module Gateway {
  import opened Options
  import opened GatewayState

  // ---- shared pieces ------------------------------------------------------------------

  function InflightAt(m: map<nat, nat>, port: nat): nat {
    if port in m then m[port] else 0
  }

  function Incremented(m: map<nat, nat>, port: nat): map<nat, nat> {
    m[port := InflightAt(m, port) + 1]
  }

  /** `max(0, n - 1)`: the clamp is in the code. */
  function Decremented(m: map<nat, nat>, port: nat): map<nat, nat> {
    m[port := if InflightAt(m, port) >= 1 then InflightAt(m, port) - 1 else 0]
  }

  function InState(requests: map<nat, Request>, q: Request): set<nat> {
    set r | r in requests && requests[r] == q
  }

  /** A handle for a new process on a port no live backend holds. */
  predicate PortFree(s: Gw, port: nat) {
    forall b :: b in s.live ==> b.port != port
  }

  /** Nothing is signalled when the process has already exited; otherwise it is sent SIGTERM and,
      if need be, SIGKILL, and may still outlive both waits. */
  function Killed(s: Gw, who: Actor, b: Backend, role: Role, survives: bool): Gw {
    if b !in s.live then s
    else s.(live := if survives then s.live else s.live - {b},
            signalled := s.signalled + {b},
            log := s.log + [Signalled(who, b, role, s.current, InState(s.traffic.requests, Counted(b.port)))])
  }

  // ---- the upgrade thread -------------------------------------------------------------

  function StartStep(s: Gw): (t: Gw)
    ensures Keeps(s, t)
  {
    if s.running then s
    else s.(running := true, upgradeNo := s.upgradeNo + 1, up := UStarted)
  }

  function CaptureStep(s: Gw): (t: Gw)
    ensures Keeps(s, t)
  {
    if s.up.UStarted? then s.(up := USpawning(s.current), log := s.log + [Captured(s.upgradeNo, s.current)]) else s
  }

  function SpawnStep(s: Gw, port: nat): (t: Gw)
    ensures Keeps(s, t)
  {
    if s.up.USpawning? && PortFree(s, port) then
      var b := Backend(s.nextPid, port);
      s.(live := s.live + {b}, nextPid := s.nextPid + 1, up := UPrewarm(s.up.prev, b))
    else s
  }

  function SpawnErrorStep(s: Gw): (t: Gw)
    ensures Keeps(s, t)
  {
    if s.up.USpawning? then s.(up := UFinishingUnspawned) else s
  }

  /** A backend that has exited is never reported ready. */
  function ReadyStep(s: Gw): (t: Gw)
    ensures Keeps(s, t)
  {
    if s.up.UPrewarm? && s.up.next in s.live then s.(up := UFlipping(s.up.prev, s.up.next)) else s
  }

  function NotReadyStep(s: Gw): (t: Gw)
    ensures Keeps(s, t)
  {
    if s.up.UPrewarm? then s.(up := UKillNext(s.up.prev, s.up.next, PrewarmFailed)) else s
  }

  /** The identity test and the flip it guards are one step. */
  function FlipStep(s: Gw): (t: Gw)
    ensures Keeps(s, t)
  {
    if !s.up.UFlipping? then s
    else
      var u := s.up;
      if s.current != u.prev then s.(up := UKillNext(u.prev, u.next, Superseded))
      else s.(current := Some(u.next),
              up := if u.prev.Some? then UDraining(u.prev, u.next, 0)
                    else UPolling(u.prev, u.next, Drained, {}),
              log := s.log + [Flipped(s.upgradeNo, s.current, u.prev, u.next)])
  }

  /** `gap` is the set of requests that had read the old port but were not counted yet when the
      drain loop took its last look. */
  function AfterDrain(s: Gw, result: DrainResult): Gw
    requires s.up.UDraining? && s.up.prev.Some?
  {
    var gap := InState(s.traffic.requests, Bound(s.up.prev.value.port));
    s.(up := UPolling(s.up.prev, s.up.next, result, gap),
       log := s.log + [DrainEnded(s.upgradeNo, result, gap)])
  }

  /** The drain loop's poll of the new backend. */
  function WatchNextStep(s: Gw): (t: Gw)
    ensures Keeps(s, t)
  {
    if s.up.UDraining? && s.up.prev.Some? && s.up.next !in s.live then AfterDrain(s, WatchDied) else s
  }

  /** The drain loop's reading of the old port's counter; two zeros in a row end the drain. */
  function ReadCountStep(s: Gw): (t: Gw)
    ensures Keeps(s, t)
  {
    if !s.up.UDraining? || s.up.prev.None? then s
    else if InflightAt(s.traffic.inflight, s.up.prev.value.port) > 0 then s.(up := s.up.(zeros := 0))
    else if s.up.zeros + 1 >= DRAIN_CONFIRM_POLLS then AfterDrain(s, Drained)
    else s.(up := s.up.(zeros := s.up.zeros + 1))
  }

  /** The drain deadline passes: one last reading decides. */
  function DeadlineStep(s: Gw): (t: Gw)
    ensures Keeps(s, t)
  {
    if !s.up.UDraining? || s.up.prev.None? then s
    else AfterDrain(s, if InflightAt(s.traffic.inflight, s.up.prev.value.port) > 0 then TimedOut else Drained)
  }

  function PollNextStep(s: Gw): (t: Gw)
    ensures Keeps(s, t)
  {
    if !s.up.UPolling? then s
    else
      var u := s.up;
      if u.result == WatchDied || u.next !in s.live then s.(up := URollingBack(u.prev, u.next))
      else s.(up := if u.prev.Some? then UKillOld(u.prev, u.next, u.result, u.gap)
                    else UFinishing(u.next, Complete),
              log := s.log + [SawNextAlive(s.upgradeNo, u.next)])
  }

  function PollPrevStep(s: Gw): (t: Gw)
    ensures Keeps(s, t)
  {
    if !s.up.URollingBack? then s
    else
      var alive := s.up.prev.Some? && s.up.prev.value in s.live;
      s.(up := URestoring(s.up.prev, s.up.next, alive), log := s.log + [PolledPrev(s.upgradeNo, alive)])
  }

  /** The rollback assignment tests nothing: that it overwrites only the upgrade's own backend is
      a theorem, not a guard. */
  function RestoreStep(s: Gw): (t: Gw)
    ensures Keeps(s, t)
  {
    if !s.up.URestoring? then s
    else
      var u := s.up;
      var to := if u.prevAlive then u.prev else None;
      s.(current := to, up := UFinishing(u.next, DiedPostFlip),
         log := s.log + [RolledBack(s.upgradeNo, s.current, u.next, u.prev, u.prevAlive, to)])
  }

  function UKillStep(s: Gw, survives: bool): (t: Gw)
    ensures Keeps(s, t)
  {
    var u := s.up;
    if u.UKillNext? then
      Killed(s, ByUpgrade(s.upgradeNo), u.next, NeverLive, survives).(up := UFinishing(u.next, u.why))
    else if u.UKillOld? && u.prev.Some? then
      Killed(s, ByUpgrade(s.upgradeNo), u.prev.value, OldBackend(u.result, u.gap), survives)
      .(up := UFinishing(u.next, Complete))
    else s
  }

  function FinishStep(s: Gw): (t: Gw)
    ensures Keeps(s, t)
  {
    if s.up.UFinishing? || s.up.UFinishingUnspawned? then
      var phase := if s.up.UFinishing? then s.up.phase else SpawnFailed;
      s.(running := false, up := UIdle, log := s.log + [Finished(s.upgradeNo, phase)])
    else s
  }

  function UpgradeStep(s: Gw, u: UpgradeLabel): (t: Gw)
    ensures Keeps(s, t)
    ensures t.traffic == s.traffic && t.wd == s.wd
  {
    match u
    case Start => StartStep(s)
    case Capture => CaptureStep(s)
    case SpawnOk(port) => SpawnStep(s, port)
    case SpawnError => SpawnErrorStep(s)
    case Ready => ReadyStep(s)
    case NotReady => NotReadyStep(s)
    case Flip => FlipStep(s)
    case WatchNext => WatchNextStep(s)
    case ReadCount => ReadCountStep(s)
    case Deadline => DeadlineStep(s)
    case PollNext => PollNextStep(s)
    case PollPrev => PollPrevStep(s)
    case Restore => RestoreStep(s)
    case UKill(survives) => UKillStep(s, survives)
    case Finish => FinishStep(s)
  }

  // ---- the watchdog thread ------------------------------------------------------------

  /** The first reading of "an upgrade is running", which may be stale by the next step. */
  function WCheckStep(s: Gw): (t: Gw)
    ensures Keeps(s, t)
  {
    if s.wd.WIdle? && !s.running then s.(wd := WAllowed) else s
  }

  function WCaptureStep(s: Gw): (t: Gw)
    ensures Keeps(s, t)
  {
    if s.wd.WAllowed? then s.(wd := if s.current.Some? then WProbing(s.current.value) else WIdle) else s
  }

  /** Whether the probes call for a heal is the subject of module Watchdogs; here they may. */
  function WProbeStep(s: Gw, heal: bool): (t: Gw)
    ensures Keeps(s, t)
  {
    if s.wd.WProbing? then s.(wd := if heal then WSpawning(s.wd.proc) else WIdle) else s
  }

  function WSpawnStep(s: Gw, port: nat): (t: Gw)
    ensures Keeps(s, t)
  {
    if s.wd.WSpawning? && PortFree(s, port) then
      var b := Backend(s.nextPid, port);
      s.(live := s.live + {b}, nextPid := s.nextPid + 1, wd := WPrewarm(s.wd.proc, b))
    else s
  }

  function WSpawnErrorStep(s: Gw): (t: Gw)
    ensures Keeps(s, t)
  {
    if s.wd.WSpawning? then s.(wd := WIdle) else s
  }

  function WReadyStep(s: Gw, ready: bool): (t: Gw)
    ensures Keeps(s, t)
  {
    if s.wd.WPrewarm? && (ready ==> s.wd.repl in s.live) then s.(wd := WReading(s.wd.proc, s.wd.repl, ready))
    else s
  }

  /** The second reading of "an upgrade is running". */
  function WReadStep(s: Gw): (t: Gw)
    ensures Keeps(s, t)
  {
    if s.wd.WReading? then s.(wd := WDeciding(s.wd.proc, s.wd.repl, s.wd.ready, s.running)) else s
  }

  /** The identity test and the assignment it guards are one step; `busy` was read earlier. */
  function WDecideStep(s: Gw): (t: Gw)
    ensures Keeps(s, t)
  {
    if !s.wd.WDeciding? then s
    else
      var w := s.wd;
      if w.ready && !w.busy && s.current == Some(w.proc) then
        s.(current := Some(w.repl), wd := WKillProc(w.proc), log := s.log + [Healed(s.current, w.proc, w.repl)])
      else
        s.(wd := WKillRepl(w.proc, w.repl))
  }

  function WKillReplStep(s: Gw, survives: bool): (t: Gw)
    requires s.wd.WKillRepl?
    ensures Keeps(s, t)
  {
    Killed(s, ByWatchdog, s.wd.repl, NeverLive, survives).(wd := WIdle)
  }

  function WKillProcStep(s: Gw, survives: bool): (t: Gw)
    requires s.wd.WKillProc?
    ensures Keeps(s, t)
  {
    Killed(s, ByWatchdog, s.wd.proc, HealedAway, survives).(wd := WIdle)
  }

  function WKillStep(s: Gw, survives: bool): (t: Gw)
    ensures Keeps(s, t)
  {
    if s.wd.WKillRepl? then WKillReplStep(s, survives)
    else if s.wd.WKillProc? then WKillProcStep(s, survives)
    else s
  }

  function WatchdogStep(s: Gw, w: WatchdogLabel): (t: Gw)
    ensures Keeps(s, t)
    ensures t.traffic == s.traffic && t.up == s.up && t.running == s.running && t.upgradeNo == s.upgradeNo
  {
    match w
    case WCheck => WCheckStep(s)
    case WCapture => WCaptureStep(s)
    case WProbe(heal) => WProbeStep(s, heal)
    case WSpawnOk(port) => WSpawnStep(s, port)
    case WSpawnError => WSpawnErrorStep(s)
    case WReady(ready) => WReadyStep(s, ready)
    case WRead => WReadStep(s)
    case WDecide => WDecideStep(s)
    case WKill(survives) => WKillStep(s, survives)
  }

  // ---- requests -----------------------------------------------------------------------

  /** A request reads the current port; with no backend it is answered 503 and never counted. */
  function BindStep(x: Traffic, current: Option<Backend>): Traffic {
    if current.None? then x
    else x.(requests := x.requests[x.nextRequest := Bound(current.value.port)],
            nextRequest := x.nextRequest + 1)
  }

  function CountStep(x: Traffic, r: nat): Traffic {
    if r in x.requests && x.requests[r].Bound? then
      x.(requests := x.requests[r := Counted(x.requests[r].port)],
         inflight := Incremented(x.inflight, x.requests[r].port))
    else x
  }

  function DoneStep(x: Traffic, r: nat): Traffic {
    if r in x.requests && x.requests[r].Counted? then
      x.(requests := x.requests - {r}, inflight := Decremented(x.inflight, x.requests[r].port))
    else x
  }

  function TrafficStep(x: Traffic, current: Option<Backend>, q: RequestLabel): Traffic {
    match q
    case Bind => BindStep(x, current)
    case Count(r) => CountStep(x, r)
    case Done(r) => DoneStep(x, r)
  }

  function RequestStep(s: Gw, q: RequestLabel): (t: Gw)
    ensures Keeps(s, t)
  {
    s.(traffic := TrafficStep(s.traffic, s.current, q))
  }

  /** A backend may die at any instant. */
  function DieStep(s: Gw, b: Backend): (t: Gw)
    ensures Keeps(s, t)
  {
    s.(live := s.live - {b})
  }

  function Next(s: Gw, l: Label): (t: Gw)
    ensures Keeps(s, t)
  {
    match l
    case Die(b) => DieStep(s, b)
    case Up(u) => UpgradeStep(s, u)
    case Wd(w) => WatchdogStep(s, w)
    case Req(q) => RequestStep(s, q)
  }

  /** The state once the initial backend has been published. */
  function Booted(b: Backend): Gw {
    Gw(Some(b), {b}, {}, b.pid + 1, false, 0, UIdle, WIdle, Traffic(map[], map[], 0), [])
  }

  /** `states` are what the labels lead through from the boot: any labels, in any order. */
  ghost predicate IsRun(b: Backend, labels: seq<Label>, states: seq<Gw>) {
    && |states| == |labels| + 1 && states[0] == Booted(b)
    && forall i {:trigger labels[i]} :: 0 <= i < |labels| ==> states[i + 1] == Next(states[i], labels[i])
  }
}
