/** The gateway's threads as programs over the shared variables, with the other actors free to move
    between any two of their accesses. Each access is proved to be a step of the machine in Gateway, so
    whatever these programs do is one of the runs that GatewayTheorems speaks about. */
module GatewayThreads {
  import opened Options
  import opened GatewayState
  import opened Gateway
  import opened GatewayTheorems

  /** What no step undoes: the log and the signals sent stay, and a process that is gone stays gone. */
  predicate Grows(s: Gw, t: Gw) {
    && s.log <= t.log && s.signalled <= t.signalled && s.nextPid <= t.nextPid
    && forall x :: x in t.live ==> x in s.live || x.pid >= s.nextPid
  }

  /** The process exists no more, or has been sent its signals. */
  predicate DisposedOf(s: Gw, b: Backend) {
    b.pid < s.nextPid && (b in s.live ==> b in s.signalled)
  }

  /** No two of these readings in a row are zero, but for the last two, which are if they ended the drain. */
  predicate ZerosEnd(counts: seq<nat>, ended: bool) {
    && (ended ==> |counts| > 1)
    && forall k :: 0 < k < |counts| ==> (counts[k - 1] == 0 == counts[k] <==> ended && k == |counts| - 1)
  }

  /** How a tick of the watchdog went. */
  datatype TickResult = Busy | NoBackend | Quiet | NoSpawn | GivenBack | Replaced

  /** Some port is not taken. */
  method FreePort(live: set<Backend>) returns (port: nat)
    ensures forall b :: b in live ==> b.port < port
  {
    port := 0;
    var rest := live;
    while rest != {}
      invariant rest <= live && forall b :: b in live && b !in rest ==> b.port < port
      decreases rest
    {
      var b :| b in rest;
      rest := rest - {b};
      port := if b.port < port then port else b.port + 1;
    }
  }

  class Shared {
    /** Nothing but this thread moves: no other actor, no death, no failure to spawn or to get ready. */
    const calm: bool
    /** The backend that was live when the gateway began to serve. */
    const first: Backend
    var current: Option<Backend>
    var live: set<Backend>
    var signalled: set<Backend>
    var nextPid: nat
    var running: bool
    var upgradeNo: nat
    var traffic: Traffic
    var log: seq<Event>
    /** Where the two long-lived threads stand. */
    var up: Upgrade
    var wd: Watchdog
    /** The steps taken so far. */
    ghost var steps: seq<Label>
    ghost var states: seq<Gw>

    function State(): Gw
      reads this
    {
      Gw(current, live, signalled, nextPid, running, upgradeNo, up, wd, traffic, log)
    }

    /** The shared state is where a run of the machine has led, so every theorem about runs holds of it. */
    ghost predicate Valid()
      reads this
    {
      IsRun(first, steps, states) && states[|steps|] == State()
    }

    /** No process came, went or was made current since, and no request moved. */
    predicate Unmoved(before: Gw)
      reads this
    {
      current == before.current && live == before.live && nextPid == before.nextPid && traffic == before.traffic
    }

    constructor (b: Backend, calm: bool)
      ensures Valid() && this.calm == calm && first == b && steps == [] && up.UIdle? && wd.WIdle?
    {
      first, this.calm := b, calm;
      current, live, signalled, nextPid, running, upgradeNo := Some(b), {b}, {}, b.pid + 1, false, 0;
      traffic, log, up, wd := Traffic(map[], map[], 0), [], UIdle, WIdle;
      steps := [];
      states := [Booted(b)];
    }

    /** The access just made was step `l`. */
    ghost method Took(s: Gw, l: Label)
      requires IsRun(first, steps, states) && states[|steps|] == s && State() == Next(s, l)
      modifies this`steps, this`states
      ensures Valid() && steps == old(steps) + [l]
    {
      steps, states := steps + [l], states + [State()];
      assert steps[|steps| - 1] == l;
    }

    /** Anything the other actors may do in between. */
    method Others(upgrade: bool)
      requires Valid()
      modifies this
      ensures Valid() && Grows(old(State()), State())
      ensures upgrade ==> up == old(up) && upgradeNo == old(upgradeNo) && running == old(running)
      ensures !upgrade ==> wd == old(wd)
      ensures calm ==> State() == old(State())
    {
      var n: nat := *;
      while n > 0 && !calm
        invariant Valid() && Grows(old(State()), State()) && (calm ==> State() == old(State()))
        invariant upgrade ==> up == old(up) && upgradeNo == old(upgradeNo) && running == old(running)
        invariant !upgrade ==> wd == old(wd)
      {
        var l: Label := *;
        if (upgrade && !l.Up?) || (!upgrade && !l.Wd?) {
          Move(l);
        }
        n := n - 1;
      }
    }

    method Move(l: Label)
      requires Valid()
      modifies this
      ensures Valid() && Grows(old(State()), State())
      ensures !l.Up? ==> up == old(up) && upgradeNo == old(upgradeNo) && running == old(running)
      ensures !l.Wd? ==> wd == old(wd)
    {
      ghost var s := State();
      var t := Next(State(), l);
      NextGrows(s, l);
      Become(t);
      Took(s, l);
    }

    method Become(t: Gw)
      modifies this`current, this`live, this`signalled, this`nextPid, this`running
      modifies this`upgradeNo, this`traffic, this`log, this`up, this`wd
      ensures State() == t
    {
      current, live, signalled, nextPid, running := t.current, t.live, t.signalled, t.nextPid, t.running;
      upgradeNo, traffic, log, up, wd := t.upgradeNo, t.traffic, t.log, t.up, t.wd;
    }

    // ---- the accesses of the upgrade thread ---------------------------------------------------

    /** Under the upgrade lock: refused while one is running. */
    method StartRollingUpgrade() returns (started: bool)
      requires Valid()
      modifies this`running, this`upgradeNo, this`up, this`steps, this`states
      ensures Valid() && running && started == !old(running) && (started ==> up.UStarted?)
    {
      ghost var s := State();
      started := !running;
      if started {
        running, upgradeNo, up := true, upgradeNo + 1, UStarted;
      }
      Took(s, Up(Start));
    }

    method ReadCurrent() returns (prev: Option<Backend>)
      requires Valid() && up.UStarted?
      modifies this`log, this`up, this`steps, this`states
      ensures Valid() && up == USpawning(prev) && prev == current
      ensures old(log) <= log
    {
      ghost var s := State();
      prev := current;
      log, up := log + [Captured(upgradeNo, prev)], USpawning(prev);
      Took(s, Up(Capture));
    }

    /** A fresh process on a free port, or no process. */
    method SpawnNew(prev: Option<Backend>) returns (b: Option<Backend>)
      requires Valid() && up == USpawning(prev)
      modifies this`live, this`nextPid, this`up, this`steps, this`states
      ensures Valid() && up == if b.Some? then UPrewarm(prev, b.value) else UFinishingUnspawned
      ensures b.Some? ==> old(nextPid) <= b.value.pid < nextPid && PortFree(old(State()), b.value.port)
      ensures live == if b.Some? then old(live) + {b.value} else old(live)
      ensures calm ==> b.Some?
    {
      ghost var s := State();
      var failed: bool, port: nat := *, *;
      if calm {
        failed := false;
        port := FreePort(live);
      }
      if failed || !PortFree(State(), port) {
        up := UFinishingUnspawned;
        Took(s, Up(SpawnError));
        return None;
      }
      var next := Backend(nextPid, port);
      live, nextPid, up := live + {next}, nextPid + 1, UPrewarm(prev, next);
      Took(s, Up(SpawnOk(port)));
      return Some(next);
    }

    /** True only if the process is alive at that moment. */
    method AwaitReady(prev: Option<Backend>, next: Backend) returns (ok: bool)
      requires Valid() && up == UPrewarm(prev, next)
      modifies this`up, this`steps, this`states
      ensures Valid() && up == if ok then UFlipping(prev, next) else UKillNext(prev, next, PrewarmFailed)
      ensures ok ==> next in live
      ensures calm && next in live ==> ok
    {
      ghost var s := State();
      ok := *;
      ok := (ok || calm) && next in live;
      up := if ok then UFlipping(prev, next) else UKillNext(prev, next, PrewarmFailed);
      Took(s, if ok then Up(Ready) else Up(NotReady));
    }

    /** Test that the backend to replace is still current and, if so, flip. */
    method TestAndFlip(prev: Option<Backend>, next: Backend) returns (flipped: bool)
      requires Valid() && up == UFlipping(prev, next)
      modifies this`current, this`log, this`up, this`steps, this`states
      ensures Valid() && flipped == (old(current) == prev)
      ensures flipped ==> current == Some(next)
      ensures flipped ==> up == if prev.Some? then UDraining(prev, next, 0) else UPolling(prev, next, Drained, {})
      ensures !flipped ==> current == old(current) && up == UKillNext(prev, next, Superseded)
      ensures old(log) <= log
    {
      ghost var s := State();
      flipped := current == prev;
      if flipped {
        log := log + [Flipped(upgradeNo, current, prev, next)];
        current := Some(next);
        up := if prev.Some? then UDraining(prev, next, 0) else UPolling(prev, next, Drained, {});
      } else {
        up := UKillNext(prev, next, Superseded);
      }
      Took(s, Up(Flip));
    }

    /** Has the new backend exited? If so the drain is over. */
    method WatchNew(prev: Backend, next: Backend) returns (died: bool)
      requires Valid() && up.UDraining? && up.prev == Some(prev) && up.next == next
      modifies this`log, this`up, this`steps, this`states
      ensures Valid() && (died <==> next !in live) && (!died ==> up == old(up) && log == old(log))
      ensures died ==> up.UPolling? && up.prev == Some(prev) && up.next == next && up.result == WatchDied
      ensures old(log) <= log
    {
      ghost var s := State();
      died := next !in live;
      if died {
        var gap := InState(traffic.requests, Bound(prev.port));
        log, up := log + [DrainEnded(upgradeNo, WatchDied, gap)], UPolling(Some(prev), next, WatchDied, gap);
        Took(s, Up(WatchNext));
      }
    }

    /** One reading of the old port's counter: the second zero in a row ends the drain, and any other count
        starts the count of zeros anew. */
    method ReadOldCount(prev: Backend, next: Backend) returns (drained: bool)
      requires Valid() && up.UDraining? && up.prev == Some(prev) && up.next == next
      modifies this`log, this`up, this`steps, this`states
      ensures Valid() && (drained <==> InflightAt(traffic.inflight, prev.port) == 0 && old(up).zeros >= 1)
      ensures !drained ==>
        up == UDraining(Some(prev), next, if InflightAt(traffic.inflight, prev.port) > 0 then 0 else old(up).zeros + 1)
      ensures drained ==> up.UPolling? && up.prev == Some(prev) && up.next == next && up.result == Drained
      ensures old(log) <= log
    {
      ghost var s := State();
      drained := false;
      if InflightAt(traffic.inflight, prev.port) > 0 {
        up := UDraining(Some(prev), next, 0);
      } else if up.zeros + 1 >= DRAIN_CONFIRM_POLLS {
        drained := true;
        var gap := InState(traffic.requests, Bound(prev.port));
        log, up := log + [DrainEnded(upgradeNo, Drained, gap)], UPolling(Some(prev), next, Drained, gap);
      } else {
        up := UDraining(Some(prev), next, up.zeros + 1);
      }
      Took(s, Up(ReadCount));
    }

    /** The reading after the deadline. */
    method LastReading(prev: Backend, next: Backend) returns (r: DrainResult)
      requires Valid() && up.UDraining? && up.prev == Some(prev) && up.next == next
      modifies this`log, this`up, this`steps, this`states
      ensures Valid() && up.UPolling? && up.prev == Some(prev) && up.next == next && up.result == r
      ensures r == if InflightAt(traffic.inflight, prev.port) == 0 then Drained else TimedOut
      ensures old(log) <= log
    {
      ghost var s := State();
      r := if InflightAt(traffic.inflight, prev.port) > 0 then TimedOut else Drained;
      var gap := InState(traffic.requests, Bound(prev.port));
      log, up := log + [DrainEnded(upgradeNo, r, gap)], UPolling(Some(prev), next, r, gap);
      Took(s, Up(Deadline));
    }

    /** The drain goes on, or has ended with `r`. */
    predicate Draining(prev: Backend, next: Backend, r: Option<DrainResult>)
      reads this`up
    {
      if r.None? then up.UDraining? && up.prev == Some(prev) && up.next == next
      else up.UPolling? && up.prev == Some(prev) && up.next == next && up.result == r.value
    }

    /** The readings so far are told apart, and the drain's own counter says whether the last was zero. */
    predicate Counting(counts: seq<nat>)
      reads this`up
    {
      ZerosEnd(counts, false) && up.UDraining? && up.zeros == if counts != [] && counts[|counts| - 1] == 0 then 1 else 0
    }

    /** After whatever the others did: a look at the new backend, which sees that it is gone if it was gone
        before, too. */
    method Look(prev: Backend, next: Backend) returns (died: bool)
      requires Valid() && Draining(prev, next, None)
      modifies this
      ensures Valid() && Draining(prev, next, if died then Some(WatchDied) else None) && (!died ==> up == old(up))
      ensures old(log) <= log && upgradeNo == old(upgradeNo)
      ensures (died <==> next !in live) && (next !in old(live) ==> died)
      ensures calm ==> Unmoved(old(State()))
    {
      Held();
      Others(true);
      died := WatchNew(prev, next);
    }

    /** One round of the drain: a look at the new backend, then a reading of the old port's counter. */
    method DrainRound(prev: Backend, next: Backend, ghost counts: seq<nat>)
        returns (r: Option<DrainResult>, ghost now: seq<nat>)
      requires Valid() && Draining(prev, next, None) && Counting(counts)
      modifies this
      ensures Valid() && Draining(prev, next, r) && r != Some(TimedOut)
      ensures old(log) <= log && upgradeNo == old(upgradeNo)
      ensures r.None? ==> Counting(now)
      ensures r == Some(Drained) ==> ZerosEnd(now, true) && InflightAt(traffic.inflight, prev.port) == 0
      ensures r == Some(WatchDied) ==> now == counts && next !in live
      ensures next !in old(live) ==> r == Some(WatchDied)
      ensures calm ==> Unmoved(old(State())) && (next in live ==> r != Some(WatchDied))
    {
      now := counts;
      var died := Look(prev, next);
      if died {
        return Some(WatchDied), now;
      }
      Others(true);
      var drained := ReadOldCount(prev, next);
      now := now + [InflightAt(traffic.inflight, prev.port)];
      r := if drained then Some(Drained) else None;
    }

    /** The drain. It sees that the new backend is gone, at once if it was gone when the drain began, and
        otherwise ends with the second zero in a row among the readings of the old port's counter, or with
        the reading after the deadline. */
    method DrainOld(prev: Backend, next: Backend) returns (r: DrainResult, ghost counts: seq<nat>, ghost late: bool)
      requires Valid() && up == UDraining(Some(prev), next, 0)
      modifies this
      ensures Valid() && Draining(prev, next, Some(r))
      ensures old(log) <= log && upgradeNo == old(upgradeNo)
      ensures next !in old(live) ==> r == WatchDied && counts == []
      ensures r == WatchDied ==> next !in live
      ensures ZerosEnd(counts, r == Drained && !late)
      ensures late || r == Drained ==> (r == Drained <==> InflightAt(traffic.inflight, prev.port) == 0)
      ensures calm ==> Unmoved(old(State())) && (r == WatchDied <==> next !in live)
    {
      counts, late := [], false;
      var died := Look(prev, next);
      if died {
        return WatchDied, counts, late;
      }
      var rounds: nat := *;
      while rounds > 0
        invariant Valid() && Draining(prev, next, None) && Counting(counts)
        invariant old(log) <= log && upgradeNo == old(upgradeNo) && next in old(live)
        invariant calm ==> Unmoved(old(State()))
      {
        var ended;
        ended, counts := DrainRound(prev, next, counts);
        if ended.Some? {
          return ended.value, counts, late;
        }
        rounds := rounds - 1;
      }
      Others(true);
      late := true;
      r := LastReading(prev, next);
    }

    /** The last poll of the new backend, after the drain said `r`. */
    method PollNew(prev: Option<Backend>, next: Backend, r: DrainResult) returns (alive: bool)
      requires Valid() && up.UPolling? && up.prev == prev && up.next == next && up.result == r
      modifies this`log, this`up, this`steps, this`states
      ensures Valid() && (alive <==> r != WatchDied && next in live)
      ensures up == if !alive then URollingBack(prev, next)
                    else if prev.Some? then UKillOld(prev, next, r, old(up).gap)
                    else UFinishing(next, Complete)
      ensures old(log) <= log
    {
      ghost var s := State();
      alive := r != WatchDied && next in live;
      if alive {
        log := log + [SawNextAlive(upgradeNo, next)];
        up := if prev.Some? then UKillOld(prev, next, r, up.gap) else UFinishing(next, Complete);
      } else {
        up := URollingBack(prev, next);
      }
      Took(s, Up(PollNext));
    }

    method PollOld(prev: Option<Backend>, next: Backend) returns (alive: bool)
      requires Valid() && up == URollingBack(prev, next)
      modifies this`log, this`up, this`steps, this`states
      ensures Valid() && up == URestoring(prev, next, alive) && (alive <==> prev.Some? && prev.value in live)
      ensures old(log) <= log
    {
      ghost var s := State();
      alive := prev.Some? && prev.value in live;
      log, up := log + [PolledPrev(upgradeNo, alive)], URestoring(prev, next, alive);
      Took(s, Up(PollPrev));
    }

    /** The rollback assignment. */
    method RestoreOld(prev: Option<Backend>, next: Backend, alive: bool)
      requires Valid() && up == URestoring(prev, next, alive)
      modifies this`current, this`log, this`up, this`steps, this`states
      ensures Valid() && up == UFinishing(next, DiedPostFlip) && current == if alive then prev else None
      ensures log == old(log) + [RolledBack(upgradeNo, old(current), next, prev, alive, current)]
    {
      ghost var s := State();
      var to := if alive then prev else None;
      log := log + [RolledBack(upgradeNo, current, next, prev, alive, to)];
      current, up := to, UFinishing(next, DiedPostFlip);
      Took(s, Up(Restore));
    }

    /** Nothing to do if the process has exited; otherwise its signals, which it may outlive. */
    method Kill(who: Actor, target: Backend, role: Role) returns (survives: bool)
      modifies this`live, this`signalled, this`log
      ensures State() == Killed(old(State()), who, target, role, survives)
    {
      survives := *;
      if target in live {
        log := log + [Signalled(who, target, role, current, InState(traffic.requests, Counted(target.port)))];
        signalled := signalled + {target};
        if !survives {
          live := live - {target};
        }
      }
    }

    /** The backend this upgrade is about to kill: its own that never went live, or the old one. */
    function Doomed(): Backend
      requires up.UKillNext? || (up.UKillOld? && up.prev.Some?)
      reads this`up
    {
      if up.UKillNext? then up.next else up.prev.value
    }

    /** A process that has exited is not signalled; any other is, on record, and may outlive it. No other
        process is touched. */
    method KillOne()
      requires Valid() && (up.UKillNext? || (up.UKillOld? && up.prev.Some?))
      modifies this`live, this`signalled, this`log, this`up, this`steps, this`states
      ensures Valid() && up == UFinishing(old(up).next, if old(up).UKillNext? then old(up).why else Complete)
      ensures old(Doomed()) !in old(live) ==>
        live == old(live) && signalled == old(signalled) && log == old(log)
      ensures old(Doomed()) in old(live) ==>
        && (live == old(live) || live == old(live) - {old(Doomed())}) && signalled == old(signalled) + {old(Doomed())}
        && log == old(log) + [Signalled(ByUpgrade(upgradeNo), old(Doomed()),
             if old(up).UKillNext? then NeverLive else OldBackend(old(up).result, old(up).gap), current,
             InState(traffic.requests, Counted(old(Doomed()).port)))]
    {
      ghost var s := State();
      var role := if up.UKillNext? then NeverLive else OldBackend(up.result, up.gap);
      var survives := Kill(ByUpgrade(upgradeNo), Doomed(), role);
      up := UFinishing(up.next, if up.UKillNext? then up.why else Complete);
      Took(s, Up(UKill(survives)));
    }

    method Report() returns (phase: Phase)
      requires Valid() && (up.UFinishing? || up.UFinishingUnspawned?)
      modifies this`running, this`log, this`up, this`steps, this`states
      ensures Valid() && up.UIdle? && !running
      ensures phase == if old(up).UFinishing? then old(up).phase else SpawnFailed
      ensures log == old(log) + [Finished(upgradeNo, phase)]
    {
      ghost var s := State();
      phase := if up.UFinishing? then up.phase else SpawnFailed;
      running, log, up := false, log + [Finished(upgradeNo, phase)], UIdle;
      Took(s, Up(Finish));
    }

    /** What the machine's invariants say of the backends a thread holds. */
    lemma Held()
      requires Valid()
      ensures PrevOf(up).Some? ==> PrevOf(up).value.pid < nextPid
      ensures NextOf(up).Some? ==> NextOf(up).value.pid < nextPid
      ensures up.URollingBack? || up.URestoring? ==> up.next !in live
      ensures ProcOf(wd).Some? ==> ProcOf(wd).value.pid < nextPid
      ensures ReplOf(wd).Some? ==> ReplOf(wd).value.pid < nextPid
    {
      RunsAreSound(first, steps, states, |steps|);
    }

    /** The kill, and whatever the others do after it. */
    method Dispose()
      requires Valid() && (up.UKillNext? || (up.UKillOld? && up.prev.Some?))
      modifies this
      ensures Valid() && up == UFinishing(old(up).next, if old(up).UKillNext? then old(up).why else Complete)
      ensures old(log) <= log && upgradeNo == old(upgradeNo) && DisposedOf(State(), old(Doomed()))
      ensures calm ==> current == old(current)
    {
      Held();
      KillOne();
      Others(true);
    }

    /** From the start to a new backend that is ready, or to the failure. */
    method Prepare() returns (ready: bool, prev: Option<Backend>, next: Backend)
      requires Valid() && up.UStarted?
      modifies this
      ensures Valid() && old(log) <= log && upgradeNo == old(upgradeNo)
      ensures if ready then up == UFlipping(prev, next)
              else up == UFinishingUnspawned || up == UKillNext(prev, next, PrewarmFailed)
      ensures calm ==> ready && prev == current == old(current) && next in live && next.pid >= old(nextPid)
    {
      prev := ReadCurrent();
      Others(true);
      var spawned := SpawnNew(prev);
      Others(true);
      if spawned.None? {
        return false, prev, Backend(0, 0);
      }
      next := spawned.value;
      ready := AwaitReady(prev, next);
      Others(true);
    }

    /** From the start to the flip, or to the failure that prevents it, with the unused backend gone or
        signalled. */
    method UpToFlip() returns (flipped: bool, prev: Option<Backend>, next: Backend)
      requires Valid() && up.UStarted?
      modifies this
      ensures Valid() && old(log) <= log && upgradeNo == old(upgradeNo)
      ensures if flipped then up == if prev.Some? then UDraining(prev, next, 0) else UPolling(prev, next, Drained, {})
              else up == UFinishingUnspawned || (Unflipped(next) && DisposedOf(State(), next))
      ensures calm ==>
        flipped && prev == old(current) && current == Some(next) && next in live && next.pid >= old(nextPid)
    {
      flipped, prev, next := Prepare();
      if flipped {
        flipped := TestAndFlip(prev, next);
        Others(true);
      }
      if !flipped && up.UKillNext? {
        Dispose();
      }
    }

    predicate Unflipped(next: Backend)
      reads this`up
    {
      up == UFinishing(next, PrewarmFailed) || up == UFinishing(next, Superseded)
    }

    /** The drain, if there is anything to drain. */
    method WaitOld(prev: Option<Backend>, next: Backend) returns (r: DrainResult)
      requires Valid()
      requires up == if prev.Some? then UDraining(prev, next, 0) else UPolling(prev, next, Drained, {})
      modifies this
      ensures Valid() && up.UPolling? && up.prev == prev && up.next == next && up.result == r
      ensures old(log) <= log && upgradeNo == old(upgradeNo)
      ensures calm ==> Unmoved(old(State())) && (next in live ==> r != WatchDied)
    {
      r := Drained;
      if prev.Some? {
        var result, counts, late := DrainOld(prev.value, next);
        r := result;
        Others(true);
      }
    }

    /** From the flip to the end: the old backend is gone or signalled, or the assignment is put back
        because the new backend is gone. */
    method AfterFlip(prev: Option<Backend>, next: Backend)
      requires Valid()
      requires up == if prev.Some? then UDraining(prev, next, 0) else UPolling(prev, next, Drained, {})
      modifies this
      ensures Valid() && old(log) <= log && upgradeNo == old(upgradeNo)
      ensures || (up == UFinishing(next, Complete) && (prev.Some? ==> DisposedOf(State(), prev.value)))
              || (up == UFinishing(next, DiedPostFlip) && next !in live && HasRolledBack(old(log), prev, next))
      ensures calm && next in old(live) ==> up == UFinishing(next, Complete) && current == old(current)
    {
      var result := WaitOld(prev, next);
      var alive := PollNew(prev, next, result);
      Others(true);
      if !alive {
        RollBack(prev, next);
      } else if prev.Some? {
        Dispose();
      }
    }

    /** The log has grown, and this upgrade has put `prev` back, or none, since `before`. */
    ghost predicate HasRolledBack(before: seq<Event>, prev: Option<Backend>, next: Backend)
      reads this`log, this`upgradeNo
    {
      exists k :: |before| <= k < |log| && log[k].RolledBack? && log[k].n == upgradeNo
                  && log[k].next == next && log[k].prev == prev
    }

    method RollBack(prev: Option<Backend>, next: Backend)
      requires Valid() && up == URollingBack(prev, next)
      modifies this
      ensures Valid() && old(log) <= log && upgradeNo == old(upgradeNo)
      ensures up == UFinishing(next, DiedPostFlip) && next !in live && HasRolledBack(old(log), prev, next)
    {
      var alive := PollOld(prev, next);
      Others(true);
      Held();
      RestoreOld(prev, next, alive);
      ghost var k := |log| - 1;
      Others(true);
      assert log[k].RolledBack?;
    }

    /** The whole rolling upgrade. Whatever the other actors do in between, it takes steps of the machine
        only, and ends by reporting its phase. */
    method RunRollingUpgrade() returns (phase: Phase)
      requires Valid() && up.UStarted?
      modifies this
      ensures Valid() && up.UIdle? && !running
      ensures log != [] && log[|log| - 1] == Finished(upgradeNo, phase)
      ensures calm ==> phase == Complete && current.Some? && current.value.pid >= old(nextPid)
      ensures calm && old(current).Some? ==> DisposedOf(State(), old(current).value)
    {
      var flipped, prev, next := UpToFlip();
      if flipped {
        AfterFlip(prev, next);
      }
      phase := Report();
    }

    // ---- the watchdog thread --------------------------------------------------------------------

    /** The first reading of "an upgrade is running". */
    method CheckUpgrade() returns (busy: bool)
      requires Valid() && wd.WIdle?
      modifies this`wd, this`steps, this`states
      ensures Valid() && wd == (if busy then WIdle else WAllowed) && busy == running
    {
      ghost var s := State();
      busy := running;
      if !busy {
        wd := WAllowed;
      }
      Took(s, Wd(WCheck));
    }

    method ReadWatched() returns (proc: Option<Backend>)
      requires Valid() && wd.WAllowed?
      modifies this`wd, this`steps, this`states
      ensures Valid() && wd == (if proc.Some? then WProbing(proc.value) else WIdle) && proc == current
    {
      ghost var s := State();
      proc := current;
      wd := if proc.Some? then WProbing(proc.value) else WIdle;
      Took(s, Wd(WCapture));
    }

    /** The poll and the probes; module Watchdogs says when they call for a heal. */
    method Probe(proc: Backend, heal: bool)
      requires Valid() && wd == WProbing(proc)
      modifies this`wd, this`steps, this`states
      ensures Valid() && wd == if heal then WSpawning(proc) else WIdle
    {
      ghost var s := State();
      wd := if heal then WSpawning(proc) else WIdle;
      Took(s, Wd(WProbe(heal)));
    }

    method SpawnReplacement(proc: Backend) returns (b: Option<Backend>)
      requires Valid() && wd == WSpawning(proc)
      modifies this`live, this`nextPid, this`wd, this`steps, this`states
      ensures Valid() && wd == if b.Some? then WPrewarm(proc, b.value) else WIdle
      ensures b.Some? ==> old(nextPid) <= b.value.pid < nextPid && PortFree(old(State()), b.value.port)
      ensures live == if b.Some? then old(live) + {b.value} else old(live)
      ensures calm ==> b.Some?
    {
      ghost var s := State();
      var failed: bool, port: nat := *, *;
      if calm {
        failed := false;
        port := FreePort(live);
      }
      if failed || !PortFree(State(), port) {
        wd := WIdle;
        Took(s, Wd(WSpawnError));
        return None;
      }
      var repl := Backend(nextPid, port);
      live, nextPid, wd := live + {repl}, nextPid + 1, WPrewarm(proc, repl);
      Took(s, Wd(WSpawnOk(port)));
      return Some(repl);
    }

    method AwaitReplacement(proc: Backend, repl: Backend) returns (ok: bool)
      requires Valid() && wd == WPrewarm(proc, repl)
      modifies this`wd, this`steps, this`states
      ensures Valid() && wd == WReading(proc, repl, ok)
      ensures ok ==> repl in live
      ensures calm && repl in live ==> ok
    {
      ghost var s := State();
      ok := *;
      ok := (ok || calm) && repl in live;
      wd := WReading(proc, repl, ok);
      Took(s, Wd(WReady(ok)));
    }

    /** The second reading, which is all the decision below knows of upgrades. */
    method CheckAgain(proc: Backend, repl: Backend, ok: bool) returns (busy: bool)
      requires Valid() && wd == WReading(proc, repl, ok)
      modifies this`wd, this`steps, this`states
      ensures Valid() && wd == WDeciding(proc, repl, ok, busy) && busy == running
    {
      ghost var s := State();
      busy := running;
      wd := WDeciding(proc, repl, ok, busy);
      Took(s, Wd(WRead));
    }

    /** The identity test and the assignment it guards. */
    method DecideHeal(proc: Backend, repl: Backend, ok: bool, busy: bool) returns (healed: bool)
      requires Valid() && wd == WDeciding(proc, repl, ok, busy)
      modifies this`current, this`log, this`wd, this`steps, this`states
      ensures Valid() && wd == if healed then WKillProc(proc) else WKillRepl(proc, repl)
      ensures current == if healed then Some(repl) else old(current)
      ensures healed <==> ok && !busy && old(current) == Some(proc)
      ensures log == old(log) + if healed then [Healed(Some(proc), proc, repl)] else []
    {
      ghost var s := State();
      healed := ok && !busy && current == Some(proc);
      if healed {
        log := log + [Healed(current, proc, repl)];
        current, wd := Some(repl), WKillProc(proc);
      } else {
        wd := WKillRepl(proc, repl);
      }
      Took(s, Wd(WDecide));
    }

    /** The backend that was healed away, or the replacement that is not needed. */
    function Loser(): Backend
      requires wd.WKillProc? || wd.WKillRepl?
      reads this`wd
    {
      if wd.WKillProc? then wd.proc else wd.repl
    }

    /** A loser that has exited is not signalled; any other is, on record, and may outlive it. */
    method KillLoser()
      requires Valid() && (wd.WKillProc? || wd.WKillRepl?)
      modifies this`live, this`signalled, this`log, this`wd, this`steps, this`states
      ensures Valid() && wd.WIdle? && DisposedOf(State(), old(Loser()))
      ensures old(Loser()) !in old(live) ==> live == old(live) && signalled == old(signalled) && log == old(log)
      ensures old(Loser()) in old(live) ==>
        && (live == old(live) || live == old(live) - {old(Loser())}) && signalled == old(signalled) + {old(Loser())}
        && log == old(log) + [Signalled(ByWatchdog, old(Loser()), if old(wd).WKillProc? then HealedAway else NeverLive,
             current, InState(traffic.requests, Counted(old(Loser()).port)))]
    {
      Held();
      ghost var s := State();
      var role := if wd.WKillProc? then HealedAway else NeverLive;
      var survives := Kill(ByWatchdog, Loser(), role);
      wd := WIdle;
      Took(s, Wd(WKill(survives)));
    }

    /** The log has grown, and the watchdog has put `repl` in the place of `proc`, since `before`. */
    ghost predicate HasHealed(before: seq<Event>, proc: Backend, repl: Backend)
      reads this`log
    {
      exists k :: |before| <= k < |log| && log[k] == Healed(Some(proc), proc, repl)
    }

    /** The second half of a heal, with a replacement that is ready or not: it takes the place of `proc`, or
        is given back. */
    method Settle(proc: Backend, repl: Backend, ok: bool) returns (healed: bool)
      requires Valid() && wd == WReading(proc, repl, ok)
      modifies this
      ensures Valid() && wd.WIdle? && old(log) <= log
      ensures if healed then ok && HasHealed(old(log), proc, repl) && DisposedOf(State(), proc)
              else DisposedOf(State(), repl)
      ensures calm && ok && !old(running) && old(current) == Some(proc) ==> healed && current == Some(repl)
    {
      var busy := CheckAgain(proc, repl, ok);
      Others(false);
      healed := DecideHeal(proc, repl, ok, busy);
      ghost var k := |log| - 1;
      Others(false);
      KillLoser();
      assert healed ==> log[k] == Healed(Some(proc), proc, repl);
    }

    /** How a heal of `proc` may end, `before` it began: a replacement was spawned, and it or `proc` is gone
        or signalled. */
    ghost predicate HealEnds(before: Gw, r: TickResult, proc: Backend, repl: Backend)
      reads this
    {
      || r.NoSpawn?
      || (r.GivenBack? && repl.pid >= before.nextPid && DisposedOf(State(), repl))
      || (r.Replaced? && repl.pid >= before.nextPid && DisposedOf(State(), proc) && HasHealed(before.log, proc, repl))
    }

    method Heal(proc: Backend) returns (r: TickResult, ghost repl: Backend)
      requires Valid() && wd == WSpawning(proc)
      modifies this
      ensures Valid() && wd.WIdle? && old(log) <= log && HealEnds(old(State()), r, proc, repl)
      ensures calm && !old(running) && old(current) == Some(proc) ==> r.Replaced? && current == Some(repl)
    {
      repl := proc;
      var spawned := SpawnReplacement(proc);
      Others(false);
      if spawned.None? {
        return NoSpawn, repl;
      }
      repl := spawned.value;
      var ok := AwaitReplacement(proc, spawned.value);
      Others(false);
      var healed := Settle(proc, spawned.value, ok);
      r := if healed then Replaced else GivenBack;
    }

    /** A tick up to the probes: nothing to watch while an upgrade is running or no backend is current. */
    method Watch() returns (r: TickResult, proc: Backend)
      requires Valid() && wd.WIdle?
      modifies this
      ensures Valid() && Grows(old(State()), State()) && (calm ==> Unmoved(old(State())) && running == old(running))
      ensures (r.Busy? <==> old(running)) && (r.Busy? || r.NoBackend? || r.Quiet?)
      ensures wd == if r.Quiet? then WProbing(proc) else WIdle
      ensures calm && !old(running) && old(current).Some? ==> r.Quiet? && current == Some(proc)
    {
      proc := first;
      var busy := CheckUpgrade();
      Others(false);
      if busy {
        return Busy, proc;
      }
      var watched := ReadWatched();
      Others(false);
      r := NoBackend;
      if watched.Some? {
        r, proc := Quiet, watched.value;
      }
    }

    /** One tick of the watchdog: it too takes steps of the machine only. `failing` is what the probes call
        for. */
    method WatchdogTick(failing: bool) returns (r: TickResult, ghost repl: Backend)
      requires Valid() && wd.WIdle?
      modifies this
      ensures Valid() && wd.WIdle? && old(log) <= log
      ensures (r.Busy? <==> old(running)) && (r.Quiet? ==> !failing)
      ensures r.Busy? || r.NoBackend? || r.Quiet? || (failing && exists proc :: HealEnds(old(State()), r, proc, repl))
      ensures calm && !old(running) && old(current).Some? && failing ==>
        r.Replaced? && current == Some(repl) && repl.pid >= old(nextPid)
    {
      repl := first;
      var proc;
      r, proc := Watch();
      if r.Quiet? {
        Probe(proc, failing);
        Others(false);
        if failing {
          r, repl := Heal(proc);
          assert HealEnds(old(State()), r, proc, repl);
        }
      }
    }
  }

  lemma NextGrows(s: Gw, l: Label)
    ensures Grows(s, Next(s, l))
    ensures !l.Up? ==> Next(s, l).up == s.up && Next(s, l).upgradeNo == s.upgradeNo && Next(s, l).running == s.running
    ensures !l.Wd? ==> Next(s, l).wd == s.wd
  {
    match l
    case Up(u) => UpgradeGrows(s, u);
    case Wd(w) => WatchdogGrows(s, w);
    case Die(_) =>
    case Req(_) =>
  }

  lemma UpgradeGrows(s: Gw, u: UpgradeLabel)
    ensures Grows(s, UpgradeStep(s, u))
  {
  }

  lemma WatchdogGrows(s: Gw, w: WatchdogLabel)
    ensures Grows(s, WatchdogStep(s, w))
  {
  }
}
