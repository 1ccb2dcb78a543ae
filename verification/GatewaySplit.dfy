/** What the identity tests of the flip and of the heal are worth: they protect only as far as test and
    assignment are one step. Here the assignment comes without its test, as it would if another thread moved
    in between. */
module GatewaySplit {
  import opened Options
  import opened GatewayState
  import opened Gateway
  import opened GatewaySafety
  import opened GatewayTheorems
  import opened GatewaySignals

  /** The flip's assignment, its test having passed some time ago. */
  function FlipAssigned(s: Gw): Gw
    requires s.up.UFlipping?
  {
    var u := s.up;
    s.(current := Some(u.next),
       up := if u.prev.Some? then UDraining(u.prev, u.next, 0) else UPolling(u.prev, u.next, Drained, {}),
       log := s.log + [Flipped(s.upgradeNo, s.current, u.prev, u.next)])
  }

  /** The heal's assignment, its test having passed some time ago. */
  function HealAssigned(s: Gw): Gw
    requires s.wd.WDeciding?
  {
    var w := s.wd;
    s.(current := Some(w.repl), wd := WKillProc(w.proc), log := s.log + [Healed(s.current, w.proc, w.repl)])
  }

  /** While the test would still pass, the assignment is the step of the machine. */
  lemma TestedAssignments(s: Gw)
    ensures s.up.UFlipping? && s.current == s.up.prev ==> FlipAssigned(s) == FlipStep(s)
    ensures s.wd.WDeciding? && s.wd.ready && !s.wd.busy && s.current == Some(s.wd.proc) ==> HealAssigned(s) == WDecideStep(s)
  {
  }

  /** In every run: the flip's assignment without its test leaves a backend running that nobody holds, and
      that was never signalled, if and only if what it overwrites is a live backend other than the one the
      upgrade captured. */
  lemma UntestedFlipOrphansIff(b: Backend, labels: seq<Label>, states: seq<Gw>, i: nat)
    requires IsRun(b, labels, states) && i <= |labels| && states[i].up.UFlipping?
    ensures var s := states[i];
      !NoOrphans(FlipAssigned(s)) <==> s.current != s.up.prev && s.current.Some? && s.current.value in s.live
  {
    RunsAreSound(b, labels, states, i);
    RunsKeepSignals(b, labels, states, i);
    FlipOrphansIff(states[i]);
  }

  lemma FlipOrphansIff(s: Gw)
    requires Safe(s) && SignalsSound(s) && s.up.UFlipping?
    ensures !NoOrphans(FlipAssigned(s)) <==> s.current != s.up.prev && s.current.Some? && s.current.value in s.live
  {
    var t := FlipAssigned(s);
    if s.current != s.up.prev && s.current.Some? && s.current.value in s.live {
      var x := s.current.value;
      assert x in t.live && t.current != Some(x) && x !in t.signalled && !Held(t, x);
    } else {
      forall x | x in t.live
        ensures t.current == Some(x) || x in t.signalled || Held(t, x)
      {
        assert s.current == Some(x) || x in s.signalled || Held(s, x);
      }
    }
  }

  /** In every run: the heal's assignment without its test does so if and only if what it overwrites is a
      live backend other than the one the watchdog found failing. */
  lemma UntestedHealOrphansIff(b: Backend, labels: seq<Label>, states: seq<Gw>, i: nat)
    requires IsRun(b, labels, states) && i <= |labels| && states[i].wd.WDeciding?
    ensures var s := states[i];
      !NoOrphans(HealAssigned(s)) <==> s.current != Some(s.wd.proc) && s.current.Some? && s.current.value in s.live
  {
    RunsAreSound(b, labels, states, i);
    RunsKeepSignals(b, labels, states, i);
    HealOrphansIff(states[i]);
  }

  lemma HealOrphansIff(s: Gw)
    requires Safe(s) && SignalsSound(s) && s.wd.WDeciding?
    ensures !NoOrphans(HealAssigned(s)) <==> s.current != Some(s.wd.proc) && s.current.Some? && s.current.value in s.live
  {
    var t := HealAssigned(s);
    if s.current != Some(s.wd.proc) && s.current.Some? && s.current.value in s.live {
      var x := s.current.value;
      assert x in t.live && t.current != Some(x) && x !in t.signalled && !Held(t, x);
    } else {
      forall x | x in t.live
        ensures t.current == Some(x) || x in t.signalled || Held(t, x)
      {
        assert s.current == Some(x) || x in s.signalled || Held(s, x);
      }
    }
  }

  // ---- a run in which the split would cost a heal -----------------------------------------------

  /** The watchdog has found `b` failing, has a replacement ready, and saw no upgrade running. */
  function AboutToHeal(b: Backend): Gw {
    var repl := Backend(b.pid + 1, b.port + 1);
    Gw(Some(b), {b} + {repl}, {}, b.pid + 2, false, 0, UIdle, WDeciding(b, repl, true, false), Traffic(map[], map[], 0), [])
  }

  lemma ReachProbed(b: Backend)
    ensures Reached(b, Booted(b).(wd := WSpawning(b)))
  {
    var s := Booted(b);
    BootIsReached(b);
    Step(b, s, Wd(WCheck));
    s := s.(wd := WAllowed);
    Step(b, s, Wd(WCapture));
    s := s.(wd := WProbing(b));
    Step(b, s, Wd(WProbe(true)));
  }

  lemma HealerSpawnNext(s: Gw, port: nat)
    requires s.wd.WSpawning? && PortFree(s, port)
    ensures var x := Backend(s.nextPid, port);
      Next(s, Wd(WSpawnOk(port))) == s.(live := s.live + {x}, nextPid := s.nextPid + 1, wd := WPrewarm(s.wd.proc, x))
  {
  }

  lemma ReachReplacement(b: Backend)
    ensures var repl := Backend(b.pid + 1, b.port + 1);
      Reached(b, AboutToHeal(b).(wd := WPrewarm(b, repl)))
  {
    var s := Booted(b).(wd := WSpawning(b));
    ReachProbed(b);
    HealerSpawnNext(s, b.port + 1);
    Step(b, s, Wd(WSpawnOk(b.port + 1)));
  }

  lemma ReachHeal(b: Backend)
    ensures Reached(b, AboutToHeal(b))
  {
    var repl := Backend(b.pid + 1, b.port + 1);
    var s := AboutToHeal(b).(wd := WPrewarm(b, repl));
    ReachReplacement(b);
    Step(b, s, Wd(WReady(true)));
    s := s.(wd := WReading(b, repl, true));
    Step(b, s, Wd(WRead));
  }

  /** Meanwhile an upgrade that captured `b` has its own backend ready. */
  function AboutToFlip(b: Backend): Gw {
    var next := Backend(b.pid + 2, b.port + 2);
    var s := AboutToHeal(b);
    s.(live := s.live + {next}, nextPid := b.pid + 3, running := true, upgradeNo := 1, up := UFlipping(Some(b), next),
       log := [Captured(1, Some(b))])
  }

  function Capturing(b: Backend): Gw {
    AboutToHeal(b).(running := true, upgradeNo := 1, up := USpawning(Some(b)), log := [Captured(1, Some(b))])
  }

  lemma ReachCapture(b: Backend)
    ensures Reached(b, Capturing(b))
  {
    var s := AboutToHeal(b);
    ReachHeal(b);
    Step(b, s, Up(Start));
    s := s.(running := true, upgradeNo := 1, up := UStarted);
    Step(b, s, Up(Capture));
  }

  lemma ReachPrewarm(b: Backend)
    ensures Reached(b, AboutToFlip(b).(up := UPrewarm(Some(b), Backend(b.pid + 2, b.port + 2))))
  {
    ReachCapture(b);
    SpawnNext(Capturing(b), b.port + 2);
    Step(b, Capturing(b), Up(SpawnOk(b.port + 2)));
  }

  lemma ReachBoth(b: Backend)
    ensures Reached(b, AboutToFlip(b))
  {
    var s := AboutToFlip(b).(up := UPrewarm(Some(b), Backend(b.pid + 2, b.port + 2)));
    ReachPrewarm(b);
    ReadyNext(s);
    Step(b, s, Up(Ready));
  }

  /** So if the flip's test and assignment were two steps: the test passes, the watchdog heals, and the
      assignment overwrites the healed backend, which runs on with nobody to end it. Taken as one step the
      flip is given up, as it should be. */
  lemma SplitFlipLosesHeal(b: Backend) returns (s: Gw, t: Gw, repl: Backend)
    ensures Reached(b, s) && s.up.UFlipping? && s.current == s.up.prev
    ensures t == Next(s, Wd(WDecide)) && t.up == s.up && t.current == Some(repl)
    ensures var u := FlipAssigned(t);
      repl in u.live && u.current != Some(repl) && repl !in u.signalled && !Held(u, repl)
    ensures FlipStep(t).current == Some(repl) && FlipStep(t).up.UKillNext?
  {
    ReachBoth(b);
    s := AboutToFlip(b);
    t := Next(s, Wd(WDecide));
    repl := Backend(b.pid + 1, b.port + 1);
  }
}
