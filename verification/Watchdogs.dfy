/** The watchdog's own loop: which probes make it heal, and when it gives up.

    A tick is what the loop finds when it wakes; a trace records what it then did. */
module Watchdogs {
  import opened Options

  datatype HealOutcome = NoSpawn | NeverReady | Deferred | Replaced

  /** `heal` and `healedAt` are what a heal attempted in this tick would come to. */
  datatype Tick = Tick(busy: bool, backend: bool, exited: bool, healthy: bool, now: int,
                       heal: HealOutcome, healedAt: int)

  datatype Action = Skipped | Well(at: int) | Miss | Heal(exited: bool, outcome: HealOutcome, at: int)

  datatype Config = Config(threshold: int, maxFailures: int, stable: int)

  // ---- what the loop's variables stand for ----------------------------------------------

  function Last<T>(xs: seq<T>): T
    requires xs != []
  {
    xs[|xs| - 1]
  }

  function Init<T>(xs: seq<T>): seq<T>
    requires xs != []
  {
    xs[..|xs| - 1]
  }

  function Misses(trace: seq<Action>): nat {
    if trace == [] then 0
    else match Last(trace)
      case Skipped => Misses(Init(trace))
      case Miss => Misses(Init(trace)) + 1
      case _ => 0
  }

  /** The time of the last successful heal not yet confirmed stable. */
  function Unconfirmed(c: Config, trace: seq<Action>): Option<int> {
    if trace == [] then None
    else match Last(trace)
      case Heal(_, Replaced, at) => Some(at)
      case Well(at) =>
        var healed := Unconfirmed(c, Init(trace));
        if Confirms(c, healed, at) then None else healed
      case _ => Unconfirmed(c, Init(trace))
  }

  /** A healthy probe at `at` finds that the backend healed at `healed` survived long enough. */
  predicate Confirms(c: Config, healed: Option<int>, at: int) {
    healed.Some? && at - healed.value >= c.stable
  }

  predicate FailedHeal(a: Action) {
    a.Heal? && (a.outcome == NoSpawn || a.outcome == NeverReady)
  }

  function Failures(c: Config, trace: seq<Action>): nat {
    if trace == [] then 0
    else if Resets(c, trace) then 0
    else Failures(c, Init(trace)) + if FailedHeal(Last(trace)) then 1 else 0
  }

  /** The last action of the trace puts the failure counter back to zero. */
  predicate Resets(c: Config, trace: seq<Action>)
    requires trace != []
  {
    var a := Last(trace);
    (a.Heal? && a.outcome == Replaced) || (a.Well? && Confirms(c, Unconfirmed(c, Init(trace)), a.at))
  }

  predicate GaveUp(c: Config, trace: seq<Action>) {
    trace != [] && Last(trace).Heal? && Last(trace).outcome != Replaced
    && Failures(c, trace) >= c.maxFailures
  }

  // ---- the specification of the loop ------------------------------------------------------

  function Act(c: Config, trace: seq<Action>, t: Tick): Action {
    if t.busy || !t.backend then Skipped
    else if !t.exited && t.healthy then Well(t.now)
    else if !t.exited && Misses(trace) + 1 < c.threshold then Miss
    else Heal(t.exited, t.heal, t.healedAt)
  }

  function Trace(c: Config, ticks: seq<Tick>): seq<Action> {
    if ticks == [] then []
    else
      var before := Trace(c, Init(ticks));
      if GaveUp(c, before) then before else before + [Act(c, before, Last(ticks))]
  }

  // ---- the loop -----------------------------------------------------------------------------

  /** The loop's variables after one more action. */
  lemma AfterOneMore(c: Config, before: seq<Action>, a: Action)
    ensures var t, m, u, f := before + [a], Misses(before), Unconfirmed(c, before), Failures(c, before);
      && Misses(t) == (if a.Skipped? then m else if a.Miss? then m + 1 else 0)
      && Unconfirmed(c, t) == (if a.Heal? && a.outcome == Replaced then Some(a.at)
                               else if a.Well? && Confirms(c, u, a.at) then None
                               else u)
      && Failures(c, t) == (if a.Heal? && a.outcome == Replaced then 0
                            else if a.Well? && Confirms(c, u, a.at) then 0
                            else if FailedHeal(a) then f + 1
                            else f)
      && (GaveUp(c, t) <==> a.Heal? && a.outcome != Replaced && Failures(c, t) >= c.maxFailures)
  {
    assert Init(before + [a]) == before && Last(before + [a]) == a;
  }

  method WatchdogLoop(c: Config, ticks: seq<Tick>) returns (trace: seq<Action>, gaveUp: bool)
    ensures trace == Trace(c, ticks)
    ensures gaveUp <==> GaveUp(c, trace)
  {
    var misses: int, failures: int, lastHealOk: Option<int> := 0, 0, None;
    trace, gaveUp := [], false;
    var i := 0;
    while i < |ticks| && !gaveUp
      invariant 0 <= i <= |ticks|
      invariant trace == Trace(c, ticks[..i])
      invariant gaveUp <==> GaveUp(c, trace)
      invariant misses == Misses(trace) && failures == Failures(c, trace)
      invariant lastHealOk == Unconfirmed(c, trace)
    {
      var t := ticks[i];
      OneMoreTick(c, ticks, i);
      AfterOneMore(c, trace, Act(c, trace, t));
      i := i + 1;
      if t.busy || !t.backend {
        trace := trace + [Skipped];
      } else if !t.exited && t.healthy {
        misses := 0;
        trace := trace + [Well(t.now)];
        if lastHealOk.Some? && t.now - lastHealOk.value >= c.stable {
          failures, lastHealOk := 0, None;
        }
      } else {
        misses := if t.exited then c.threshold else misses + 1;
        if misses < c.threshold {
          trace := trace + [Miss];
        } else {
          misses := 0;
          trace := trace + [Heal(t.exited, t.heal, t.healedAt)];
          match t.heal {
            case NoSpawn => failures := failures + 1;
            case NeverReady => failures := failures + 1;
            case Deferred =>
            case Replaced => failures, lastHealOk := 0, Some(t.healedAt);
          }
          gaveUp := t.heal != Replaced && failures >= c.maxFailures;
        }
      }
    }
    GivingUpIsFinal(c, ticks, i);
    assert ticks[..|ticks|] == ticks;
  }

  lemma OneMoreTick(c: Config, ticks: seq<Tick>, i: nat)
    requires i < |ticks|
    ensures var before := Trace(c, ticks[..i]);
      Trace(c, ticks[..i + 1]) == if GaveUp(c, before) then before else before + [Act(c, before, ticks[i])]
  {
    assert Init(ticks[..i + 1]) == ticks[..i];
  }

  // ---- what the promises come to ------------------------------------------------------------

  lemma {:induction false} GivingUpIsFinal(c: Config, ticks: seq<Tick>, i: nat)
    requires i <= |ticks|
    ensures GaveUp(c, Trace(c, ticks[..i])) ==> Trace(c, ticks) == Trace(c, ticks[..i])
  {
    if i < |ticks| {
      GivingUpIsFinal(c, Init(ticks), i);
      assert Init(ticks)[..i] == ticks[..i];
    } else {
      assert ticks[..i] == ticks;
    }
  }

  function Probes(trace: seq<Action>): seq<Action> {
    if trace == [] then []
    else Probes(Init(trace)) + if Last(trace).Skipped? then [] else [Last(trace)]
  }

  /** The miss counter is the length of the run of failed probes that ends the trace, skipped ticks
      not interrupting it. */
  lemma {:induction false} MissesAreTheLastProbes(trace: seq<Action>)
    ensures var m, p := Misses(trace), Probes(trace);
            && m <= |p|
            && (forall j :: |p| - m <= j < |p| ==> p[j] == Miss)
            && (m < |p| ==> p[|p| - m - 1] != Miss)
  {
    if trace != [] {
      MissesAreTheLastProbes(Init(trace));
    }
  }

  lemma {:induction false} TraceIsActs(c: Config, ticks: seq<Tick>, i: nat)
    requires i < |Trace(c, ticks)|
    ensures |Trace(c, ticks)| <= |ticks|
    ensures var trace := Trace(c, ticks);
            trace[i] == Act(c, trace[..i], ticks[i]) && !GaveUp(c, trace[..i])
  {
    var before := Trace(c, Init(ticks));
    if i < |before| {
      TraceIsActs(c, Init(ticks), i);
      assert Trace(c, ticks)[..i] == before[..i];
    } else {
      TraceLength(c, Init(ticks));
      assert Trace(c, ticks)[..i] == before;
    }
    TraceLength(c, ticks);
  }

  lemma {:induction false} TraceLength(c: Config, ticks: seq<Tick>)
    ensures |Trace(c, ticks)| <= |ticks|
    ensures !GaveUp(c, Trace(c, ticks)) ==> |Trace(c, ticks)| == |ticks|
  {
    if ticks != [] {
      TraceLength(c, Init(ticks));
    }
  }

  /** What each action says of its tick, and the other way round: only a tick that sees an upgrade running
      or no backend is skipped, a healthy probe is recorded with its time, and a heal with its outcome. */
  lemma ActionsMean(c: Config, ticks: seq<Tick>, i: nat)
    requires i < |Trace(c, ticks)|
    ensures i < |ticks|
    ensures var a, t := Trace(c, ticks)[i], ticks[i];
            && (a.Skipped? <==> t.busy || !t.backend)
            && (a.Well? <==> !t.busy && t.backend && !t.exited && t.healthy) && (a.Well? ==> a.at == t.now)
            && (a.Miss? ==> !t.busy && t.backend && !t.exited && !t.healthy)
            && (a.Heal? ==> !t.busy && t.backend && (t.exited || !t.healthy) && a == Heal(t.exited, t.heal, t.healedAt))
  {
    TraceIsActs(c, ticks, i);
  }

  ghost predicate LastMissed(p: seq<Action>, n: int) {
    n <= |p| && forall j :: 0 <= j && |p| - n <= j < |p| ==> p[j] == Miss
  }

  /** A tick that sees a backend failing heals exactly when the process has exited or this is at
      least the `threshold`-th failed probe in a row; any other tick does not heal. */
  lemma HealsAreJustified(c: Config, ticks: seq<Tick>, i: nat)
    requires i < |Trace(c, ticks)|
    ensures i < |ticks|
    ensures var trace, t := Trace(c, ticks), ticks[i];
            trace[i].Heal? <==>
              && !t.busy && t.backend && (t.exited || !t.healthy)
              && (t.exited || LastMissed(Probes(trace[..i]), c.threshold - 1))
  {
    TraceIsActs(c, ticks, i);
    var trace := Trace(c, ticks);
    var p, m := Probes(trace[..i]), Misses(trace[..i]);
    MissesAreTheLastProbes(trace[..i]);
    if c.threshold - 1 > m && m < |p| {
      assert p[|p| - m - 1] != Miss;
      assert !LastMissed(p, c.threshold - 1);
    }
  }

  function FailedHeals(trace: seq<Action>): nat {
    if trace == [] then 0 else FailedHeals(Init(trace)) + if FailedHeal(Last(trace)) then 1 else 0
  }

  /** The position just after the last action that put the failure counter back to zero. */
  function LastReset(c: Config, trace: seq<Action>): nat {
    if trace == [] then 0 else if Resets(c, trace) then |trace| else LastReset(c, Init(trace))
  }

  lemma {:induction false} FailuresSinceReset(c: Config, trace: seq<Action>)
    ensures LastReset(c, trace) <= |trace|
    ensures Failures(c, trace) == FailedHeals(trace[LastReset(c, trace)..])
    ensures forall j :: LastReset(c, trace) <= j < |trace| ==> !(trace[j].Heal? && trace[j].outcome == Replaced)
  {
    if trace != [] {
      FailuresSinceReset(c, Init(trace));
      var k := LastReset(c, trace);
      if !Resets(c, trace) {
        assert Init(trace[k..]) == Init(trace)[k..] && Last(trace[k..]) == Last(trace);
      }
    }
  }

  lemma {:induction false} FailuresBounded(c: Config, ticks: seq<Tick>)
    requires c.maxFailures >= 1
    ensures var trace := Trace(c, ticks);
            Failures(c, trace) <= c.maxFailures && (Failures(c, trace) == c.maxFailures ==> GaveUp(c, trace))
  {
    if ticks != [] {
      FailuresBounded(c, Init(ticks));
      var before := Trace(c, Init(ticks));
      if !GaveUp(c, before) {
        var trace := Trace(c, ticks);
        assert Init(trace) == before;
      }
    }
  }

  // ---- the same, on the positions and times of the trace ----------------------------------------

  /** Action j is a heal that worked, and no heal after it up to k did. */
  ghost predicate LastHealAt(trace: seq<Action>, j: nat, k: nat)
    requires j < k <= |trace|
  {
    && trace[j].Heal? && trace[j].outcome.Replaced?
    && forall m :: j < m < k ==> !(trace[m].Heal? && trace[m].outcome.Replaced?)
  }

  /** Up to k no healthy probe has come `stable` seconds or more after the heal at j. */
  ghost predicate NotYetStable(c: Config, trace: seq<Action>, j: nat, k: nat)
    requires j < k <= |trace| && trace[j].Heal?
  {
    forall m :: j < m < k ==> !(trace[m].Well? && trace[m].at - trace[j].at >= c.stable)
  }

  /** Action k puts the failure counter back: it is a heal that worked, or the first healthy probe `stable`
      seconds or more after the last heal that did. */
  ghost predicate Clears(c: Config, trace: seq<Action>, k: nat)
    requires k < |trace|
  {
    || (trace[k].Heal? && trace[k].outcome.Replaced?)
    || (trace[k].Well? && exists j :: 0 <= j < k && LastHealAt(trace, j, k) && NotYetStable(c, trace, j, k)
                                       && trace[k].at - trace[j].at >= c.stable)
  }

  /** The unconfirmed heal of the trace is the last one that worked, if it is not stable yet. */
  lemma {:induction false} UnconfirmedIs(c: Config, trace: seq<Action>)
    ensures forall j :: 0 <= j < |trace| && LastHealAt(trace, j, |trace|) && NotYetStable(c, trace, j, |trace|) ==>
      Unconfirmed(c, trace) == Some(trace[j].at)
    ensures Unconfirmed(c, trace).Some? ==>
      exists j :: 0 <= j < |trace| && LastHealAt(trace, j, |trace|) && NotYetStable(c, trace, j, |trace|)
  {
    if trace != [] {
      var n := |trace| - 1;
      var before := Init(trace);
      UnconfirmedIs(c, before);
      forall j | 0 <= j < n
        ensures LastHealAt(trace, j, n + 1) ==> LastHealAt(before, j, n)
        ensures LastHealAt(before, j, n) && !(trace[n].Heal? && trace[n].outcome.Replaced?) ==> LastHealAt(trace, j, n + 1)
        ensures trace[j].Heal? && NotYetStable(c, trace, j, n + 1) ==> NotYetStable(c, before, j, n)
        ensures trace[j].Heal? && NotYetStable(c, before, j, n) && !(trace[n].Well? && trace[n].at - trace[j].at >= c.stable)
          ==> NotYetStable(c, trace, j, n + 1)
      {
      }
      if Unconfirmed(c, trace).Some? {
        if trace[n].Heal? && trace[n].outcome.Replaced? {
          assert LastHealAt(trace, n, n + 1) && NotYetStable(c, trace, n, n + 1);
        } else {
          var j :| 0 <= j < n && LastHealAt(before, j, n) && NotYetStable(c, before, j, n);
          assert LastHealAt(trace, j, n + 1) && NotYetStable(c, trace, j, n + 1);
        }
      }
    }
  }

  lemma ResetsIsClears(c: Config, trace: seq<Action>)
    requires trace != []
    ensures Resets(c, trace) <==> Clears(c, trace, |trace| - 1)
  {
    var n := |trace| - 1;
    var before := Init(trace);
    UnconfirmedIs(c, before);
    forall j | 0 <= j < n
      ensures LastHealAt(trace, j, n) <==> LastHealAt(before, j, n)
      ensures trace[j].Heal? ==> (NotYetStable(c, trace, j, n) <==> NotYetStable(c, before, j, n))
    {
    }
  }

  lemma ClearsIsLocal(c: Config, trace: seq<Action>, n: nat, k: nat)
    requires k < n <= |trace|
    ensures Clears(c, trace[..n], k) <==> Clears(c, trace, k)
  {
    var t := trace[..n];
    forall j | 0 <= j < k
      ensures LastHealAt(t, j, k) <==> LastHealAt(trace, j, k)
      ensures trace[j].Heal? ==> (NotYetStable(c, t, j, k) <==> NotYetStable(c, trace, j, k))
    {
    }
  }

  /** k is the position after the last action that puts the counter back, 0 if none does. */
  ghost predicate SinceClear(c: Config, trace: seq<Action>, k: nat) {
    && k <= |trace| && (k > 0 ==> Clears(c, trace, k - 1))
    && forall m :: k <= m < |trace| ==> !Clears(c, trace, m)
  }

  lemma {:induction false} LastResetIsClear(c: Config, trace: seq<Action>)
    ensures SinceClear(c, trace, LastReset(c, trace))
  {
    if trace != [] {
      var n := |trace| - 1;
      ResetsIsClears(c, trace);
      if !Resets(c, trace) {
        LastResetIsClear(c, Init(trace));
        forall k | 0 <= k < n
          ensures Clears(c, Init(trace), k) <==> Clears(c, trace, k)
        {
          ClearsIsLocal(c, trace, n, k);
        }
      }
    }
  }

  /** How the heals of a trace came out, in order. */
  function Outcomes(trace: seq<Action>): seq<HealOutcome> {
    if trace == [] then []
    else Outcomes(trace[..|trace| - 1]) + if trace[|trace| - 1].Heal? then [trace[|trace| - 1].outcome] else []
  }

  lemma {:induction false} FailedHealsCount(trace: seq<Action>)
    ensures FailedHeals(trace) == multiset(Outcomes(trace))[NoSpawn] + multiset(Outcomes(trace))[NeverReady]
  {
    if trace != [] {
      FailedHealsCount(Init(trace));
    }
  }

  /** The gateway gives up exactly when `maxFailures` heals have failed, for want of a new backend or of its
      readiness, since the counter was last put back (position k); nothing from there on was a heal that
      worked. Deferred heals count neither way. With no attempts allowed it gives up at the first heal that
      does not succeed. */
  lemma GivesUpExactly(c: Config, ticks: seq<Tick>) returns (k: nat)
    ensures k == LastReset(c, Trace(c, ticks)) && SinceClear(c, Trace(c, ticks), k)
    ensures var trace := Trace(c, ticks);
            var outcomes := multiset(Outcomes(trace[k..]));
            && (forall j :: k <= j < |trace| ==> !(trace[j].Heal? && trace[j].outcome == Replaced))
            && (GaveUp(c, trace) <==>
                  if c.maxFailures >= 1 then outcomes[NoSpawn] + outcomes[NeverReady] == c.maxFailures
                  else trace != [] && Last(trace).Heal? && Last(trace).outcome != Replaced)
  {
    var trace := Trace(c, ticks);
    k := LastReset(c, trace);
    if c.maxFailures >= 1 {
      FailuresBounded(c, ticks);
    }
    FailuresSinceReset(c, trace);
    LastResetIsClear(c, trace);
    FailedHealsCount(trace[k..]);
  }

  lemma TraceSnoc(c: Config, ticks: seq<Tick>, t: Tick) returns (more: seq<Tick>)
    ensures more == ticks + [t]
    ensures !GaveUp(c, Trace(c, ticks)) ==>
      Trace(c, more) == Trace(c, ticks) + [Act(c, Trace(c, ticks), t)] &&
      Init(Trace(c, more)) == Trace(c, ticks)
  {
    more := ticks + [t];
    assert Init(more) == ticks;
  }

  /** A tick that finds the process gone and heals it with this outcome. */
  lemma HealsOnce(c: Config, ticks: seq<Tick>, t: Tick) returns (more: seq<Tick>)
    requires !GaveUp(c, Trace(c, ticks)) && t.exited && t.backend && !t.busy
    ensures var before, trace := Trace(c, ticks), Trace(c, more);
            var a := Heal(true, t.heal, t.healedAt);
            && trace == before + [a]
            && Unconfirmed(c, trace) == (if t.heal == Replaced then Some(t.healedAt) else Unconfirmed(c, before))
            && Failures(c, trace) ==
                 (if t.heal == Replaced then 0 else if FailedHeal(a) then Failures(c, before) + 1 else Failures(c, before))
            && (GaveUp(c, trace) <==> t.heal != Replaced && Failures(c, trace) >= c.maxFailures)
  {
    more := TraceSnoc(c, ticks, t);
    AfterOneMore(c, Trace(c, ticks), Heal(true, t.heal, t.healedAt));
  }

  /** A heal that worked, and two that did not. */
  lemma TwoFailures(c: Config, failing: Tick) returns (ticks: seq<Tick>)
    requires c == Config(3, 3, 60) && failing == Tick(false, true, true, false, 0, NeverReady, 0)
    ensures var trace := Trace(c, ticks);
            && |trace| == 3 && trace[0] == Heal(true, Replaced, 0) && FailedHeal(trace[1]) && FailedHeal(trace[2])
            && !GaveUp(c, trace) && Failures(c, trace) == 2 && Unconfirmed(c, trace) == Some(0)
  {
    assert Trace(c, []) == [];
    ticks := HealsOnce(c, [], failing.(heal := Replaced));
    ticks := HealsOnce(c, ticks, failing);
    ticks := HealsOnce(c, ticks, failing);
  }

  /** A successful heal is not the only thing that puts the counter back: after one, a healthy probe
      late enough does it again, so `maxFailures` heals can fail with no success between them and
      the gateway still not give up. */
  lemma StabilityForgivesFailures() returns (c: Config, ticks: seq<Tick>)
    ensures c == Config(3, 3, 60)
    ensures var trace := Trace(c, ticks);
            && |trace| == 5 && !GaveUp(c, trace)
            && trace[0] == Heal(true, Replaced, 0)
            && FailedHeal(trace[1]) && FailedHeal(trace[2]) && trace[3] == Well(60) && FailedHeal(trace[4])
  {
    c := Config(3, 3, 60);
    var failing := Tick(false, true, true, false, 0, NeverReady, 0);
    ticks := TwoFailures(c, failing);
    ticks := TraceSnoc(c, ticks, Tick(false, true, false, true, 60, NeverReady, 0));
    assert Failures(c, Trace(c, ticks)) == 0;
    ticks := TraceSnoc(c, ticks, failing);
  }

  /** But a healthy probe that comes too early after that heal forgives nothing. */
  lemma EarlyProbeForgivesNothing() returns (c: Config, ticks: seq<Tick>)
    ensures c == Config(3, 3, 60)
    ensures var trace := Trace(c, ticks);
            && |trace| == 5 && GaveUp(c, trace)
            && trace[0] == Heal(true, Replaced, 0)
            && FailedHeal(trace[1]) && FailedHeal(trace[2]) && trace[3] == Well(5) && FailedHeal(trace[4])
  {
    c := Config(3, 3, 60);
    var failing := Tick(false, true, true, false, 0, NeverReady, 0);
    ticks := TwoFailures(c, failing);
    AfterOneMore(c, Trace(c, ticks), Well(5));
    ticks := TraceSnoc(c, ticks, Tick(false, true, false, true, 5, NeverReady, 0));
    assert Failures(c, Trace(c, ticks)) == 2;
    ticks := HealsOnce(c, ticks, failing);
  }
}
