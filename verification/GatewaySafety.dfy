/** Whole-run safety of the gateway: what no interleaving of the upgrade, the watchdog, the
    requests and the backends' deaths can break. */
module GatewaySafety {
  import opened Options
  import opened GatewayState
  import opened Gateway

  // ---- the in-flight counters ---------------------------------------------------------

  ghost predicate CountsExact(x: Traffic) {
    && (forall r :: r in x.requests ==> r < x.nextRequest)
    && (forall port: nat :: InflightAt(x.inflight, port) == |InState(x.requests, Counted(port))|)
  }

  lemma CountKeepsCounts(x: Traffic, r: nat)
    requires CountsExact(x) && r in x.requests && x.requests[r].Bound?
    ensures CountsExact(CountStep(x, r))
  {
    var y, p := CountStep(x, r), x.requests[r].port;
    forall port: nat
      ensures InflightAt(y.inflight, port) == |InState(y.requests, Counted(port))|
    {
      var before, after := InState(x.requests, Counted(port)), InState(y.requests, Counted(port));
      assert InflightAt(x.inflight, port) == |before|;
      if port == p {
        assert after == before + {r};
      } else {
        assert after == before;
      }
    }
  }

  lemma DoneKeepsCounts(x: Traffic, r: nat)
    requires CountsExact(x) && r in x.requests && x.requests[r].Counted?
    ensures CountsExact(DoneStep(x, r))
  {
    var y, p := DoneStep(x, r), x.requests[r].port;
    forall port: nat
      ensures InflightAt(y.inflight, port) == |InState(y.requests, Counted(port))|
    {
      var before, after := InState(x.requests, Counted(port)), InState(y.requests, Counted(port));
      assert InflightAt(x.inflight, port) == |before|;
      if port == p {
        assert r in before && after == before - {r};
      } else {
        assert after == before;
      }
    }
  }

  lemma NextKeepsCounts(s: Gw, l: Label)
    requires CountsExact(s.traffic)
    ensures CountsExact(Next(s, l).traffic)
  {
    match l
    case Req(Count(r)) =>
      if r in s.traffic.requests && s.traffic.requests[r].Bound? { CountKeepsCounts(s.traffic, r); }
    case Req(Done(r)) =>
      if r in s.traffic.requests && s.traffic.requests[r].Counted? { DoneKeepsCounts(s.traffic, r); }
    case Req(Bind) =>
      forall port: nat
        ensures InState(Next(s, l).traffic.requests, Counted(port)) == InState(s.traffic.requests, Counted(port)) {}
    case _ =>
  }

  // ---- the drain ----------------------------------------------------------------------

  /** Every request on `port` was still uncounted when the drain loop last looked. */
  ghost predicate OnlyGap(x: Traffic, port: nat, gap: set<nat>) {
    InState(x.requests, Bound(port)) + InState(x.requests, Counted(port)) <= gap
  }

  ghost predicate PortsApart(s: Gw) {
    (PreFlip(s.up) || FlipToFinish(s.up)) && PrevOf(s.up).Some? && PrevOf(s.up).value in s.live
    ==> PrevOf(s.up).value.port != s.up.next.port
  }

  ghost predicate DrainSound(s: Gw) {
    (s.up.UPolling? || s.up.UKillOld?) && s.up.result == Drained && s.up.prev.Some?
    && s.up.prev.value.port != s.up.next.port
    ==> OnlyGap(s.traffic, s.up.prev.value.port, s.up.gap)
  }

  lemma UpgradeKeepsPortsApart(s: Gw, u: UpgradeLabel)
    requires Safe(s) && PortsApart(s)
    ensures PortsApart(UpgradeStep(s, u))
  {
  }

  lemma WatchdogKeepsPortsApart(s: Gw, w: WatchdogLabel)
    requires Safe(s) && PortsApart(s)
    ensures PortsApart(WatchdogStep(s, w))
  {
  }

  /** The reading that ends a drain as drained leaves nothing counted on the old port. */
  lemma DrainEndsSound(s: Gw, u: UpgradeLabel)
    requires Safe(s) && CountsExact(s.traffic) && DrainSound(s)
    requires u.WatchNext? || u.ReadCount? || u.Deadline?
    ensures DrainSound(UpgradeStep(s, u))
  {
  }

  lemma UpgradeKeepsDrainSound(s: Gw, u: UpgradeLabel)
    requires Safe(s) && CountsExact(s.traffic) && DrainSound(s)
    ensures DrainSound(UpgradeStep(s, u))
  {
    if u.WatchNext? || u.ReadCount? || u.Deadline? {
      DrainEndsSound(s, u);
    }
  }

  /** While the old port is being drained no request newly binds to it. */
  lemma RequestsKeepDrainSound(s: Gw, q: RequestLabel)
    requires Safe(s) && DrainSound(s)
    ensures DrainSound(RequestStep(s, q))
  {
    if (s.up.UPolling? || s.up.UKillOld?) && s.up.prev.Some? && s.up.prev.value.port != s.up.next.port {
      assert s.current == Some(s.up.next);
      var x, y, port := s.traffic, RequestStep(s, q).traffic, s.up.prev.value.port;
      forall r | r in InState(y.requests, Bound(port)) + InState(y.requests, Counted(port))
        ensures r in InState(x.requests, Bound(port)) + InState(x.requests, Counted(port)) {}
    }
  }

  lemma NextKeepsDrainSound(s: Gw, l: Label)
    requires Safe(s) && CountsExact(s.traffic) && PortsApart(s) && DrainSound(s)
    ensures PortsApart(Next(s, l)) && DrainSound(Next(s, l))
  {
    match l
    case Up(u) => UpgradeKeepsPortsApart(s, u); UpgradeKeepsDrainSound(s, u);
    case Wd(w) => WatchdogKeepsPortsApart(s, w);
    case Die(_) =>
    case Req(q) => RequestsKeepDrainSound(s, q);
  }
}
