/** What async ingest keeps over every run, and where its drop reports go wrong. */
module IngestTheorems {
  import opened Options
  import opened IngestState

  // ---- conservation -------------------------------------------------------------------------

  lemma Snoc(turns: seq<Turn>, t: Turn, tid: nat)
    ensures Among(turns + [t], tid) == Among(turns, tid) + Carries(Some(t), tid)
  {
    assert (turns + [t])[..|turns|] == turns;
  }

  lemma {:induction false} Pop(turns: seq<Turn>, tid: nat)
    requires turns != []
    ensures Among(turns, tid) == Carries(Some(turns[0]), tid) + Among(turns[1..], tid)
  {
    var n := |turns| - 1;
    if n > 0 {
      Pop(turns[..n], tid);
      assert turns[1..][..n - 1] == turns[..n][1..];
    }
  }

  lemma SnocTimer(timers: seq<Timer>, m: Timer, tid: nat)
    ensures AmongTimers(timers + [m], tid) == AmongTimers(timers, tid) + Carries(Some(m.turn), tid)
  {
    assert (timers + [m])[..|timers|] == timers;
  }

  lemma {:induction false} RemoveTimer(timers: seq<Timer>, i: nat, tid: nat)
    requires i < |timers|
    ensures AmongTimers(timers, tid)
         == Carries(Some(timers[i].turn), tid) + AmongTimers(timers[..i] + timers[i + 1..], tid)
  {
    var n := |timers| - 1;
    var gone := timers[..i] + timers[i + 1..];
    if i == n {
      assert gone == timers[..n];
    } else {
      RemoveTimer(timers[..n], i, tid);
      assert gone[..n - 1] == timers[..n][..i] + timers[..n][i + 1..];
    }
  }

  lemma {:induction false} UpdateBusy(busy: seq<Option<Turn>>, w: nat, o: Option<Turn>, tid: nat)
    requires w < |busy|
    ensures AmongBusy(busy[w := o], tid) + Carries(busy[w], tid) == AmongBusy(busy, tid) + Carries(o, tid)
  {
    var n := |busy| - 1;
    if w == n {
      assert busy[w := o][..n] == busy[..n];
    } else {
      UpdateBusy(busy[..n], w, o, tid);
      assert busy[w := o][..n] == busy[..n][w := o];
    }
  }

  lemma RememberMoves(cfg: Config, s: Ingest, id: nat, tid: nat)
    ensures Places(RememberStep(cfg, s, id), tid)
         == Places(s, tid) + if id == tid && id !in s.accepted then 1 else 0
  {
    Snoc(s.queue, Turn(id, 0, 0, 0.0), tid);
    assert (s.synced + [id])[..|s.synced|] == s.synced;
  }

  lemma TakeMoves(s: Ingest, w: nat, tid: nat)
    ensures Places(TakeStep(s, w), tid) == Places(s, tid)
  {
    if w < |s.busy| == |s.local| && s.busy[w].None? && s.queue != [] {
      Pop(s.queue, tid);
      UpdateBusy(s.busy, w, Some(s.queue[0].(takes := s.queue[0].takes + 1)), tid);
    }
  }

  /** A finished turn leaves its worker for one other place. */
  lemma HandedOn(s: Ingest, u: Ingest, w: nat, tid: nat)
    requires w < |s.busy| && s.busy[w].Some? && u.busy == s.busy[w := None] && u.queue == s.queue
    requires u.synced == s.synced
    requires var t := s.busy[w].value;
      || (u.completed == s.completed + [t] && u.dropped == s.dropped && u.timers == s.timers)
      || (u.completed == s.completed && u.dropped == s.dropped + [t] && u.timers == s.timers)
      || (u.completed == s.completed && u.dropped == s.dropped &&
          exists m: Timer :: m.turn.tid == t.tid && u.timers == s.timers + [m])
    ensures Places(u, tid) == Places(s, tid)
  {
    var t := s.busy[w].value;
    UpdateBusy(s.busy, w, None, tid);
    Snoc(s.completed, t, tid);
    Snoc(s.dropped, t, tid);
    if u.timers != s.timers {
      var m: Timer :| m.turn.tid == t.tid && u.timers == s.timers + [m];
      SnocTimer(s.timers, m, tid);
    }
  }

  lemma FinishMoves(cfg: Config, s: Ingest, w: nat, r: Result, tid: nat)
    ensures Places(FinishStep(cfg, s, w, r), tid) == Places(s, tid)
  {
    if w < |s.busy| == |s.local| && s.busy[w].Some? {
      HandedOn(s, FinishStep(cfg, s, w, r), w, tid);
    }
  }

  lemma FireMoves(cfg: Config, s: Ingest, i: nat, tid: nat)
    ensures Places(FireStep(cfg, s, i), tid) == Places(s, tid)
  {
    if i < |s.timers| {
      RemoveTimer(s.timers, i, tid);
      Snoc(s.queue, s.timers[i].turn, tid);
      Snoc(s.dropped, s.timers[i].turn, tid);
    }
  }

  /** A step moves a turn from one place to another, or brings in a new one. */
  lemma NextMoves(cfg: Config, s: Ingest, l: Label, tid: nat)
    ensures Places(Next(cfg, s, l), tid) == Places(s, tid) + if l == Remember(tid) && tid !in s.accepted then 1 else 0
  {
    match l
    case Remember(id) => RememberMoves(cfg, s, id, tid);
    case Take(w) => TakeMoves(s, w, tid);
    case Finish(w, r) => FinishMoves(cfg, s, w, r, tid);
    case Fire(i) => FireMoves(cfg, s, i, tid);
    case Tick(_) =>
  }

  lemma NextAccepts(cfg: Config, s: Ingest, l: Label)
    ensures Next(cfg, s, l).accepted == if l.Remember? then s.accepted + {l.tid} else s.accepted
  {
  }

  /** Turn `tid` is in exactly one place if it was handed over, and nowhere otherwise. */
  predicate InOnePlace(s: Ingest, tid: nat) {
    Places(s, tid) == if tid in s.accepted then 1 else 0
  }

  lemma FinishBounds(cfg: Config, s: Ingest, w: nat, r: Result)
    requires Bounded(cfg, s) && Reported(s)
    ensures Bounded(cfg, FinishStep(cfg, s, w, r)) && Reported(FinishStep(cfg, s, w, r))
  {
  }

  lemma FireBounds(cfg: Config, s: Ingest, i: nat)
    requires Bounded(cfg, s) && Reported(s)
    ensures Bounded(cfg, FireStep(cfg, s, i)) && Reported(FireStep(cfg, s, i))
  {
  }

  lemma TakeBounds(cfg: Config, s: Ingest, w: nat)
    requires Bounded(cfg, s) && Reported(s)
    ensures Bounded(cfg, TakeStep(s, w)) && Reported(TakeStep(s, w))
  {
  }

  lemma NextBounds(cfg: Config, s: Ingest, l: Label)
    requires Bounded(cfg, s) && Reported(s)
    ensures Bounded(cfg, Next(cfg, s, l)) && Reported(Next(cfg, s, l))
  {
    match l
    case Finish(w, r) => FinishBounds(cfg, s, w, r);
    case Fire(i) => FireBounds(cfg, s, i);
    case Take(w) => TakeBounds(cfg, s, w);
    case Remember(_) | Tick(_) =>
  }

  // ---- whole runs -----------------------------------------------------------------------------

  /** Every turn handed over is in exactly one place: queued, with a worker, on a timer, written,
      dropped, or processed in its own request. */
  lemma {:induction false} NothingIsLost(cfg: Config, s: Ingest, labels: seq<Label>, tid: nat)
    requires InOnePlace(s, tid)
    ensures InOnePlace(Run(cfg, s, labels), tid)
    decreases labels
  {
    if labels != [] {
      NextMoves(cfg, s, labels[0], tid);
      NextAccepts(cfg, s, labels[0]);
      NothingIsLost(cfg, Next(cfg, s, labels[0]), labels[1..], tid);
    }
  }

  lemma {:induction false} RunsStayBounded(cfg: Config, s: Ingest, labels: seq<Label>)
    requires Bounded(cfg, s) && Reported(s)
    ensures Bounded(cfg, Run(cfg, s, labels)) && Reported(Run(cfg, s, labels))
    decreases labels
  {
    if labels != [] {
      NextBounds(cfg, s, labels[0]);
      RunsStayBounded(cfg, Next(cfg, s, labels[0]), labels[1..]);
    }
  }

  /** From a started server: every turn is in exactly one place, every drop left a report, the queue
      stays within its bound, and no turn, wherever it is, was taken up more than retries + 1 times; one
      that waits for its next turn has one left. */
  lemma FromStart(cfg: Config, workers: nat, labels: seq<Label>, tid: nat)
    ensures var t := Run(cfg, Started(workers), labels);
      && InOnePlace(t, tid)
      && |t.reports| == |t.dropped| && (cfg.capacity > 0 ==> |t.queue| <= cfg.capacity)
      && (forall i :: 0 <= i < |t.queue| ==> t.queue[i].takes <= Retries(cfg))
      && (forall i :: 0 <= i < |t.timers| ==> t.timers[i].turn.takes <= Retries(cfg))
      && (forall w :: 0 <= w < |t.busy| && t.busy[w].Some? ==> 1 <= t.busy[w].value.takes <= Retries(cfg) + 1)
      && (forall i :: 0 <= i < |t.completed| ==> 1 <= t.completed[i].takes <= Retries(cfg) + 1)
      && (forall i :: 0 <= i < |t.dropped| ==> t.dropped[i].takes <= Retries(cfg) + 1)
  {
    NobodyBusy(workers, tid);
    NothingIsLost(cfg, Started(workers), labels, tid);
    RunsStayBounded(cfg, Started(workers), labels);
  }

  lemma {:induction false} NobodyBusy(workers: nat, tid: nat)
    ensures AmongBusy(seq(workers, _ => None), tid) == 0
  {
    if workers > 0 {
      NobodyBusy(workers - 1, tid);
      assert seq<Option<Turn>>(workers, _ => None)[..workers - 1] == seq<Option<Turn>>(workers - 1, _ => None);
    }
  }

  /** What makes a step drop a turn. */
  predicate DropCause(cfg: Config, s: Ingest, l: Label) {
    || (l.Finish? && l.w < |s.busy| == |s.local| && s.busy[l.w].Some? &&
        (l.r == Broken || (l.r == Transient && s.busy[l.w].value.attempt >= cfg.maxRetries)))
    || (l.Fire? && l.i < |s.timers| && s.timers[l.i].due <= s.now && s.timers[l.i].worker < |s.local| &&
        Full(cfg, |s.queue|))
  }

  predicate WriteCause(s: Ingest, l: Label) {
    l.Finish? && l.w < |s.busy| == |s.local| && s.busy[l.w].Some? && l.r == Written
  }

  /** The turn a step has a cause to drop, and the one it has a cause to call written. */
  function ToDrop(cfg: Config, s: Ingest, l: Label): seq<Turn> {
    if !DropCause(cfg, s, l) then []
    else if l.Finish? then [s.busy[l.w].value] else [s.timers[l.i].turn]
  }

  function ToWrite(s: Ingest, l: Label): seq<Turn> {
    if WriteCause(s, l) then [s.busy[l.w].value] else []
  }

  /** Those turns over a whole run, in order. */
  function AllToDrop(cfg: Config, s: Ingest, labels: seq<Label>): seq<Turn>
    decreases labels
  {
    if labels == [] then [] else ToDrop(cfg, s, labels[0]) + AllToDrop(cfg, Next(cfg, s, labels[0]), labels[1..])
  }

  function AllToWrite(cfg: Config, s: Ingest, labels: seq<Label>): seq<Turn>
    decreases labels
  {
    if labels == [] then [] else ToWrite(s, labels[0]) + AllToWrite(cfg, Next(cfg, s, labels[0]), labels[1..])
  }

  lemma NextHasCause(cfg: Config, s: Ingest, l: Label)
    ensures Next(cfg, s, l).dropped == s.dropped + ToDrop(cfg, s, l)
    ensures Next(cfg, s, l).completed == s.completed + ToWrite(s, l)
  {
  }

  /** The dropped turns are, in order, exactly those a worker held when its processing failed for good or
      with no retries left, and those whose retry met a full queue; the written ones are exactly those a
      worker held when its processing succeeded. */
  lemma {:induction false} DropsHaveCauses(cfg: Config, s: Ingest, labels: seq<Label>)
    ensures Run(cfg, s, labels).dropped == s.dropped + AllToDrop(cfg, s, labels)
    ensures Run(cfg, s, labels).completed == s.completed + AllToWrite(cfg, s, labels)
    decreases labels
  {
    if labels != [] {
      NextHasCause(cfg, s, labels[0]);
      DropsHaveCauses(cfg, Next(cfg, s, labels[0]), labels[1..]);
    }
  }

  // ---- first in, first out ----------------------------------------------------------------------

  function Tids(turns: seq<Turn>): seq<nat> {
    seq(|turns|, i requires 0 <= i < |turns| => turns[i].tid)
  }

  /** The turn a step puts at the end of the queue: a request's own, or one whose retry is due. */
  function Joins(cfg: Config, s: Ingest, l: Label): seq<nat> {
    if Full(cfg, |s.queue|) then []
    else if l.Remember? && l.tid !in s.accepted then [l.tid]
    else if l.Fire? && l.i < |s.timers| && s.timers[l.i].due <= s.now && s.timers[l.i].worker < |s.local|
      then [s.timers[l.i].turn.tid]
    else []
  }

  /** An idle worker asks for a turn, and there is one. */
  predicate Served(s: Ingest, l: Label) {
    l.Take? && l.w < |s.busy| == |s.local| && s.busy[l.w].None? && s.queue != []
  }

  /** The turn that the worker asking for one is found with afterwards. */
  function Handed(cfg: Config, s: Ingest, l: Label): seq<nat> {
    if !Served(s, l) then []
    else
      var busy := Next(cfg, s, l).busy;
      if l.w < |busy| && busy[l.w].Some? then [busy[l.w].value.tid] else []
  }

  function AllJoins(cfg: Config, s: Ingest, labels: seq<Label>): seq<nat>
    decreases labels
  {
    if labels == [] then [] else Joins(cfg, s, labels[0]) + AllJoins(cfg, Next(cfg, s, labels[0]), labels[1..])
  }

  function AllHanded(cfg: Config, s: Ingest, labels: seq<Label>): seq<nat>
    decreases labels
  {
    if labels == [] then [] else Handed(cfg, s, labels[0]) + AllHanded(cfg, Next(cfg, s, labels[0]), labels[1..])
  }

  lemma NextIsFifo(cfg: Config, s: Ingest, l: Label)
    ensures Tids(s.queue) + Joins(cfg, s, l) == Handed(cfg, s, l) + Tids(Next(cfg, s, l).queue)
    ensures Served(s, l) ==> |Handed(cfg, s, l)| == 1
  {
    var t := Next(cfg, s, l);
    if Served(s, l) {
      assert Tids(s.queue) == [s.queue[0].tid] + Tids(s.queue[1..]);
    } else if Joins(cfg, s, l) != [] {
      assert t.queue[..|s.queue|] == s.queue && |t.queue| == |s.queue| + 1;
    }
  }

  lemma Regroup(a: seq<nat>, b: seq<nat>, c: seq<nat>, x: seq<nat>, y: seq<nat>, d: seq<nat>, z: seq<nat>)
    requires a + b == x + y && y + c == d + z
    ensures a + (b + c) == (x + d) + z
  {
    assert a + (b + c) == (a + b) + c == x + (y + c) == x + (d + z) == (x + d) + z;
  }

  /** First in, first out over a whole run: what was queued, and then what joined the queue, is in that order
      what workers were handed, and then what is still queued. */
  lemma {:induction false} TurnsAreFifo(cfg: Config, s: Ingest, labels: seq<Label>)
    ensures Tids(s.queue) + AllJoins(cfg, s, labels) == AllHanded(cfg, s, labels) + Tids(Run(cfg, s, labels).queue)
    decreases labels
  {
    if labels != [] {
      var l, t := labels[0], Next(cfg, s, labels[0]);
      var joins, handed := AllJoins(cfg, t, labels[1..]), AllHanded(cfg, t, labels[1..]);
      NextIsFifo(cfg, s, l);
      TurnsAreFifo(cfg, t, labels[1..]);
      var left := Tids(Run(cfg, s, labels).queue);
      Regroup(Tids(s.queue), Joins(cfg, s, l), joins, Handed(cfg, s, l), Tids(t.queue), handed, left);
    }
  }

  // ---- backoff --------------------------------------------------------------------------------

  function Pow2(n: nat): nat {
    if n == 0 then 1 else 2 * Pow2(n - 1)
  }

  lemma {:induction false} DoublingIsPower(x: real, n: nat)
    ensures Doubled(x, n) == x * Pow2(n) as real
  {
    if n > 0 {
      DoublingIsPower(x, n - 1);
      assert Pow2(n) as real == 2.0 * Pow2(n - 1) as real;
      assert x * (2.0 * Pow2(n - 1) as real) == 2.0 * (x * Pow2(n - 1) as real);
    }
  }

  /** A transient failure with retries left puts the turn, and no other, on a timer that is due after
      base * 2^attempt seconds, or after `cap` seconds if that is sooner. A timer that is not due yet changes
      nothing. */
  lemma RetriesAreScheduled(cfg: Config, s: Ingest, w: nat, i: nat)
    requires w < |s.busy| == |s.local| && s.busy[w].Some? && s.busy[w].value.attempt < cfg.maxRetries
    ensures var t, u := s.busy[w].value, Next(cfg, s, Finish(w, Transient));
      && |u.timers| == |s.timers| + 1 && u.timers[..|s.timers|] == s.timers
      && u.completed == s.completed && u.dropped == s.dropped && u.busy[w].None?
      && var m := u.timers[|s.timers|];
      && m.worker == w && m.turn.tid == t.tid && m.turn.attempt == t.attempt + 1 && m.turn.takes == t.takes
      && m.due - s.now == m.turn.waited - t.waited
      && m.due - s.now <= cfg.cap && m.due - s.now <= cfg.base * Pow2(t.attempt) as real
      && (m.due - s.now == cfg.cap || m.due - s.now == cfg.base * Pow2(t.attempt) as real)
    ensures i < |s.timers| && s.timers[i].due > s.now ==> Next(cfg, s, Fire(i)) == s
  {
    DoublingIsPower(cfg.base, s.busy[w].value.attempt);
  }

  lemma {:induction false} DoublingStaysPositive(x: real, n: nat)
    requires x >= 0.0
    ensures Doubled(x, n) >= 0.0
  {
    if n > 0 {
      DoublingStaysPositive(x, n - 1);
    }
  }

  lemma {:induction false} BackoffGrows(cfg: Config, n: nat, m: nat)
    requires cfg.base >= 0.0 && cfg.cap >= 0.0 && n <= m
    ensures 0.0 <= Backoff(cfg, n) <= Backoff(cfg, m)
  {
    if n < m {
      BackoffGrows(cfg, n, m - 1);
      DoublingStaysPositive(cfg.base, m - 1);
    } else if n > 0 {
      BackoffGrows(cfg, n - 1, n - 1);
      DoublingStaysPositive(cfg.base, n - 1);
    }
  }

  /** The server has the turn: queued, with a worker, on a timer, written or dropped. */
  predicate Has(s: Ingest, t: Turn) {
    || t in s.queue || Some(t) in s.busy || t in s.completed || t in s.dropped
    || exists i :: 0 <= i < |s.timers| && s.timers[i].turn == t
  }

  /** However long the run, a turn has been told to wait at most as long as all its retries together,
      wherever it is. */
  lemma TotalBackoffIsBounded(cfg: Config, s: Ingest, labels: seq<Label>, t: Turn)
    requires Bounded(cfg, s) && Reported(s) && cfg.base >= 0.0 && cfg.cap >= 0.0
    requires Has(Run(cfg, s, labels), t)
    ensures 0.0 <= t.waited <= Backoff(cfg, Retries(cfg)) <= Retries(cfg) as real * cfg.cap
  {
    RunsStayBounded(cfg, s, labels);
    assert Taken(cfg, t) || Due(cfg, t);
    BackoffGrows(cfg, t.attempt, Retries(cfg));
    BackoffIsCapped(cfg, Retries(cfg));
  }

  lemma {:induction false} BackoffIsCapped(cfg: Config, n: nat)
    ensures Backoff(cfg, n) <= n as real * cfg.cap
  {
    if n > 0 {
      BackoffIsCapped(cfg, n - 1);
      assert n as real * cfg.cap == (n - 1) as real * cfg.cap + cfg.cap;
    }
  }

  /** The shipped setting waits 2 + 4 + 8 + 16 + 30 seconds in all. */
  lemma DefaultBackoff()
    ensures Backoff(Config(1024, 5, 2.0, 30.0), 5) == 60.0
  {
    var cfg := Config(1024, 5, 2.0, 30.0);
    assert Doubled(2.0, 2) == 8.0 && Doubled(2.0, 3) == 16.0 && Doubled(2.0, 4) == 32.0;
    assert Delay(cfg, 4) == 30.0;
    assert Backoff(cfg, 1) == 2.0 && Backoff(cfg, 2) == 6.0 && Backoff(cfg, 3) == 14.0 && Backoff(cfg, 4) == 30.0;
  }

  // ---- what a drop report names ---------------------------------------------------------------

  /** Every report names the turn it reports. */
  ghost predicate Named(s: Ingest) {
    |s.reports| == |s.dropped| && forall i :: 0 <= i < |s.dropped| ==> s.reports[i] == Some(s.dropped[i].tid)
  }

  /** A retry finds the queue full after its worker has taken up another turn. */
  predicate Misreports(cfg: Config, s: Ingest, l: Label) {
    && l.Fire? && l.i < |s.timers| && s.timers[l.i].due <= s.now && s.timers[l.i].worker < |s.local|
    && Full(cfg, |s.queue|) && s.local[s.timers[l.i].worker] != Some(s.timers[l.i].turn.tid)
  }

  predicate RunMisreports(cfg: Config, s: Ingest, labels: seq<Label>)
    decreases labels
  {
    labels != [] && (Misreports(cfg, s, labels[0]) || RunMisreports(cfg, Next(cfg, s, labels[0]), labels[1..]))
  }

  lemma NextIsNamed(cfg: Config, s: Ingest, l: Label)
    requires Bounded(cfg, s) && Named(s)
    ensures Named(Next(cfg, s, l)) <==> !Misreports(cfg, s, l)
  {
    var t := Next(cfg, s, l);
    if Misreports(cfg, s, l) {
      assert t.reports[|s.dropped|] != Some(t.dropped[|s.dropped|].tid);
    }
  }

  lemma NextKeepsReports(cfg: Config, s: Ingest, l: Label)
    ensures s.reports <= Next(cfg, s, l).reports && s.dropped <= Next(cfg, s, l).dropped
  {
  }

  lemma {:induction false} StaysMisnamed(cfg: Config, s: Ingest, labels: seq<Label>)
    requires Bounded(cfg, s) && Reported(s) && !Named(s)
    ensures !Named(Run(cfg, s, labels))
    decreases labels
  {
    if labels != [] {
      var t := Next(cfg, s, labels[0]);
      NextBounds(cfg, s, labels[0]);
      NextKeepsReports(cfg, s, labels[0]);
      var i :| 0 <= i < |s.dropped| && s.reports[i] != Some(s.dropped[i].tid);
      assert t.reports[i] == s.reports[i] && t.dropped[i] == s.dropped[i];
      StaysMisnamed(cfg, t, labels[1..]);
    }
  }

  /** The drop log names the right turns exactly when no retry met a full queue after its worker had
      moved on: the callback closes over the worker's variables, not over their values. */
  lemma {:induction false} ReportsAreNamedIff(cfg: Config, s: Ingest, labels: seq<Label>)
    requires Bounded(cfg, s) && Named(s)
    ensures Named(Run(cfg, s, labels)) <==> !RunMisreports(cfg, s, labels)
    decreases labels
  {
    if labels != [] {
      NextIsNamed(cfg, s, labels[0]);
      NextBounds(cfg, s, labels[0]);
      if Misreports(cfg, s, labels[0]) {
        StaysMisnamed(cfg, Next(cfg, s, labels[0]), labels[1..]);
      } else {
        ReportsAreNamedIff(cfg, Next(cfg, s, labels[0]), labels[1..]);
      }
    }
  }

  function Burst(from: nat, n: nat): seq<Label>
    decreases n
  {
    if n == 0 then [] else [Remember(from)] + Burst(from + 1, n - 1)
  }

  lemma {:induction false} BurstFills(cfg: Config, s: Ingest, from: nat, n: nat)
    requires (cfg.capacity > 0 ==> |s.queue| + n <= cfg.capacity) && forall t :: t in s.accepted ==> t < from
    ensures var r := Run(cfg, s, Burst(from, n));
      |r.queue| == |s.queue| + n && r == s.(queue := r.queue, accepted := r.accepted)
    decreases n
  {
    if n > 0 {
      var l := Burst(from, n);
      assert l[0] == Remember(from) && l[1..] == Burst(from + 1, n - 1);
      BurstFills(cfg, Next(cfg, s, l[0]), from + 1, n - 1);
    }
  }

  lemma {:induction false} RunAppend(cfg: Config, s: Ingest, a: seq<Label>, b: seq<Label>)
    ensures Run(cfg, s, a + b) == Run(cfg, Run(cfg, s, a), b)
    decreases a
  {
    if a == [] {
      assert a + b == b;
    } else {
      assert (a + b)[0] == a[0] && (a + b)[1..] == a[1..] + b;
      RunAppend(cfg, Next(cfg, s, a[0]), a[1..], b);
    }
  }

  const WORKER_MOVES_ON: seq<Label> := [Remember(0), Take(0), Finish(0, Transient), Remember(1), Take(0)]

  lemma MovedOn(cfg: Config) returns (t: Ingest)
    requires cfg.capacity >= 1 && cfg.maxRetries >= 1
    ensures t == Run(cfg, Started(1), WORKER_MOVES_ON)
    ensures t.queue == [] && t.local == [Some(1)] && t.accepted == {0, 1} && t.dropped == [] && t.reports == []
    ensures |t.timers| == 1 && t.timers[0].worker == 0 && t.timers[0].turn.tid == 0
    ensures t.timers[0].due == t.now + Delay(cfg, 0)
  {
    var a := WORKER_MOVES_ON;
    var s := Started(1);
    assert s.busy == [None] && s.local == [None];
    t := Next(cfg, Next(cfg, Next(cfg, Next(cfg, Next(cfg, s, a[0]), a[1]), a[2]), a[3]), a[4]);
    forall k | 0 <= k < 5
      ensures Run(cfg, s, a[..k + 1]) == Next(cfg, Run(cfg, s, a[..k]), a[k])
    {
      RunSnoc(cfg, s, a, k);
    }
    assert a[..0] == [] && a[..5] == a;
  }

  lemma RunSnoc(cfg: Config, s: Ingest, a: seq<Label>, k: nat)
    requires k < |a|
    ensures Run(cfg, s, a[..k + 1]) == Next(cfg, Run(cfg, s, a[..k]), a[k])
  {
    assert a[..k + 1] == a[..k] + [a[k]] && [a[k]][1..] == [];
    RunAppend(cfg, s, a[..k], [a[k]]);
  }

  /** The retry comes due while the queue is full. */
  lemma FullOnRetry(cfg: Config, s: Ingest)
    requires Full(cfg, |s.queue|) && |s.timers| == 1 && s.timers[0].worker < |s.local|
    requires Delay(cfg, 0) >= 0.0 && s.timers[0].due == s.now + Delay(cfg, 0)
    ensures Run(cfg, s, [Tick(Delay(cfg, 0)), Fire(0)])
         == Drop(s.(now := s.now + Delay(cfg, 0), timers := []), s.timers[0].turn, s.local[s.timers[0].worker])
  {
    var s1 := Next(cfg, s, Tick(Delay(cfg, 0)));
    assert [Tick(Delay(cfg, 0)), Fire(0)][1..] == [Fire(0)] && [Fire(0)][1..] == [];
    assert Run(cfg, s1, [Fire(0)]) == Next(cfg, s1, Fire(0));
  }

  /** With any bounded queue there is a run that drops turn 0 and reports turn 1. */
  lemma WrongTurnReported(cfg: Config)
    requires cfg.capacity >= 1 && cfg.maxRetries >= 1 && cfg.base >= 0.0 && cfg.cap >= 0.0
    ensures exists labels :: var t := Run(cfg, Started(1), labels);
      |t.dropped| == 1 && t.dropped[0].tid == 0 && t.reports == [Some(1)]
  {
    var s := MovedOn(cfg);
    var fill, late := Burst(2, cfg.capacity), [Tick(Delay(cfg, 0)), Fire(0)];
    BurstFills(cfg, s, 2, cfg.capacity);
    FullOnRetry(cfg, Run(cfg, s, fill));
    RunAppend(cfg, s, fill, late);
    RunAppend(cfg, Started(1), WORKER_MOVES_ON, fill + late);
  }
}
