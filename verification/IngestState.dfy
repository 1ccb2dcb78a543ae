/** The async-ingest queue of memnos_server.py: requests, extraction workers and retry timers.

    A turn carries its own history: how often a worker took it up (`takes`) and the backoff it was told
    to wait so far. Disabled labels leave the state alone. */
module IngestState {
  import opened Options

  datatype Config = Config(capacity: int, maxRetries: int, base: real, cap: real)

  datatype Turn = Turn(tid: nat, attempt: nat, takes: nat, waited: real)

  /** A retry timer; `worker` is the thread whose variables the callback closes over. */
  datatype Timer = Timer(turn: Turn, worker: nat, due: real)

  /** `busy[w]` is what worker w is processing; `local[w]` the value of its variable `tid`. */
  datatype Ingest = Ingest(
    queue: seq<Turn>,
    busy: seq<Option<Turn>>,
    local: seq<Option<nat>>,
    timers: seq<Timer>,
    completed: seq<Turn>,
    dropped: seq<Turn>,
    synced: seq<nat>,
    accepted: set<nat>,
    reports: seq<Option<nat>>,
    now: real)

  datatype Result = Written | Transient | Broken

  datatype Label = Remember(tid: nat) | Take(w: nat) | Finish(w: nat, r: Result) | Fire(i: nat) | Tick(dt: real)

  /** x times the n-th power of two (IngestTheorems.DoublingIsPower). */
  function Doubled(x: real, n: nat): real {
    if n == 0 then x else 2.0 * Doubled(x, n - 1)
  }

  /** The backoff before retry `attempt + 1`. */
  function Delay(cfg: Config, attempt: nat): real {
    if Doubled(cfg.base, attempt) <= cfg.cap then Doubled(cfg.base, attempt) else cfg.cap
  }

  function Retries(cfg: Config): nat {
    if cfg.maxRetries < 0 then 0 else cfg.maxRetries
  }

  /** The delays before the first n retries, added up. */
  function Backoff(cfg: Config, n: nat): real {
    if n == 0 then 0.0 else Backoff(cfg, n - 1) + Delay(cfg, n - 1)
  }

  /** A queue of this length takes no more; a capacity of 0 or less is no bound. */
  predicate Full(cfg: Config, length: nat) {
    cfg.capacity > 0 && length >= cfg.capacity
  }

  // ---- the steps ------------------------------------------------------------------------

  /** A request with a turn id of its own: queued, or processed in the request when the queue is full. */
  function RememberStep(cfg: Config, s: Ingest, tid: nat): Ingest {
    if tid in s.accepted then s
    else
      var s1 := s.(accepted := s.accepted + {tid});
      if !Full(cfg, |s.queue|) then s1.(queue := s.queue + [Turn(tid, 0, 0, 0.0)])
      else s1.(synced := s.synced + [tid])
  }

  function TakeStep(s: Ingest, w: nat): Ingest {
    if w < |s.busy| == |s.local| && s.busy[w].None? && s.queue != [] then
      var t := s.queue[0];
      s.(queue := s.queue[1..], busy := s.busy[w := Some(t.(takes := t.takes + 1))],
         local := s.local[w := Some(t.tid)])
    else s
  }

  /** The drop log names whatever the variable `tid` holds at the time. */
  function Drop(s: Ingest, t: Turn, named: Option<nat>): Ingest {
    s.(dropped := s.dropped + [t], reports := s.reports + [named])
  }

  function FinishStep(cfg: Config, s: Ingest, w: nat, r: Result): Ingest {
    if w < |s.busy| == |s.local| && s.busy[w].Some? then
      var t := s.busy[w].value;
      var s1 := s.(busy := s.busy[w := None]);
      if r == Written then s1.(completed := s.completed + [t])
      else if r == Transient && t.attempt < cfg.maxRetries then
        var d := Delay(cfg, t.attempt);
        s1.(timers := s.timers + [Timer(t.(attempt := t.attempt + 1, waited := t.waited + d), w, s.now + d)])
      else Drop(s1, t, s.local[w])
    else s
  }

  function FireStep(cfg: Config, s: Ingest, i: nat): Ingest {
    if i < |s.timers| && s.timers[i].due <= s.now && s.timers[i].worker < |s.local| then
      var m := s.timers[i];
      var s1 := s.(timers := s.timers[..i] + s.timers[i + 1..]);
      if !Full(cfg, |s.queue|) then s1.(queue := s.queue + [m.turn])
      else Drop(s1, m.turn, s.local[m.worker])
    else s
  }

  function Next(cfg: Config, s: Ingest, l: Label): Ingest {
    match l
    case Remember(tid) => RememberStep(cfg, s, tid)
    case Take(w) => TakeStep(s, w)
    case Finish(w, r) => FinishStep(cfg, s, w, r)
    case Fire(i) => FireStep(cfg, s, i)
    case Tick(dt) => if dt >= 0.0 then s.(now := s.now + dt) else s
  }

  function Started(workers: nat): Ingest {
    Ingest([], seq(workers, _ => None), seq(workers, _ => None), [], [], [], [], {}, [], 0.0)
  }

  function Run(cfg: Config, s: Ingest, labels: seq<Label>): Ingest
    decreases labels
  {
    if labels == [] then s else Run(cfg, Next(cfg, s, labels[0]), labels[1..])
  }

  // ---- where the turns are --------------------------------------------------------------------

  function Among(turns: seq<Turn>, tid: nat): nat {
    if turns == [] then 0
    else Among(turns[..|turns| - 1], tid) + if turns[|turns| - 1].tid == tid then 1 else 0
  }

  function AmongBusy(busy: seq<Option<Turn>>, tid: nat): nat {
    if busy == [] then 0 else AmongBusy(busy[..|busy| - 1], tid) + Carries(busy[|busy| - 1], tid)
  }

  function Carries(o: Option<Turn>, tid: nat): nat {
    if o.Some? && o.value.tid == tid then 1 else 0
  }

  function AmongTimers(timers: seq<Timer>, tid: nat): nat {
    if timers == [] then 0
    else AmongTimers(timers[..|timers| - 1], tid) + if timers[|timers| - 1].turn.tid == tid then 1 else 0
  }

  function AmongSynced(synced: seq<nat>, tid: nat): nat {
    if synced == [] then 0
    else AmongSynced(synced[..|synced| - 1], tid) + if synced[|synced| - 1] == tid then 1 else 0
  }

  /** In how many places turn `tid` is. */
  function Places(s: Ingest, tid: nat): nat {
    Among(s.queue, tid) + AmongBusy(s.busy, tid) + AmongTimers(s.timers, tid)
    + Among(s.completed, tid) + Among(s.dropped, tid) + AmongSynced(s.synced, tid)
  }

  /** A turn that is due for processing after `attempt` retries. */
  predicate Due(cfg: Config, t: Turn) {
    t.takes == t.attempt <= Retries(cfg) && t.waited == Backoff(cfg, t.attempt)
  }

  /** A turn some worker has taken up for the last time so far. */
  predicate Taken(cfg: Config, t: Turn) {
    t.takes == t.attempt + 1 <= Retries(cfg) + 1 && t.waited == Backoff(cfg, t.attempt)
  }

  ghost predicate Bounded(cfg: Config, s: Ingest) {
    && (cfg.capacity > 0 ==> |s.queue| <= cfg.capacity) && |s.busy| == |s.local|
    && (forall i :: 0 <= i < |s.queue| ==> Due(cfg, s.queue[i]))
    && (forall i :: 0 <= i < |s.timers| ==> Due(cfg, s.timers[i].turn) && s.timers[i].worker < |s.local|)
    && (forall w :: 0 <= w < |s.busy| && s.busy[w].Some? ==>
          Taken(cfg, s.busy[w].value) && s.local[w] == Some(s.busy[w].value.tid))
    && (forall i :: 0 <= i < |s.completed| ==> Taken(cfg, s.completed[i]))
    && (forall i :: 0 <= i < |s.dropped| ==> Taken(cfg, s.dropped[i]) || Due(cfg, s.dropped[i]))
  }

  /** Each drop left one report. */
  predicate Reported(s: Ingest) {
    |s.reports| == |s.dropped|
  }
}
