/** The code of the async-ingest path, each piece proved to be one step of the machine in IngestState:
    the enqueue branch of a request, a worker's `get`, the end of its processing with the two except
    branches, and the timer callback. */
module Ingest {
  import opened Options
  import opened IngestState
  import opened IngestTheorems

  class Server {
    const cfg: Config
    var queue: seq<Turn>
    var busy: seq<Option<Turn>>
    var local: seq<Option<nat>>
    var timers: seq<Timer>
    var completed: seq<Turn>
    var dropped: seq<Turn>
    var synced: seq<nat>
    ghost var accepted: set<nat>
    var reports: seq<Option<nat>>
    var now: real

    constructor (cfg: Config, workers: nat)
      ensures this.cfg == cfg && State() == Started(workers)
    {
      this.cfg := cfg;
      queue, timers, completed, dropped, synced, reports, now := [], [], [], [], [], [], 0.0;
      busy, local := seq(workers, _ => None), seq(workers, _ => None);
      accepted := {};
    }

    ghost function State(): IngestState.Ingest
      reads this
    {
      IngestState.Ingest(queue, busy, local, timers, completed, dropped, synced, accepted, reports, now)
    }

    /** `put_nowait`: false when the queue is full. */
    method PutNowait(t: Turn) returns (ok: bool)
      modifies this`queue
      ensures ok <==> !Full(cfg, |old(queue)|)
      ensures queue == if ok then old(queue) + [t] else old(queue)
    {
      ok := cfg.capacity <= 0 || |queue| < cfg.capacity;
      if ok {
        queue := queue + [t];
      }
    }

    /** The drop log: drops and reports stay in step, and the log stays right exactly if it is this turn
        that is named. */
    method LogDrop(t: Turn, named: Option<nat>)
      modifies this`dropped, this`reports
      ensures State() == Drop(old(State()), t, named)
      ensures old(Reported(State())) ==> Reported(State())
      ensures old(Named(State())) ==> (Named(State()) <==> named == Some(t.tid))
    {
      dropped := dropped + [t];
      reports := reports + [named];
      assert |reports| == |dropped| ==> reports[|dropped| - 1] == named;
    }

    /** The async branch of a request; a full queue falls through to processing in the request. */
    method Remember(tid: nat)
      requires tid !in accepted
      modifies this
      ensures State() == Next(cfg, old(State()), Label.Remember(tid))
    {
      accepted := accepted + {tid};
      var queued := PutNowait(Turn(tid, 0, 0, 0.0));
      if !queued {
        synced := synced + [tid];
      }
    }

    /** An idle worker gets the next turn. */
    method Get(w: nat)
      requires w < |busy| == |local| && busy[w].None? && queue != []
      modifies this
      ensures State() == Next(cfg, old(State()), Take(w))
    {
      var t := queue[0];
      queue := queue[1..];
      busy := busy[w := Some(t.(takes := t.takes + 1))];
      local := local[w := Some(t.tid)];
    }

    /** The rest of a worker's iteration, by how the processing went. */
    method Finish(w: nat, r: Result)
      requires w < |busy| == |local| && busy[w].Some?
      modifies this
      ensures State() == Next(cfg, old(State()), Label.Finish(w, r))
    {
      var t := busy[w].value;
      busy := busy[w := None];
      match r {
        case Written =>
          completed := completed + [t];
        case Transient =>
          if t.attempt < cfg.maxRetries {
            var delay := Delay(cfg, t.attempt);
            timers := timers + [Timer(t.(attempt := t.attempt + 1, waited := t.waited + delay), w, now + delay)];
          } else {
            LogDrop(t, local[w]);
          }
        case Broken =>
          LogDrop(t, local[w]);
      }
    }

    /** The timer callback. */
    method Requeue(i: nat)
      requires i < |timers| && timers[i].due <= now && timers[i].worker < |local|
      modifies this
      ensures State() == Next(cfg, old(State()), Fire(i))
    {
      var m := timers[i];
      timers := timers[..i] + timers[i + 1..];
      var ok := PutNowait(m.turn);
      if !ok {
        LogDrop(m.turn, local[m.worker]);
      }
    }
  }
}
