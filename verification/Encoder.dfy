/** The write-time encoder: turns go into a buffer with an incremental centroid, and a buffer that ends
    is flushed to the store as an event. */
module Encoder {
  import opened Options
  import opened Segments
  import opened EventContents

  /** A flushed event: its turns, the session and times it is stored under, and its entities. */
  datatype Event = Event(turns: seq<Turn>, sid: Option<string>, start: int, end: int, entities: seq<string>)

  function TurnsOf(events: seq<Event>): seq<seq<Turn>> {
    seq(|events|, i requires 0 <= i < |events| => events[i].turns)
  }

  function WordsOf(turns: seq<Turn>): seq<string> {
    if turns == [] then [] else WordsOf(turns[..|turns| - 1]) + turns[|turns| - 1].words
  }

  function EventOf(lex: Lexicon, turns: seq<Turn>): Event
    requires turns != []
  {
    var last := turns[|turns| - 1];
    Event(turns, Some(last.sid), turns[0].at, last.at, Entities(lex, WordsOf(turns)))
  }

  /** The events of a partition, as they are stored. */
  function Stored(lex: Lexicon, parts: seq<seq<Turn>>): seq<Event>
    requires forall i :: 0 <= i < |parts| ==> parts[i] != []
  {
    seq(|parts|, i requires 0 <= i < |parts| => EventOf(lex, parts[i]))
  }

  /** The names under which an event's entities are stored. */
  function NamesOf(lex: Lexicon, turns: seq<Turn>): seq<string> {
    StoredAll(Entities(lex, WordsOf(turns)))
  }

  /** How often the events of a partition bump a pair, all together. */
  function AllBumps(lex: Lexicon, parts: seq<seq<Turn>>, pair: set<string>): nat {
    if parts == [] then 0
    else
      var n := |parts| - 1;
      var ids := NamesOf(lex, parts[n]);
      AllBumps(lex, parts[..n], pair) + Bumps(ids, |ids|, pair)
  }

  /** The events and the edges are those of the partition `parts`. */
  ghost predicate Filed(lex: Lexicon, parts: seq<seq<Turn>>, events: seq<Event>, edges: Edges) {
    && (forall i :: 0 <= i < |parts| ==> parts[i] != [])
    && events == Stored(lex, parts)
    && forall pair :: Weight(edges, pair) == AllBumps(lex, parts, pair)
  }

  lemma FiledOneMore(lex: Lexicon, parts: seq<seq<Turn>>, events: seq<Event>, edges: Edges, turns: seq<Turn>, more: Edges)
    requires Filed(lex, parts, events, edges) && turns != []
    requires var ids := NamesOf(lex, turns);
      forall pair :: Weight(more, pair) == Weight(edges, pair) + Bumps(ids, |ids|, pair)
    ensures Filed(lex, parts + [turns], events + [EventOf(lex, turns)], more)
  {
    assert (parts + [turns])[..|parts|] == parts;
  }

  lemma TurnsSnoc(events: seq<Event>, e: Event)
    ensures TurnsOf(events + [e]) == TurnsOf(events) + [e.turns]
  {
  }

  lemma StoredTogether(cfg: Config, turns: seq<Turn>, events: seq<Event>)
    requires Sized(turns, cfg.dim) && TurnsOf(events) == EventsOf(Segment(RulesOf(cfg), turns))
    ensures forall k :: 0 <= k < |events| ==> Together(cfg, events[k].turns)
  {
    forall k | 0 <= k < |events|
      ensures Together(cfg, events[k].turns)
    {
      EventsKeepTogether(cfg, turns, k);
      assert TurnsOf(events)[k] == events[k].turns;
    }
  }

  /** The event has the session of its first turn, and the times of the first and the last one. */
  predicate Labelled(e: Event) {
    && e.turns != [] && e.sid == Some(e.turns[0].sid)
    && e.start == e.turns[0].at && e.end == e.turns[|e.turns| - 1].at
  }

  /** Turns that keep together are stored under the session they have in common. */
  lemma StoredLabelled(cfg: Config, lex: Lexicon, parts: seq<seq<Turn>>, events: seq<Event>)
    requires (forall i :: 0 <= i < |parts| ==> parts[i] != []) && events == Stored(lex, parts)
    requires forall i :: 0 <= i < |events| ==> Together(cfg, events[i].turns)
    ensures forall i :: 0 <= i < |events| ==> Labelled(events[i])
  {
    forall i | 0 <= i < |events|
      ensures Labelled(events[i])
    {
      var e := events[i].turns;
      assert e == parts[i];
      assert |e| > 1 ==> Follows(cfg, e, |e| - 1);
    }
  }

  class Encoder {
    const cfg: Config
    const lex: Lexicon
    var buf: seq<Turn>
    var sid: Option<string>
    var centroid: Option<Vec>
    var events: seq<Event>
    var edges: Edges

    constructor (cfg: Config, lex: Lexicon)
      ensures Valid() && this.cfg == cfg && this.lex == lex && AsSplit() == Split([], [])
    {
      this.cfg, this.lex := cfg, lex;
      buf, sid, centroid, events, edges := [], None, None, [], map[];
    }

    function AsSplit(): Split
      reads this
    {
      Split(TurnsOf(events), buf)
    }

    /** The buffer has its session and its exact mean, and the stored events and edges are those of the
        turns flushed so far. */
    ghost predicate Valid()
      reads this
    {
      && Filed(lex, TurnsOf(events), events, edges)
      && if buf == [] then centroid == None
      else sid == Some(buf[|buf| - 1].sid) && Sized(buf, cfg.dim) && centroid == Some(Mean(buf, cfg.dim))
    }

    method IsBoundary(t: Turn) returns (r: bool)
      requires Valid() && buf != [] && |t.vec| == cfg.dim
      ensures r <==> Boundary(cfg, buf, t)
    {
      if Some(t.sid) != sid {
        return true;
      }
      if t.at - buf[|buf| - 1].at > cfg.gap {
        return true;
      }
      if centroid.Some? && cfg.far(t.vec, centroid.value) {
        return true;
      }
      return false;
    }

    /** Flush the buffer as one event. The session it is stored under is the encoder's, which is that
        of its last turn. */
    method FlushEvent()
      requires Valid()
      modifies this`buf, this`centroid, this`events, this`edges
      ensures Valid() && buf == []
      ensures AsSplit() == if old(buf) == [] then old(AsSplit()) else Split(old(TurnsOf(events)) + [old(buf)], [])
      ensures events == if old(buf) == [] then old(events) else old(events) + [EventOf(lex, old(buf))]
      ensures old(buf) == [] ==> edges == old(edges)
      ensures old(buf) != [] ==>
        var ids := NamesOf(lex, old(buf));
        forall p :: Weight(edges, p) == Weight(old(edges), p) + Bumps(ids, |ids|, p)
    {
      if buf == [] {
        return;
      }
      var ents := ExtractEntities(lex, WordsOf(buf));
      var more := BumpPairs(edges, StoredAll(ents));
      TurnsSnoc(events, EventOf(lex, buf));
      FiledOneMore(lex, TurnsOf(events), events, edges, buf, more);
      events := events + [Event(buf, sid, buf[0].at, buf[|buf| - 1].at, ents)];
      edges := more;
      buf := [];
      centroid := None;
    }

    /** The buffer takes the turn, and the mean with it. */
    method Absorb(t: Turn)
      requires Valid() && |t.vec| == cfg.dim
      modifies this`buf, this`sid, this`centroid
      ensures Valid() && buf == old(buf) + [t]
    {
      ghost var open := buf;
      buf := buf + [t];
      sid := Some(t.sid);
      if centroid.None? {
        FirstMean(t, cfg.dim);
        assert buf == [t];
        centroid := Some(t.vec);
      } else {
        MeanIsExact(open, t, cfg.dim);
        centroid := Some(Folded(centroid.value, t.vec, |buf|));
      }
    }

    /** A boundary before `t` ends the event. */
    method FlushBefore(t: Turn)
      requires Valid() && |t.vec| == cfg.dim
      modifies this
      ensures Valid()
      ensures AsSplit() == if old(buf) != [] && RulesOf(cfg).breaks(old(buf), t)
                           then Split(old(AsSplit()).events + [old(buf)], []) else old(AsSplit())
    {
      if buf != [] {
        var boundary := IsBoundary(t);
        if boundary {
          FlushEvent();
        }
      }
    }

    /** One step of the segmentation; what it flushes is stored with its session, times and entities, and
        its pairs are bumped. */
    method IngestTurn(t: Turn)
      requires Valid() && |t.vec| == cfg.dim
      modifies this
      ensures Valid() && AsSplit() == Step(RulesOf(cfg), old(AsSplit()), t)
      ensures Filed(lex, TurnsOf(events), events, edges)
    {
      FlushBefore(t);
      Absorb(t);
      if |buf| >= cfg.maxTurns {
        FlushEvent();
      }
    }

    method Close()
      requires Valid()
      modifies this
      ensures Valid() && buf == []
      ensures TurnsOf(events) == if old(buf) == [] then old(TurnsOf(events)) else old(TurnsOf(events)) + [old(buf)]
      ensures Filed(lex, TurnsOf(events), events, edges)
    {
      FlushEvent();
    }

    /** A whole conversation: every turn, then close. The stored events are the greedy partition, each
        of one session, with no gap above the limit, and no longer than the cap, split from the next only
        where one of these or a surprise parts them, with its session, times and entities; the edges count
        every pair of every event. */
    method Encode(turns: seq<Turn>)
      requires Valid() && AsSplit() == Split([], []) && Sized(turns, cfg.dim)
      modifies this
      ensures TurnsOf(events) == EventsOf(Segment(RulesOf(cfg), turns))
      ensures Filed(lex, EventsOf(Segment(RulesOf(cfg), turns)), events, edges)
      ensures Flatten(TurnsOf(events)) == turns
      ensures forall k :: 0 <= k < |events| ==> Together(cfg, events[k].turns)
      ensures WellParted(cfg, TurnsOf(events))
      ensures forall k :: 0 <= k < |events| ==> Labelled(events[k])
    {
      var i := 0;
      while i < |turns|
        invariant i <= |turns| && Valid() && AsSplit() == Segment(RulesOf(cfg), turns[..i])
      {
        IngestTurn(turns[i]);
        assert turns[..i + 1][..i] == turns[..i];
        i := i + 1;
      }
      assert turns[..i] == turns;
      SegmentKeepsTurns(RulesOf(cfg), turns);
      FlattenSnoc(TurnsOf(events), buf);
      Close();
      StoredTogether(cfg, turns, events);
      StoredLabelled(cfg, lex, EventsOf(Segment(RulesOf(cfg), turns)), events);
      EventsPart(cfg, turns);
    }
  }
}
