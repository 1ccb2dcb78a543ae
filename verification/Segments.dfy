/** Event segmentation: which partition of the turns the encoder makes, for any boundary test. */
module Segments {
  type Vec = seq<real>

  datatype Turn = Turn(tid: nat, sid: string, words: seq<string>, vec: Vec, at: int)

  /** `breaks(open, t)` is the boundary test of turn t against the open event. */
  datatype Rules = Rules(maxTurns: int, breaks: (seq<Turn>, Turn) -> bool)

  /** Flushed events, oldest first, and the turns of the open one. */
  datatype Split = Split(events: seq<seq<Turn>>, open: seq<Turn>)

  function Step(r: Rules, s: Split, t: Turn): Split {
    var s1 := if s.open != [] && r.breaks(s.open, t) then Split(s.events + [s.open], []) else s;
    var open := s1.open + [t];
    if |open| >= r.maxTurns then Split(s1.events + [open], []) else Split(s1.events, open)
  }

  function Segment(r: Rules, turns: seq<Turn>): Split {
    if turns == [] then Split([], [])
    else Step(r, Segment(r, turns[..|turns| - 1]), turns[|turns| - 1])
  }

  // ---- what a greedy partition is, said without saying how to compute one -----------------------

  function Flatten(events: seq<seq<Turn>>): seq<Turn> {
    if events == [] then [] else Flatten(events[..|events| - 1]) + events[|events| - 1]
  }

  function AllTurns(s: Split): seq<Turn> {
    Flatten(s.events) + s.open
  }

  /** Turn i belongs with the ones before it. */
  predicate Joins(r: Rules, event: seq<Turn>, i: nat)
    requires i < |event|
  {
    i < r.maxTurns && !r.breaks(event[..i], event[i])
  }

  /** No turn of `event` should have been split from the ones before it. */
  ghost predicate Unbroken(r: Rules, event: seq<Turn>) {
    forall i :: 0 < i < |event| ==> Joins(r, event, i)
  }

  /** `event` had to end before the turns that follow it. */
  ghost predicate Ends(r: Rules, event: seq<Turn>, next: seq<Turn>) {
    && event != [] && next != []
    && (|event| >= r.maxTurns || r.breaks(event, next[0]))
  }

  /** The event after event i. */
  function After(s: Split, i: nat): seq<Turn>
    requires i < |s.events|
  {
    if i + 1 < |s.events| then s.events[i + 1] else s.open
  }

  /** Every event is an unbroken run of turns, split from the next exactly where it had to be; the last
      flushed event may end for its length alone. */
  ghost predicate Greedy(r: Rules, s: Split) {
    && Unbroken(r, s.open) && (s.open != [] ==> |s.open| < r.maxTurns)
    && (forall i :: 0 <= i < |s.events| ==>
          && s.events[i] != [] && Unbroken(r, s.events[i])
          && (if After(s, i) == [] then |s.events[i]| >= r.maxTurns else Ends(r, s.events[i], After(s, i))))
  }

  lemma FlattenSnoc(events: seq<seq<Turn>>, e: seq<Turn>)
    ensures Flatten(events + [e]) == Flatten(events) + e
  {
    assert (events + [e])[..|events|] == events;
  }

  lemma UnbrokenSnoc(r: Rules, open: seq<Turn>, t: Turn)
    requires Unbroken(r, open)
    requires open != [] ==> |open| < r.maxTurns && !r.breaks(open, t)
    ensures Unbroken(r, open + [t])
  {
    var e := open + [t];
    forall i | 0 < i < |e|
      ensures Joins(r, e, i)
    {
      if i < |open| {
        assert Joins(r, open, i) && e[..i] == open[..i];
      } else {
        assert e[..i] == open;
      }
    }
  }

  /** Appending to the open event keeps a greedy split greedy. */
  lemma {:induction false} GreedyOpen(r: Rules, s: Split, t: Turn)
    requires Greedy(r, s) && (s.open != [] ==> !r.breaks(s.open, t))
    ensures |s.open| + 1 < r.maxTurns ==> Greedy(r, s.(open := s.open + [t]))
    ensures |s.open| + 1 >= r.maxTurns ==> Greedy(r, Split(s.events + [s.open + [t]], []))
  {
    UnbrokenSnoc(r, s.open, t);
    var open := s.open + [t];
    assert s.open != [] ==> open[0] == s.open[0];
    if |s.open| + 1 < r.maxTurns {
      var u := s.(open := open);
      forall i | 0 <= i < |u.events|
        ensures Ends(r, u.events[i], After(u, i))
      {
        if i + 1 == |u.events| && s.open == [] {
          assert After(s, i) == [];
        } else {
          assert After(s, i) != [] && After(u, i)[0] == After(s, i)[0];
        }
      }
    } else {
      var u := Split(s.events + [open], []);
      forall i | 0 <= i < |s.events|
        ensures Ends(r, u.events[i], After(u, i))
      {
        if i + 1 == |s.events| && s.open == [] {
          assert After(s, i) == [] && After(u, i) == open;
        } else {
          assert After(s, i) != [] && After(u, i)[0] == After(s, i)[0];
        }
      }
    }
  }

  lemma GreedyBreak(r: Rules, s: Split, t: Turn)
    requires Greedy(r, s) && s.open != [] && r.breaks(s.open, t)
    ensures Greedy(r, Step(r, s, t))
  {
    var u := Step(r, s, t);
    UnbrokenSnoc(r, [], t);
    assert [] + [t] == [t];
    forall i | 0 <= i < |s.events|
      ensures Unbroken(r, u.events[i]) && u.events[i] != [] && Ends(r, u.events[i], After(u, i))
    {
      assert After(s, i) != [] && After(u, i)[0] == After(s, i)[0];
    }
    assert Ends(r, s.open, [t]);
  }

  /** Closing the open event moves no turn. */
  lemma ClosingFlattens(events: seq<seq<Turn>>, open: seq<Turn>)
    ensures AllTurns(Split(events + [open], [])) == AllTurns(Split(events, open))
  {
    FlattenSnoc(events, open);
  }

  lemma StepFlattens(r: Rules, s: Split, t: Turn)
    ensures AllTurns(Step(r, s, t)) == AllTurns(s) + [t]
  {
    var u := if s.open != [] && r.breaks(s.open, t) then Split(s.events + [s.open], []) else s;
    ClosingFlattens(s.events, s.open);
    ClosingFlattens(u.events, u.open + [t]);
    assert AllTurns(Step(r, s, t)) == Flatten(u.events) + (u.open + [t]);
  }

  lemma StepIsGreedy(r: Rules, s: Split, t: Turn)
    requires Greedy(r, s)
    ensures Greedy(r, Step(r, s, t))
  {
    if s.open != [] && r.breaks(s.open, t) {
      GreedyBreak(r, s, t);
    } else {
      GreedyOpen(r, s, t);
    }
  }

  lemma Resnoc(turns: seq<Turn>)
    requires turns != []
    ensures turns[..|turns| - 1] + [turns[|turns| - 1]] == turns
  {
  }

  /** The flushed events followed by the open one are exactly the turns in order. */
  lemma {:induction false} SegmentKeepsTurns(r: Rules, turns: seq<Turn>)
    ensures AllTurns(Segment(r, turns)) == turns
  {
    if turns != [] {
      var n := |turns| - 1;
      var s := Segment(r, turns[..n]);
      SegmentKeepsTurns(r, turns[..n]);
      StepFlattens(r, s, turns[n]);
      Resnoc(turns);
    }
  }

  lemma {:induction false} SegmentIsGreedy(r: Rules, turns: seq<Turn>)
    ensures Greedy(r, Segment(r, turns))
  {
    if turns != [] {
      var n := |turns| - 1;
      SegmentIsGreedy(r, turns[..n]);
      StepIsGreedy(r, Segment(r, turns[..n]), turns[n]);
    }
  }

  // ---- there is only one greedy split ---------------------------------------------------------------

  lemma UnbrokenPrefix(r: Rules, e: seq<Turn>, n: nat)
    requires Unbroken(r, e) && n <= |e|
    ensures Unbroken(r, e[..n])
  {
    forall i | 0 < i < n
      ensures Joins(r, e[..n], i)
    {
      assert Joins(r, e, i) && e[..n][..i] == e[..i];
    }
  }

  /** A current event: unbroken, still open or just closed by its length. */
  ghost predicate Current(r: Rules, events: seq<seq<Turn>>, cur: seq<Turn>) {
    && cur != [] && Unbroken(r, cur)
    && (forall i :: 0 <= i < |events| ==>
          && events[i] != [] && Unbroken(r, events[i])
          && Ends(r, events[i], After(Split(events, cur), i)))
  }

  lemma CurrentOf(r: Rules, s: Split)
    requires Greedy(r, s) && (s.open != [] || s.events != [])
    ensures var n := |s.events| - 1;
      if s.open != [] then Current(r, s.events, s.open) else Current(r, s.events[..n], s.events[n])
  {
    var n := |s.events| - 1;
    var events, cur := if s.open != [] then s.events else s.events[..n], if s.open != [] then s.open else s.events[n];
    forall i | 0 <= i < |events|
      ensures Ends(r, events[i], After(Split(events, cur), i))
    {
      assert After(s, i) != [] && After(s, i) == After(Split(events, cur), i);
    }
  }

  /** The split whose current event is `cur`: its length may have closed it. */
  function SplitOf(r: Rules, events: seq<seq<Turn>>, cur: seq<Turn>): Split {
    if |cur| >= r.maxTurns then Split(events + [cur], []) else Split(events, cur)
  }

  /** Undoing the first turn of an event that a boundary had opened. */
  lemma ReopensBefore(r: Rules, events: seq<seq<Turn>>, cur: seq<Turn>) returns (p: Split)
    requires Current(r, events, cur) && |cur| == 1 && events != [] && |events[|events| - 1]| < r.maxTurns
    ensures Greedy(r, p) && Step(r, p, cur[0]) == SplitOf(r, events, cur)
    ensures AllTurns(p) == Flatten(events)
  {
    var m := |events| - 1;
    p := Split(events[..m], events[m]);
    assert events[..m] + [events[m]] == events;
    FlattenSnoc(events[..m], events[m]);
    assert After(Split(events, cur), m) == cur && [] + [cur[0]] == cur;
    forall i | 0 <= i < m
      ensures After(p, i) != [] && Ends(r, events[i], After(p, i))
    {
      assert After(p, i) == After(Split(events, cur), i);
    }
  }

  /** Undoing any other last turn. */
  lemma Shortens(r: Rules, events: seq<seq<Turn>>, cur: seq<Turn>) returns (p: Split)
    requires Current(r, events, cur)
    requires |cur| == 1 && events != [] ==> |events[|events| - 1]| >= r.maxTurns
    ensures Greedy(r, p) && Step(r, p, cur[|cur| - 1]) == SplitOf(r, events, cur)
    ensures AllTurns(p) == Flatten(events) + cur[..|cur| - 1]
  {
    var n := |cur| - 1;
    UnbrokenPrefix(r, cur, n);
    assert cur[..n] + [cur[n]] == cur;
    p := Split(events, cur[..n]);
    assert n > 0 ==> cur[..n][0] == cur[0];
    assert n > 0 ==> Joins(r, cur, n);
    forall i | 0 <= i < |events|
      ensures if After(p, i) == [] then |events[i]| >= r.maxTurns else Ends(r, events[i], After(p, i))
    {
      assert Ends(r, events[i], After(Split(events, cur), i));
    }
  }

  /** The current event of a split: the open one, or the one its length has just closed. */
  lemma CurrentEvent(r: Rules, s: Split) returns (events: seq<seq<Turn>>, cur: seq<Turn>)
    requires Greedy(r, s) && (s.open != [] || s.events != [])
    ensures Current(r, events, cur) && AllTurns(s) == Flatten(events) + cur && s == SplitOf(r, events, cur)
  {
    CurrentOf(r, s);
    if s.open != [] {
      events, cur := s.events, s.open;
    } else {
      var n := |s.events| - 1;
      events, cur := s.events[..n], s.events[n];
      assert events + [cur] == s.events;
      assert After(s, n) == [];
    }
  }

  /** A greedy split is one step from a greedy split of all turns but the last. */
  lemma Retract(r: Rules, turns: seq<Turn>, s: Split) returns (p: Split)
    requires Greedy(r, s) && AllTurns(s) == turns && turns != []
    ensures Greedy(r, p) && AllTurns(p) == turns[..|turns| - 1]
    ensures s == Step(r, p, turns[|turns| - 1])
  {
    var events, cur := CurrentEvent(r, s);
    LastOf(Flatten(events), cur);
    if |cur| == 1 && events != [] && |events[|events| - 1]| < r.maxTurns {
      p := ReopensBefore(r, events, cur);
      assert cur[..0] == [];
    } else {
      p := Shortens(r, events, cur);
    }
  }

  lemma LastOf(a: seq<Turn>, b: seq<Turn>)
    requires b != []
    ensures (a + b)[..|a + b| - 1] == a + b[..|b| - 1] && (a + b)[|a + b| - 1] == b[|b| - 1]
  {
  }

  /** Any greedy split of the turns is the one the encoder makes. */
  lemma {:induction false} GreedyIsUnique(r: Rules, turns: seq<Turn>, s: Split)
    requires Greedy(r, s) && AllTurns(s) == turns
    ensures s == Segment(r, turns)
    decreases |turns|
  {
    assert s.events != [] ==> s.events[|s.events| - 1] != [];
    if turns != [] {
      var p := Retract(r, turns, s);
      GreedyIsUnique(r, turns[..|turns| - 1], p);
    }
  }

  // ---- what its events are like ---------------------------------------------------------------------

  /** The flushed events and the open one. */
  function EventsOf(s: Split): seq<seq<Turn>> {
    if s.open == [] then s.events else s.events + [s.open]
  }

  /** `e` is not empty, every turn of it joins the ones before, and it is at most as long as the cap; a cap
      below one cuts after every turn. */
  ghost predicate Tight(r: Rules, e: seq<Turn>) {
    1 <= |e| <= (if r.maxTurns < 1 then 1 else r.maxTurns) && Unbroken(r, e)
  }

  ghost predicate Stretch(turns: seq<Turn>, e: seq<Turn>) {
    exists from, to :: 0 <= from <= to <= |turns| && turns[from..to] == e
  }

  lemma GreedyIsTight(r: Rules, s: Split, k: nat)
    requires Greedy(r, s) && k < |EventsOf(s)|
    ensures Tight(r, EventsOf(s)[k])
  {
    var e := EventsOf(s)[k];
    if |e| > 1 {
      assert Joins(r, e, |e| - 1);
    }
  }

  lemma EventIsStretch(s: Split, k: nat)
    requires k < |EventsOf(s)|
    ensures Stretch(AllTurns(s), EventsOf(s)[k])
  {
    ClosingFlattens(s.events, s.open);
    assert AllTurns(s) == Flatten(EventsOf(s));
    var from := EventIsRun(EventsOf(s), k);
  }

  /** Every event of the encoder, the open one included, is a tight stretch of the turns. */
  lemma EventsAreTight(r: Rules, turns: seq<Turn>, k: nat)
    requires k < |EventsOf(Segment(r, turns))|
    ensures Tight(r, EventsOf(Segment(r, turns))[k]) && Stretch(turns, EventsOf(Segment(r, turns))[k])
  {
    SegmentIsGreedy(r, turns);
    SegmentKeepsTurns(r, turns);
    GreedyIsTight(r, Segment(r, turns), k);
    EventIsStretch(Segment(r, turns), k);
  }

  /** An event is a stretch of the turns. */
  lemma {:induction false} EventIsRun(events: seq<seq<Turn>>, k: nat) returns (from: nat)
    requires k < |events|
    ensures from + |events[k]| <= |Flatten(events)| && Flatten(events)[from..from + |events[k]|] == events[k]
  {
    var n := |events| - 1;
    if k == n {
      from := |Flatten(events[..n])|;
    } else {
      from := EventIsRun(events[..n], k);
      assert Flatten(events)[from..from + |events[k]|] == Flatten(events[..n])[from..from + |events[k]|];
    }
  }
}
