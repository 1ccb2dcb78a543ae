/** What goes into an event: its entities, the co-mention edges between them, and the running mean. */
module EventContents {
  import opened Segments

  /** The proper-noun filter: which words are ignored, and how words are compared. */
  datatype Lexicon = Lexicon(stop: set<string>, lower: string -> string)

  // ---- entities ------------------------------------------------------------------------------------

  predicate Kept(lex: Lexicon, words: seq<string>, i: nat)
    requires i < |words|
  {
    words[i] !in lex.stop &&
    forall j :: 0 <= j < i && words[j] !in lex.stop ==> lex.lower(words[j]) != lex.lower(words[i])
  }

  /** The first occurrence of every word that is not ignored, in order of appearance. */
  function Entities(lex: Lexicon, words: seq<string>): seq<string> {
    if words == [] then []
    else
      var n := |words| - 1;
      Entities(lex, words[..n]) + if Kept(lex, words, n) then [words[n]] else []
  }

  method ExtractEntities(lex: Lexicon, words: seq<string>) returns (out: seq<string>)
    ensures out == Entities(lex, words)
  {
    var seen: set<string> := {};
    out := [];
    var i := 0;
    while i < |words|
      invariant i <= |words| && out == Entities(lex, words[..i])
      invariant forall x :: x in seen <==> exists j :: 0 <= j < i && words[j] !in lex.stop && lex.lower(words[j]) == x
    {
      var m := words[i];
      assert words[..i + 1][..i] == words[..i];
      if !(m in lex.stop || lex.lower(m) in seen) {
        seen := seen + {lex.lower(m)};
        out := out + [m];
      }
      i := i + 1;
    }
    assert words[..i] == words;
  }

  /** Words are compared by their lower-case form: each form that occurs is listed, once. */
  lemma {:induction false} EntitiesAreDistinct(lex: Lexicon, words: seq<string>)
    ensures var e := Entities(lex, words);
      && (forall i, j :: 0 <= i < j < |e| ==> lex.lower(e[i]) != lex.lower(e[j]))
      && (forall w :: w in e ==> w in words && w !in lex.stop)
      && (forall w :: w in words && w !in lex.stop ==> exists i :: 0 <= i < |e| && lex.lower(e[i]) == lex.lower(w))
  {
    if words != [] {
      var n := |words| - 1;
      var before := Entities(lex, words[..n]);
      EntitiesAreDistinct(lex, words[..n]);
      var e := Entities(lex, words);
      forall i, j | 0 <= i < j < |e|
        ensures lex.lower(e[i]) != lex.lower(e[j])
      {
        if j == |before| {
          assert before[i] in words[..n];
        }
      }
      forall w | w in words && w !in lex.stop
        ensures exists i :: 0 <= i < |e| && lex.lower(e[i]) == lex.lower(w)
      {
        FormIsListed(lex, words, w);
      }
    }
  }

  lemma {:induction false} FormIsListed(lex: Lexicon, words: seq<string>, w: string)
    requires w in words && w !in lex.stop
    ensures exists i :: 0 <= i < |Entities(lex, words)| && lex.lower(Entities(lex, words)[i]) == lex.lower(w)
  {
    var n := |words| - 1;
    var e := Entities(lex, words);
    if Kept(lex, words, n) && words[n] == w {
      assert e[|e| - 1] == w;
    } else {
      var v := w;
      if w !in words[..n] {
        var j :| 0 <= j < n && words[j] !in lex.stop && lex.lower(words[j]) == lex.lower(w);
        v := words[j];
        assert words[..n][j] == v;
      }
      FormIsListed(lex, words[..n], v);
      var i :| 0 <= i < |Entities(lex, words[..n])| && lex.lower(Entities(lex, words[..n])[i]) == lex.lower(v);
      assert e[i] == Entities(lex, words[..n])[i];
    }
  }

  /** They are listed in the order in which they first occur, each as it is written there. */
  lemma {:induction false} EntitiesAreFirsts(lex: Lexicon, words: seq<string>) returns (at: seq<nat>)
    ensures |at| == |Entities(lex, words)|
    ensures forall i :: 0 <= i < |at| ==> at[i] < |words| && Entities(lex, words)[i] == words[at[i]]
    ensures forall i, j :: 0 <= i < j < |at| ==> at[i] < at[j]
    ensures forall i, j :: 0 <= i < |at| && 0 <= j < at[i] && words[j] !in lex.stop ==>
      lex.lower(words[j]) != lex.lower(words[at[i]])
  {
    at := [];
    if words != [] {
      var n := |words| - 1;
      at := EntitiesAreFirsts(lex, words[..n]);
      forall i, j | 0 <= i < |at| && 0 <= j < at[i] && words[j] !in lex.stop
        ensures lex.lower(words[j]) != lex.lower(words[at[i]])
      {
        assert words[..n][j] == words[j] && words[..n][at[i]] == words[at[i]];
      }
      if Kept(lex, words, n) {
        at := at + [n];
      }
    }
  }

  // ---- co-mention edges ----------------------------------------------------------------------------

  /** Entities are stored under the first hundred characters of their name. */
  function Stored(name: string): (s: string)
    ensures s <= name && |s| == if |name| < 100 then |name| else 100
  {
    if |name| <= 100 then name else name[..100]
  }

  function StoredAll(names: seq<string>): seq<string> {
    seq(|names|, i requires 0 <= i < |names| => Stored(names[i]))
  }

  type Edges = map<set<string>, nat>

  function Weight(edges: Edges, pair: set<string>): nat {
    if pair in edges then edges[pair] else 0
  }

  /** 1 if bumping a and b is bumping `pair`; a name is never linked to itself. */
  function Hit(a: string, b: string, pair: set<string>): nat {
    if a != b && {a, b} == pair then 1 else 0
  }

  /** How often the inner loop of row i has bumped `pair` when it has reached j. */
  function Row(ids: seq<string>, i: nat, j: nat, pair: set<string>): nat
    requires i < j <= |ids|
    decreases j
  {
    if j == i + 1 then 0 else Row(ids, i, j - 1, pair) + Hit(ids[i], ids[j - 1], pair)
  }

  /** How often the first n rows bump `pair`. */
  function Bumps(ids: seq<string>, n: nat, pair: set<string>): nat
    requires n <= |ids|
  {
    if n == 0 then 0 else Bumps(ids, n - 1, pair) + Row(ids, n - 1, |ids|, pair)
  }

  function Bump(edges: Edges, a: string, b: string): (r: Edges)
    ensures forall p :: Weight(r, p) == Weight(edges, p) + Hit(a, b, p)
  {
    if a == b then edges else edges[{a, b} := Weight(edges, {a, b}) + 1]
  }

  ghost predicate Distinct(ids: seq<string>) {
    forall i, j :: 0 <= i < j < |ids| ==> ids[i] != ids[j]
  }

  lemma HitIff(ids: seq<string>, i: nat, j: nat, lo: nat, hi: nat)
    requires Distinct(ids) && i < j < |ids| && lo < hi < |ids|
    ensures Hit(ids[i], ids[j], {ids[lo], ids[hi]}) == if i == lo && j == hi then 1 else 0
  {
    var pair := {ids[lo], ids[hi]};
    if {ids[i], ids[j]} == pair {
      assert ids[i] in pair && ids[j] in pair;
    }
  }

  lemma {:induction false} RowIs(ids: seq<string>, i: nat, j: nat, lo: nat, hi: nat)
    requires Distinct(ids) && i < j <= |ids| && lo < hi < |ids|
    ensures Row(ids, i, j, {ids[lo], ids[hi]}) == if i == lo && hi < j then 1 else 0
    decreases j
  {
    if j > i + 1 {
      RowIs(ids, i, j - 1, lo, hi);
      HitIff(ids, i, j - 1, lo, hi);
    }
  }

  /** With distinct stored names, every pair of entities of the event is bumped exactly once. */
  lemma {:induction false} EveryPairOnce(ids: seq<string>, n: nat, lo: nat, hi: nat)
    requires Distinct(ids) && n <= |ids| && lo < hi < |ids|
    ensures Bumps(ids, n, {ids[lo], ids[hi]}) == if lo < n then 1 else 0
  {
    if n > 0 {
      EveryPairOnce(ids, n - 1, lo, hi);
      RowIs(ids, n - 1, |ids|, lo, hi);
    }
  }

  /** No other pair is bumped. */
  lemma {:induction false} OthersUntouched(ids: seq<string>, n: nat, pair: set<string>)
    requires n <= |ids| && forall i, j :: 0 <= i < j < |ids| ==> {ids[i], ids[j]} != pair
    ensures Bumps(ids, n, pair) == 0
  {
    if n > 0 {
      OthersUntouched(ids, n - 1, pair);
      RowMisses(ids, n - 1, |ids|, pair);
    }
  }

  lemma {:induction false} RowMisses(ids: seq<string>, i: nat, j: nat, pair: set<string>)
    requires i < j <= |ids| && forall k :: i < k < |ids| ==> {ids[i], ids[k]} != pair
    ensures Row(ids, i, j, pair) == 0
    decreases j
  {
    if j > i + 1 {
      RowMisses(ids, i, j - 1, pair);
    }
  }

  lemma {:induction false} RowHitsNoSingle(ids: seq<string>, i: nat, j: nat, x: string)
    requires i < j <= |ids|
    ensures Row(ids, i, j, {x}) == 0
    decreases j
  {
    if j > i + 1 {
      RowHitsNoSingle(ids, i, j - 1, x);
      HitsNoSingle(ids[i], ids[j - 1], x);
    }
  }

  lemma HitsNoSingle(a: string, b: string, x: string)
    ensures Hit(a, b, {x}) == 0
  {
    if {a, b} == {x} {
      assert a in {x} && b in {x};
    }
  }

  /** A name is never linked to itself. */
  lemma {:induction false} NoSingleBumped(ids: seq<string>, n: nat, x: string)
    requires n <= |ids|
    ensures Bumps(ids, n, {x}) == 0
  {
    if n > 0 {
      NoSingleBumped(ids, n - 1, x);
      RowHitsNoSingle(ids, n - 1, |ids|, x);
    }
  }

  /** Every pair of an event's entities is bumped exactly once if and only if they are stored under
      different names. */
  lemma EveryPairOnceIff(ids: seq<string>)
    ensures (forall lo, hi :: 0 <= lo < hi < |ids| ==> Bumps(ids, |ids|, {ids[lo], ids[hi]}) == 1) <==> Distinct(ids)
  {
    if Distinct(ids) {
      forall lo, hi | 0 <= lo < hi < |ids|
        ensures Bumps(ids, |ids|, {ids[lo], ids[hi]}) == 1
      {
        EveryPairOnce(ids, |ids|, lo, hi);
      }
    } else {
      var lo, hi :| 0 <= lo < hi < |ids| && ids[lo] == ids[hi];
      NoSingleBumped(ids, |ids|, ids[lo]);
      assert {ids[lo], ids[hi]} == {ids[lo]};
    }
  }

  function Letters(c: char, n: nat): (s: string)
    ensures |s| == n
  {
    seq(n, _ => c)
  }

  /** Two names that differ only after their first hundred characters are two entities, but are stored under
      one name, and their pair is not bumped. */
  lemma LongNamesCoincide(lex: Lexicon)
    requires lex.stop == {} && forall w :: lex.lower(w) == w
    ensures var words := [Letters('a', 100) + "b", Letters('a', 100) + "c"];
      var e := Entities(lex, words);
      && e == words && e[0] != e[1] && StoredAll(e)[0] == StoredAll(e)[1]
      && Bumps(StoredAll(e), 2, {StoredAll(e)[0], StoredAll(e)[1]}) == 0
  {
    var a := Letters('a', 100);
    var words := [a + "b", a + "c"];
    assert words[0][100] == 'b' && words[1][100] == 'c';
    assert words[..1] == [words[0]] && words[..1][..0] == [];
    assert Entities(lex, words[..1]) == [words[0]];
    assert (a + "b")[..100] == a == (a + "c")[..100];
    var ids := StoredAll(words);
    NoSingleBumped(ids, 2, a);
    assert {ids[0], ids[1]} == {a};
  }

  method BumpPairs(edges: Edges, ids: seq<string>) returns (r: Edges)
    ensures forall p :: Weight(r, p) == Weight(edges, p) + Bumps(ids, |ids|, p)
  {
    r := edges;
    var i := 0;
    while i < |ids|
      invariant i <= |ids| && forall p :: Weight(r, p) == Weight(edges, p) + Bumps(ids, i, p)
    {
      ghost var start := r;
      var j := i + 1;
      while j < |ids|
        invariant i < j <= |ids| && forall p :: Weight(r, p) == Weight(start, p) + Row(ids, i, j, p)
      {
        r := Bump(r, ids[i], ids[j]);
        j := j + 1;
      }
      i := i + 1;
    }
  }

  // ---- the centroid and the boundary test --------------------------------------------------------

  /** `far(v, c)` is the embedding-surprise test of vector v against the running mean c. */
  datatype Config = Config(gap: int, maxTurns: int, dim: nat, far: (Vec, Vec) -> bool)

  predicate Sized(turns: seq<Turn>, dim: nat) {
    forall t :: t in turns ==> |t.vec| == dim
  }

  function Sum(turns: seq<Turn>, dim: nat, k: nat): real
    requires Sized(turns, dim) && k < dim
  {
    if turns == [] then 0.0
    else
      var n := |turns| - 1;
      assert turns[n] in turns && Sized(turns[..n], dim);
      Sum(turns[..n], dim, k) + turns[n].vec[k]
  }

  /** The exact mean vector of an event. */
  function Mean(turns: seq<Turn>, dim: nat): (m: Vec)
    requires turns != [] && Sized(turns, dim)
    ensures |m| == dim
  {
    seq(dim, k requires 0 <= k < dim => Sum(turns, dim, k) / |turns| as real)
  }

  /** Turn `t` does not belong with the open event. */
  predicate Boundary(cfg: Config, open: seq<Turn>, t: Turn)
    requires open != [] && Sized(open, cfg.dim)
  {
    var last := open[|open| - 1];
    t.sid != last.sid || t.at - last.at > cfg.gap || cfg.far(t.vec, Mean(open, cfg.dim))
  }

  /** The segmentation rules of an encoder whose embedder returns vectors of one dimension. */
  function RulesOf(cfg: Config): Rules {
    Rules(cfg.maxTurns, (open: seq<Turn>, t) => open != [] && Sized(open, cfg.dim) && Boundary(cfg, open, t))
  }

  /** Turn i of the event follows on the ones before it: same session, no gap above the limit, and not a
      surprise after them. */
  predicate Follows(cfg: Config, event: seq<Turn>, i: nat)
    requires 0 < i < |event| && Sized(event, cfg.dim)
  {
    assert Sized(event[..i], cfg.dim);
    && event[i].sid == event[0].sid && event[i].at - event[i - 1].at <= cfg.gap
    && !cfg.far(event[i].vec, Mean(event[..i], cfg.dim))
  }

  ghost predicate Together(cfg: Config, event: seq<Turn>) {
    && Sized(event, cfg.dim) && 1 <= |event| <= (if cfg.maxTurns < 1 then 1 else cfg.maxTurns)
    && forall i :: 0 < i < |event| ==> Follows(cfg, event, i)
  }

  lemma {:induction false} UnbrokenFollows(cfg: Config, event: seq<Turn>, i: nat)
    requires Unbroken(RulesOf(cfg), event) && Sized(event, cfg.dim) && 0 < i < |event|
    ensures Follows(cfg, event, i)
  {
    var open := event[..i];
    assert Joins(RulesOf(cfg), event, i);
    assert open != [] && Sized(open, cfg.dim) && open[|open| - 1] == event[i - 1];
    assert !Boundary(cfg, open, event[i]);
    if i > 1 {
      UnbrokenFollows(cfg, event, i - 1);
    }
  }

  /** Every event the encoder makes of the turns, the open one included, keeps together. */
  lemma EventsKeepTogether(cfg: Config, turns: seq<Turn>, k: nat)
    requires Sized(turns, cfg.dim) && k < |EventsOf(Segment(RulesOf(cfg), turns))|
    ensures Together(cfg, EventsOf(Segment(RulesOf(cfg), turns))[k])
  {
    var event := EventsOf(Segment(RulesOf(cfg), turns))[k];
    EventsAreTight(RulesOf(cfg), turns, k);
    forall i | 0 < i < |event|
      ensures Follows(cfg, event, i)
    {
      UnbrokenFollows(cfg, event, i);
    }
  }

  /** What may end event `a` before the turn `t`: the cap, another session, a gap above the limit, or a turn
      that surprises after `a`. */
  predicate Parts(cfg: Config, a: seq<Turn>, t: Turn)
    requires a != [] && Sized(a, cfg.dim)
  {
    || |a| >= cfg.maxTurns
    || t.sid != a[|a| - 1].sid
    || t.at - a[|a| - 1].at > cfg.gap
    || cfg.far(t.vec, Mean(a, cfg.dim))
  }

  predicate PartedAt(cfg: Config, events: seq<seq<Turn>>, k: nat)
    requires k + 1 < |events|
  {
    events[k] != [] && events[k + 1] != [] && Sized(events[k], cfg.dim) && Parts(cfg, events[k], events[k + 1][0])
  }

  /** Something parts every two neighbouring events. */
  ghost predicate WellParted(cfg: Config, events: seq<seq<Turn>>) {
    forall k :: 0 <= k < |events| - 1 ==> PartedAt(cfg, events, k)
  }

  /** Turns are split only where something parts them. */
  lemma EventsPart(cfg: Config, turns: seq<Turn>)
    requires Sized(turns, cfg.dim)
    ensures WellParted(cfg, EventsOf(Segment(RulesOf(cfg), turns)))
  {
    var s := Segment(RulesOf(cfg), turns);
    var e := EventsOf(s);
    SegmentIsGreedy(RulesOf(cfg), turns);
    forall k | 0 <= k < |e| - 1
      ensures PartedAt(cfg, e, k)
    {
      EventsKeepTogether(cfg, turns, k);
      EventsKeepTogether(cfg, turns, k + 1);
      assert After(s, k) == e[k + 1] && Ends(RulesOf(cfg), s.events[k], After(s, k));
    }
  }

  function Blend(c: real, v: real, n: nat): real
    requires n > 0
  {
    (c * (n - 1) as real + v) / n as real
  }

  /** The incremental update of the running mean, to that of n vectors. */
  function Folded(c: Vec, v: Vec, n: nat): (m: Vec)
    requires |c| == |v| && n > 0
    ensures |m| == |v|
  {
    seq(|v|, k requires 0 <= k < |v| => Blend(c[k], v[k], n))
  }

  lemma SumSnoc(open: seq<Turn>, t: Turn, dim: nat, k: nat)
    requires Sized(open, dim) && |t.vec| == dim && k < dim
    ensures Sized(open + [t], dim) && Sum(open + [t], dim, k) == Sum(open, dim, k) + t.vec[k]
  {
    assert (open + [t])[..|open|] == open;
  }

  lemma BlendedMean(sum: real, v: real, n: nat)
    requires n > 0
    ensures Blend(sum / n as real, v, n + 1) == (sum + v) / (n + 1) as real
  {
    var d := n as real;
    assert sum / d * d == sum;
  }

  /** The running mean is the exact mean of the buffer. */
  lemma MeanIsExact(open: seq<Turn>, t: Turn, dim: nat)
    requires open != [] && Sized(open, dim) && |t.vec| == dim
    ensures Sized(open + [t], dim) && Folded(Mean(open, dim), t.vec, |open| + 1) == Mean(open + [t], dim)
  {
    var c, e := Mean(open, dim), open + [t];
    var f := Folded(c, t.vec, |open| + 1);
    forall k | 0 <= k < dim
      ensures f[k] == Mean(e, dim)[k]
    {
      SumSnoc(open, t, dim, k);
      BlendedMean(Sum(open, dim, k), t.vec[k], |open|);
      assert f[k] == Blend(c[k], t.vec[k], |open| + 1);
    }
  }

  lemma FirstMean(t: Turn, dim: nat)
    requires |t.vec| == dim
    ensures Sized([t], dim) && Mean([t], dim) == t.vec
  {
    forall k | 0 <= k < dim
      ensures Mean([t], dim)[k] == t.vec[k]
    {
      assert [t][..0] == [] && Sum([t], dim, k) == 0.0 + t.vec[k];
    }
  }
}
