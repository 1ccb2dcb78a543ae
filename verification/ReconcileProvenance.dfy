/** What a page of a reconcile walk does to the source turns of its facts. A page reads its rows at once and
    walks them one by one, so a fact can be reconciled with turns that an earlier fact of the page has
    added to since. Which facts end up live does not depend on this; what their rows say does. */
module ReconcileProvenance {
  import opened Options
  import opened ReconcileFold

  type Turns = set<int>

  type Rows = map<Key, Turns>

  /** The live facts and the source turns of every row. */
  datatype Store = Store(live: set<Key>, rows: Rows)

  /** What reconciling a fact writes to the rows, given its own row as it was read. */
  type Writer = (Rows, Key, Turns) -> Rows

  function TurnsOf(rows: Rows, k: Key): Turns {
    if k in rows then rows[k] else {}
  }

  /** Reconciling fact `k` writes to the database. */
  predicate Writes(rf: Reconciler, live: set<Key>, k: Key) {
    k in live && (rf(live, k).deduped > 0 || rf(live, k).closed > 0)
  }

  function LiveAfter(rf: Reconciler, live: set<Key>, k: Key): set<Key> {
    if k in live then rf(live, k).live else live
  }

  function Visited(rf: Reconciler, w: Writer, s: Store, k: Key, row: Turns): Store {
    Store(LiveAfter(rf, s.live, k), if Writes(rf, s.live, k) then w(s.rows, k, row) else s.rows)
  }

  /** The facts one by one, each with its row as it is by then. */
  function OneByOne(rf: Reconciler, w: Writer, s: Store, keys: seq<Key>): Store
    decreases keys
  {
    if keys == [] then s
    else OneByOne(rf, w, Visited(rf, w, s, keys[0], TurnsOf(s.rows, keys[0])), keys[1..])
  }

  /** The facts of one page, each with its row as the page read it. */
  function InOnePage(rf: Reconciler, w: Writer, s: Store, keys: seq<Key>, read: Rows): Store
    decreases keys
  {
    if keys == [] then s
    else InOnePage(rf, w, Visited(rf, w, s, keys[0], TurnsOf(read, keys[0])), keys[1..], read)
  }

  /** How many of the facts write. */
  function Writers(rf: Reconciler, live: set<Key>, keys: seq<Key>): (n: nat)
    ensures n <= |keys|
  {
    if keys == [] then 0
    else Writers(rf, LiveAfter(rf, live, keys[0]), keys[1..]) + if Writes(rf, live, keys[0]) then 1 else 0
  }

  ghost predicate NoRepeats(keys: seq<Key>) {
    forall i, j :: 0 <= i < j < |keys| ==> keys[i] != keys[j]
  }

  // ---- which facts stay live ------------------------------------------------------------------

  /** The live facts come out the same, whatever is written and however the page read its rows. */
  lemma {:induction false} LiveDoesNotDepend(rf: Reconciler, w: Writer, s: Store, t: Store, keys: seq<Key>, read: Rows)
    requires s.live == t.live
    ensures InOnePage(rf, w, s, keys, read).live == OneByOne(rf, w, t, keys).live
    decreases keys
  {
    if keys != [] {
      LiveDoesNotDepend(rf, w, Visited(rf, w, s, keys[0], TurnsOf(read, keys[0])),
                        Visited(rf, w, t, keys[0], TurnsOf(t.rows, keys[0])), keys[1..], read);
    }
  }

  // ---- what the rows say ------------------------------------------------------------------------

  /** A fact that writes nothing leaves everything as it is. */
  lemma Skips(rf: Reconciler, w: Writer, s: Store, k: Key, row: Turns)
    requires !Writes(rf, s.live, k)
    ensures Visited(rf, w, s, k, row) == s && LiveAfter(rf, s.live, k) == s.live
  {
    assert k in s.live ==> rf(s.live, k).live == s.live;
  }

  lemma {:induction false} NoWriters(rf: Reconciler, w: Writer, s: Store, keys: seq<Key>, read: Rows)
    requires Writers(rf, s.live, keys) == 0
    ensures InOnePage(rf, w, s, keys, read) == s == OneByOne(rf, w, s, keys)
  {
    if keys != [] {
      Skips(rf, w, s, keys[0], TurnsOf(read, keys[0]));
      Skips(rf, w, s, keys[0], TurnsOf(s.rows, keys[0]));
      NoWriters(rf, w, s, keys[1..], read);
    }
  }

  lemma {:induction false} OneWriter(rf: Reconciler, w: Writer, s: Store, keys: seq<Key>)
    requires Writers(rf, s.live, keys) <= 1
    ensures InOnePage(rf, w, s, keys, s.rows) == OneByOne(rf, w, s, keys)
  {
    if keys != [] {
      var t := Visited(rf, w, s, keys[0], TurnsOf(s.rows, keys[0]));
      if Writes(rf, s.live, keys[0]) {
        NoWriters(rf, w, t, keys[1..], s.rows);
      } else {
        Skips(rf, w, s, keys[0], TurnsOf(s.rows, keys[0]));
        OneWriter(rf, w, s, keys[1..]);
      }
    }
  }

  /** Fact `a` gives row `b` a turn, and fact `b` writes back its own row as it was read. */
  function Telltale(a: Key, b: Key): Writer {
    (rows: Rows, k: Key, row: Turns) =>
      if k == a then rows[b := {1}] else if k == b then rows[b := row] else rows
  }

  lemma {:induction false} BystandersKeep(rf: Reconciler, a: Key, b: Key, s: Store, keys: seq<Key>, read: Rows)
    requires a !in keys && b !in keys
    ensures InOnePage(rf, Telltale(a, b), s, keys, read).rows == s.rows == OneByOne(rf, Telltale(a, b), s, keys).rows
    decreases keys
  {
    if keys != [] {
      var w := Telltale(a, b);
      assert keys[0] in keys && forall k :: k in keys[1..] ==> k in keys;
      BystandersKeep(rf, a, b, Visited(rf, w, s, keys[0], TurnsOf(read, keys[0])), keys[1..], read);
      BystandersKeep(rf, a, b, Visited(rf, w, s, keys[0], TurnsOf(s.rows, keys[0])), keys[1..], read);
    }
  }

  /** After `a` has written, the next fact to write tells the two apart. */
  lemma {:induction false} SecondTells(rf: Reconciler, a: Key, live: set<Key>, keys: seq<Key>) returns (b: Key)
    requires NoRepeats(keys) && a !in keys && Writers(rf, live, keys) >= 1
    ensures b in keys
    ensures var s := Store(live, map[b := {1}]);
      && TurnsOf(InOnePage(rf, Telltale(a, b), s, keys, map[]).rows, b) == {}
      && TurnsOf(OneByOne(rf, Telltale(a, b), s, keys).rows, b) == {1}
  {
    var rest := keys[1..];
    assert keys[0] in keys && forall k :: k in rest ==> k in keys;
    if Writes(rf, live, keys[0]) {
      b := keys[0];
      var w, s := Telltale(a, b), Store(live, map[b := {1}]);
      BystandersKeep(rf, a, b, Visited(rf, w, s, b, {}), rest, map[]);
      BystandersKeep(rf, a, b, Visited(rf, w, s, b, {1}), rest, map[]);
    } else {
      Skips(rf, Telltale(a, a), Store(live, map[]), keys[0], {});
      b := SecondTells(rf, a, live, rest);
      var w, s := Telltale(a, b), Store(live, map[b := {1}]);
      Skips(rf, w, s, keys[0], {});
      Skips(rf, w, s, keys[0], TurnsOf(s.rows, keys[0]));
    }
  }

  lemma {:induction false} TwoWritersTell(rf: Reconciler, live: set<Key>, keys: seq<Key>) returns (w: Writer)
    requires NoRepeats(keys) && Writers(rf, live, keys) >= 2
    ensures InOnePage(rf, w, Store(live, map[]), keys, map[]).rows != OneByOne(rf, w, Store(live, map[]), keys).rows
  {
    var rest := keys[1..];
    if Writes(rf, live, keys[0]) {
      var b := SecondTells(rf, keys[0], LiveAfter(rf, live, keys[0]), rest);
      w := Telltale(keys[0], b);
      assert map[][b := {1}] == map[b := {1}];
    } else {
      w := TwoWritersTell(rf, live, rest);
      Skips(rf, w, Store(live, map[]), keys[0], {});
    }
  }

  /** A page leaves the rows that a walk fact by fact leaves, whatever is written and whatever the rows said,
      if and only if at most one of its facts writes. */
  lemma PageKeepsRowsIff(rf: Reconciler, live: set<Key>, keys: seq<Key>)
    requires NoRepeats(keys)
    ensures (forall w: Writer, rows: Rows ::
               InOnePage(rf, w, Store(live, rows), keys, rows).rows == OneByOne(rf, w, Store(live, rows), keys).rows)
       <==> Writers(rf, live, keys) <= 1
  {
    if Writers(rf, live, keys) <= 1 {
      forall w: Writer, rows: Rows
        ensures InOnePage(rf, w, Store(live, rows), keys, rows).rows == OneByOne(rf, w, Store(live, rows), keys).rows
      {
        OneWriter(rf, w, Store(live, rows), keys);
      }
    } else {
      var w := TwoWritersTell(rf, live, keys);
    }
  }

  // ---- three restatements ------------------------------------------------------------------------

  /** Every fact restates the next older one of these three, if that is live. */
  function Older(k: Key): Key {
    Key(k.obs - 1, k.id)
  }

  function Restating(): Reconciler {
    (live: set<Key>, k: Key) => if k in live && Older(k) in live then Effect(live - {k}, 1, 0) else Effect(live, 0, 0)
  }

  /** The older fact takes over the turns of the one that restates it. */
  function Merged(): Writer {
    (rows: Rows, k: Key, row: Turns) => rows[Older(k) := TurnsOf(rows, Older(k)) + row]
  }

  /** A restates B and B restates C, each with one source turn. Fact by fact C ends up with all three turns;
      in one page it never gets A's, because B is merged into it as the page read B. */
  lemma ThreeRestatements()
    ensures var a, b, c := Key(2, 0), Key(1, 0), Key(0, 0);
      var s := Store({a, b, c}, map[a := {20}, b := {10}, c := {0}]);
      && OneByOne(Restating(), Merged(), s, [a, b, c]) == Store({c}, map[a := {20}, b := {10, 20}, c := {0, 10, 20}])
      && InOnePage(Restating(), Merged(), s, [a, b, c], s.rows) == Store({c}, map[a := {20}, b := {10, 20}, c := {0, 10}])
  {
    var a, b, c := Key(2, 0), Key(1, 0), Key(0, 0);
    var rf, w := Restating(), Merged();
    var s := Store({a, b, c}, map[a := {20}, b := {10}, c := {0}]);
    assert Older(a) == b && Older(b) == c && {a, b, c} - {a} == {b, c} && {b, c} - {b} == {c};
    assert {10} + {20} == {10, 20} && {0} + {10, 20} == {0, 10, 20} && {0} + {10} == {0, 10};
    var t := Visited(rf, w, s, a, {20});
    assert t == Store({b, c}, map[a := {20}, b := {10, 20}, c := {0}]);
    var merged, stale := Visited(rf, w, t, b, {10, 20}), Visited(rf, w, t, b, {10});
    assert merged == Store({c}, map[a := {20}, b := {10, 20}, c := {0, 10, 20}]);
    assert stale == Store({c}, map[a := {20}, b := {10, 20}, c := {0, 10}]);
    assert [a, b, c][1..] == [b, c] && [b, c][1..] == [c] && [c][1..] == [];
    assert OneByOne(rf, w, merged, [c]) == merged && InOnePage(rf, w, stale, [c], s.rows) == stale;
    assert OneByOne(rf, w, t, [b, c]) == merged && InOnePage(rf, w, t, [b, c], s.rows) == stale;
  }
}
