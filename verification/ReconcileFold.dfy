/** The meaning of a reconcile walk: one fold over the facts, newest first. */
module ReconcileFold {
  import opened Options

  /** The keyset position of a fact: its observation time, then its id. */
  datatype Key = Key(obs: int, id: int)

  /** What reconciling one fact does: which facts it leaves live, and how many it deduped and closed. */
  datatype Effect = Effect(live: set<Key>, deduped: nat, closed: nat)

  datatype Outcome = Outcome(live: set<Key>, deduped: nat, closed: nat)

  predicate Newer(a: Key, b: Key) {
    a.obs > b.obs || (a.obs == b.obs && a.id > b.id)
  }

  /** `k` comes strictly after the cursor; None is before the newest fact. */
  predicate Below(k: Key, cursor: Option<Key>) {
    cursor.None? || Newer(cursor.value, k)
  }

  ghost predicate NewestFirst(keys: seq<Key>) {
    forall i, j {:trigger Newer(keys[i], keys[j])} :: 0 <= i < j < |keys| ==> Newer(keys[i], keys[j])
  }

  /** Reconciling a live fact never brings a fact to life, and counts something exactly when it ends one.
      Its queries look at live facts and at columns that a walk never changes, so the effect depends on
      which facts are live and on nothing else that a walk writes. */
  ghost predicate WellBehaved(rf: (set<Key>, Key) -> Effect) {
    forall live: set<Key>, k: Key {:trigger rf(live, k)} :: k in live ==>
      && rf(live, k).live <= live
      && (rf(live, k).live == live <==> rf(live, k).deduped == 0 && rf(live, k).closed == 0)
  }

  type Reconciler = rf: (set<Key>, Key) -> Effect | WellBehaved(rf) ghost witness (live, k) => Effect(live, 0, 0)

  /** The facts of a namespace, newest first. */
  type Facts = keys: seq<Key> | NewestFirst(keys) ghost witness []

  /** Newer is observed later, or at the same time under a higher id. */
  lemma NewerIs(a: Key, b: Key)
    ensures Newer(a, b) <==> if a.obs == b.obs then a.id > b.id else a.obs > b.obs
  {
  }

  /** What a visit does to the live facts and to each of the two totals. */
  lemma VisitIs(rf: Reconciler, o: Outcome, k: Key)
    ensures k !in o.live ==> Visit(rf, o, k) == o
    ensures k in o.live ==>
      && Visit(rf, o, k).live == rf(o.live, k).live
      && Visit(rf, o, k).deduped == o.deduped + rf(o.live, k).deduped
      && Visit(rf, o, k).closed == o.closed + rf(o.live, k).closed
  {
  }

  /** One fact of the walk: skipped when an earlier fact has closed it. */
  function Visit(rf: Reconciler, o: Outcome, k: Key): Outcome {
    if k in o.live then
      var e := rf(o.live, k);
      Outcome(e.live, o.deduped + e.deduped, o.closed + e.closed)
    else o
  }

  /** The single uninterrupted walk over `keys`. */
  function Fold(rf: Reconciler, o: Outcome, keys: seq<Key>): Outcome {
    if keys == [] then o
    else Visit(rf, Fold(rf, o, keys[..|keys| - 1]), keys[|keys| - 1])
  }

  /** The first position at or after `i` that is below the cursor. */
  function Position(order: seq<Key>, cursor: Option<Key>, i: nat): (r: nat)
    requires i <= |order|
    ensures i <= r <= |order| && (r < |order| ==> Below(order[r], cursor))
    ensures forall m :: i <= m < r ==> !Below(order[m], cursor)
    decreases |order| - i
  {
    if i == |order| || Below(order[i], cursor) then i else Position(order, cursor, i + 1)
  }

  /** The keys at or above the cursor. */
  function Upto(order: seq<Key>, cursor: Option<Key>): seq<Key> {
    order[..Position(order, cursor, 0)]
  }

  function LiveBelow(order: seq<Key>, live: set<Key>, cursor: Option<Key>): (r: seq<Key>)
    ensures forall k :: k in r <==> k in order && k in live && Below(k, cursor)
  {
    if order == [] then []
    else
      var n := |order| - 1;
      LiveBelow(order[..n], live, cursor) + if order[n] in live && Below(order[n], cursor) then [order[n]] else []
  }

  /** One keyset page: the newest live facts after the cursor, at most `want` of them. */
  function Page(order: seq<Key>, live: set<Key>, cursor: Option<Key>, want: nat): seq<Key> {
    var l := LiveBelow(order, live, cursor);
    if |l| <= want then l else l[..want]
  }

  // ---- pages ----------------------------------------------------------------------------

  lemma {:induction false} LiveBelowIsSorted(order: Facts, live: set<Key>, cursor: Option<Key>)
    ensures NewestFirst(LiveBelow(order, live, cursor))
  {
    if order != [] {
      var n := |order| - 1;
      LiveBelowIsSorted(order[..n], live, cursor);
      var init := LiveBelow(order[..n], live, cursor);
      forall i | 0 <= i < |init|
        ensures Newer(init[i], order[n])
      {
        assert init[i] in order[..n];
        var m :| 0 <= m < n && order[..n][m] == init[i];
        assert Newer(order[m], order[n]);
      }
    }
  }

  /** A page is exactly the newest live facts after the cursor: sorted, and nothing live is skipped. */
  lemma PageIsNextLiveFacts(order: Facts, live: set<Key>, cursor: Option<Key>, want: nat)
    ensures var page := Page(order, live, cursor, want);
      && NewestFirst(page) && |page| <= want
      && (forall k :: k in page ==> k in order && k in live && Below(k, cursor))
      && (forall k :: k in order && k in live && Below(k, cursor) ==>
            k in page || (|page| == want && forall i :: 0 <= i < |page| ==> Newer(page[i], k)))
  {
    LiveBelowIsSorted(order, live, cursor);
    var l := LiveBelow(order, live, cursor);
    var page := Page(order, live, cursor, want);
    forall k | k in order && k in live && Below(k, cursor)
      ensures k in page || (|page| == want && forall i :: 0 <= i < |page| ==> Newer(page[i], k))
    {
      var m :| 0 <= m < |l| && l[m] == k;
      if m < |page| { assert page[m] == k; }
    }
  }

  lemma PageFits(order: Facts, live: set<Key>, cursor: Option<Key>, want: nat)
    ensures |Page(order, live, cursor, want)| <= want
  {
  }

  lemma PageHas(order: Facts, live: set<Key>, cursor: Option<Key>, want: nat, i: nat)
    requires i < |Page(order, live, cursor, want)|
    ensures var k := Page(order, live, cursor, want)[i]; k in order && k in live && Below(k, cursor)
  {
    PageIsNextLiveFacts(order, live, cursor, want);
    assert Page(order, live, cursor, want)[i] in Page(order, live, cursor, want);
  }

  /** Newest first: by falling observation time, and by falling id where it is the same. */
  lemma PagesFall(order: Facts, live: set<Key>, cursor: Option<Key>, want: nat, i: nat, j: nat)
    requires i < j < |Page(order, live, cursor, want)|
    ensures var page := Page(order, live, cursor, want);
      page[i].obs > page[j].obs || (page[i].obs == page[j].obs && page[i].id > page[j].id)
  {
    LiveBelowIsSorted(order, live, cursor);
    var l := LiveBelow(order, live, cursor);
    assert Newer(l[i], l[j]);
  }

  /** An empty page means the walk is over, unless nothing was asked for. */
  lemma EmptyPageIff(order: seq<Key>, live: set<Key>, cursor: Option<Key>, want: nat)
    ensures Page(order, live, cursor, want) == [] <==>
            want == 0 || forall k :: k in order && k in live ==> !Below(k, cursor)
  {
    var l := LiveBelow(order, live, cursor);
    if l != [] { assert l[0] in l; }
  }

  /** `k` comes after the cursor, with no live fact in between. */
  ghost predicate NextLive(order: seq<Key>, live: set<Key>, cursor: Option<Key>, k: Key) {
    && k in order && Below(k, cursor)
    && forall x :: x in order && Below(x, cursor) && Newer(x, k) ==> x !in live
  }

  /** The cursor just before fact `i` of a page. */
  function Before(page: seq<Key>, cursor: Option<Key>, i: nat): Option<Key>
    requires i <= |page|
  {
    if i == 0 then cursor else Some(page[i - 1])
  }

  /** Walking the page in order visits the live facts one after the other. */
  ghost predicate Paged(order: seq<Key>, live: set<Key>, cursor: Option<Key>, page: seq<Key>) {
    forall i {:trigger Before(page, cursor, i)} :: 0 <= i < |page| ==>
      Below(page[i], cursor) && NextLive(order, live, Before(page, cursor, i), page[i])
  }

  lemma NewerIsEarlier(keys: Facts, a: nat, b: nat)
    requires a < |keys| && b < |keys|
    ensures Newer(keys[a], keys[b]) <==> a < b
  {
    assert b < a ==> Newer(keys[b], keys[a]);
  }

  lemma PagesFollowOn(order: Facts, live: set<Key>, cursor: Option<Key>, want: nat)
    ensures Paged(order, live, cursor, Page(order, live, cursor, want))
  {
    PageIsNextLiveFacts(order, live, cursor, want);
    var page := Page(order, live, cursor, want);
    forall i | 0 <= i < |page|
      ensures NextLive(order, live, Before(page, cursor, i), page[i])
    {
      assert page[i] in page;
      forall x | x in order && Below(x, Before(page, cursor, i)) && Newer(x, page[i])
        ensures x !in live
      {
        if x in live {
          if i > 0 {
            assert page[i - 1] in page;
          }
          assert Below(x, cursor) && x in page;
          var m :| 0 <= m < |page| && page[m] == x;
          NewerIsEarlier(page, m, i);
          if i > 0 {
            NewerIsEarlier(page, i - 1, m);
          }
        }
      }
    }
  }

  lemma NextLiveShrinks(order: seq<Key>, live: set<Key>, live': set<Key>, cursor: Option<Key>, k: Key)
    requires NextLive(order, live, cursor, k) && live' <= live
    ensures NextLive(order, live', cursor, k)
  {
  }

  // ---- the fold -------------------------------------------------------------------------

  lemma {:induction false} FoldAppend(rf: Reconciler, o: Outcome, a: seq<Key>, b: seq<Key>)
    ensures Fold(rf, o, a + b) == Fold(rf, Fold(rf, o, a), b)
  {
    if b == [] {
      assert a + b == a;
    } else {
      var n := |b| - 1;
      FoldAppend(rf, o, a, b[..n]);
      assert (a + b)[..|a + b| - 1] == a + b[..n];
    }
  }

  lemma {:induction false} FoldDead(rf: Reconciler, o: Outcome, keys: seq<Key>)
    requires forall k :: k in keys ==> k !in o.live
    ensures Fold(rf, o, keys) == o
  {
    if keys != [] {
      var n := |keys| - 1;
      assert keys[n] in keys && forall k :: k in keys[..n] ==> k in keys;
      FoldDead(rf, o, keys[..n]);
    }
  }

  lemma {:induction false} FoldShrinks(rf: Reconciler, o: Outcome, keys: seq<Key>)
    ensures Fold(rf, o, keys).live <= o.live
  {
    if keys != [] {
      FoldShrinks(rf, o, keys[..|keys| - 1]);
    }
  }

  /** Facts that are dead by the time the walk reaches them leave the fold alone. */
  lemma FoldSkips(rf: Reconciler, o: Outcome, keys: seq<Key>, p: nat, mid: Outcome)
    requires p <= |keys| && mid == Fold(rf, o, keys[..p])
    requires forall m :: p <= m < |keys| ==> keys[m] !in mid.live
    ensures Fold(rf, o, keys) == mid
  {
    assert keys == keys[..p] + keys[p..];
    FoldAppend(rf, o, keys[..p], keys[p..]);
    FoldDead(rf, mid, keys[p..]);
  }

  lemma BelowIsMonotone(order: Facts, cursor: Option<Key>, m: nat)
    requires m < |order|
    ensures Below(order[m], cursor) <==> |Upto(order, cursor)| <= m
  {
    var p := Position(order, cursor, 0);
    assert p < m ==> Newer(order[p], order[m]);
  }

  lemma UptoMember(order: Facts, q: nat)
    requires q < |order|
    ensures Upto(order, Some(order[q])) == order[..q + 1]
  {
    BelowIsMonotone(order, Some(order[q]), q);
    if q + 1 < |order| {
      BelowIsMonotone(order, Some(order[q]), q + 1);
    }
  }

  lemma DeadInBetween(order: Facts, live: set<Key>, cursor: Option<Key>, q: nat)
    requires q < |order| && NextLive(order, live, cursor, order[q])
    ensures |Upto(order, cursor)| <= q
    ensures forall m :: |Upto(order, cursor)| <= m < q ==> order[m] !in live
  {
    BelowIsMonotone(order, cursor, q);
    forall m | |Upto(order, cursor)| <= m < q
      ensures order[m] !in live
    {
      BelowIsMonotone(order, cursor, m);
    }
  }

  lemma FoldOneMore(rf: Reconciler, o: Outcome, keys: seq<Key>, q: nat)
    requires q < |keys|
    ensures Fold(rf, o, keys[..q + 1]) == Visit(rf, Fold(rf, o, keys[..q]), keys[q])
  {
    assert keys[..q + 1][..q] == keys[..q];
  }

  /** Going from one fact to the next live one is one step of the fold. */
  lemma StepTo(rf: Reconciler, o: Outcome, order: Facts, cursor: Option<Key>, k: Key, mid: Outcome)
    requires mid == Fold(rf, o, Upto(order, cursor)) && NextLive(order, mid.live, cursor, k)
    ensures Fold(rf, o, Upto(order, Some(k))) == Visit(rf, mid, k)
  {
    var q :| 0 <= q < |order| && order[q] == k;
    var p := |Upto(order, cursor)|;
    DeadInBetween(order, mid.live, cursor, q);
    assert order[..q][..p] == Upto(order, cursor);
    FoldSkips(rf, o, order[..q], p, mid);
    FoldOneMore(rf, o, order, q);
    UptoMember(order, q);
  }

  /** The same, along a page fetched when `live` was live. */
  lemma PageFoldStep(rf: Reconciler, o: Outcome, order: Facts, live: set<Key>, cursor: Option<Key>,
                     page: seq<Key>, i: nat, mid: Outcome)
    requires i < |page| && Paged(order, live, cursor, page) && mid.live <= live
    requires mid == Fold(rf, o, Upto(order, Before(page, cursor, i)))
    ensures Visit(rf, mid, page[i]) == Fold(rf, o, Upto(order, Before(page, cursor, i + 1)))
    ensures Visit(rf, mid, page[i]).live <= live
  {
    NextLiveShrinks(order, live, mid.live, Before(page, cursor, i), page[i]);
    StepTo(rf, o, order, Before(page, cursor, i), page[i], mid);
  }

  /** With no live fact left below the cursor, the walk so far is the whole walk. */
  lemma WholeWalk(rf: Reconciler, o: Outcome, order: Facts, cursor: Option<Key>, mid: Outcome)
    requires mid == Fold(rf, o, Upto(order, cursor))
    requires forall k :: k in order && k in mid.live ==> !Below(k, cursor)
    ensures Fold(rf, o, order) == mid
  {
    var p := |Upto(order, cursor)|;
    forall m | p <= m < |order|
      ensures order[m] !in mid.live
    {
      BelowIsMonotone(order, cursor, m);
    }
    assert order[..p] == Upto(order, cursor);
    FoldSkips(rf, o, order, p, mid);
  }

  // ---- the termination measure --------------------------------------------------------------

  /** The cursor stayed, or moved down. */
  predicate Moved(cursor: Option<Key>, later: Option<Key>) {
    later == cursor || (later.Some? && Below(later.value, cursor))
  }

  /** Fewer live facts, or a later cursor, leave no more to walk. */
  lemma {:induction false} LessLeft(order: seq<Key>, live: set<Key>, live': set<Key>,
                                    cursor: Option<Key>, later: Option<Key>)
    requires live' <= live && Moved(cursor, later)
    ensures |LiveBelow(order, live', later)| <= |LiveBelow(order, live, cursor)|
  {
    if order != [] {
      var n := |order| - 1;
      LessLeft(order[..n], live, live', cursor, later);
      assert Below(order[n], later) ==> Below(order[n], cursor);
    }
  }

  /** A cursor at a live fact leaves strictly less. */
  lemma {:induction false} StrictlyLessLeft(order: seq<Key>, live: set<Key>, live': set<Key>,
                                            cursor: Option<Key>, k: Key)
    requires live' <= live && k in order && k in live && Below(k, cursor)
    ensures |LiveBelow(order, live', Some(k))| < |LiveBelow(order, live, cursor)|
  {
    var n := |order| - 1;
    if order[n] == k {
      LessLeft(order[..n], live, live', cursor, Some(k));
    } else {
      StrictlyLessLeft(order[..n], live, live', cursor, k);
      assert Below(order[n], Some(k)) ==> Below(order[n], cursor);
    }
  }
}
