/** The reconcile runner: pages of facts, commits that move data and cursor together, rollbacks,
    retries, budgets and crashes. `committed` is what the database holds, `working` what the open
    transaction sees, `st` the in-memory progress. Everything the environment decides (a lock held by
    live traffic, a timeout, a stop signal, a broken connection) is a nondeterministic choice. */
module Reconcile {
  import opened Options
  import opened ReconcileFold

  /** The watermark row of the namespace. */
  datatype Row = Row(cursor: Option<Key>, scanned: nat, deduped: nat, closed: nat, chunks: nat, finished: bool)

  /** What the rows of a namespace say besides which of them are live: source turns, counters, salience,
      time stamps, links. How they come out is left open; module ReconcileProvenance says how the source
      turns depend on where pages are cut. */
  type Contents = int

  datatype Db = Db(live: set<Key>, contents: Contents)

  datatype World = World(db: Db, row: Option<Row>)

  datatype Progress = Progress(cursor: Option<Key>, facts: nat, deduped: nat, closed: nat, commits: nat)

  /** What the current page has done since its last commit. */
  datatype Pending = Pending(n: nat, deduped: nat, closed: nat, last: Option<Key>)

  datatype Fault = Fine | Retryable | Fatal

  datatype Settings = Settings(restart: bool, limit: Option<int>, chunkSize: int, maxRetries: int, pause: int)

  datatype Status = Locked | Complete | Limit | Interrupted | Contention | Crashed

  datatype Report = Report(status: Status, progress: Progress, retries: nat, resumedFrom: Option<Key>)

  /** How many of the pages tried did not go through. */
  function Failures(pages: seq<bool>): nat {
    if pages == [] then 0
    else Failures(pages[..|pages| - 1]) + if pages[|pages| - 1] then 0 else 1
  }

  /** How many in a row at the end. */
  function FailuresInARow(pages: seq<bool>): nat {
    if pages == [] || pages[|pages| - 1] then 0 else FailuresInARow(pages[..|pages| - 1]) + 1
  }

  lemma {:induction false} InARowIs(pages: seq<bool>, n: nat)
    ensures n <= FailuresInARow(pages) <==> n <= |pages| && forall i :: |pages| - n <= i < |pages| ==> !pages[i]
  {
    if pages != [] && n > 0 {
      var init := pages[..|pages| - 1];
      InARowIs(init, n - 1);
      if n <= |pages| && !pages[|pages| - 1] {
        assert forall i :: |init| - (n - 1) <= i < |init| ==> init[i] == pages[i];
      }
    }
  }

  lemma OneMorePage(pages: seq<bool>, ok: bool)
    ensures Failures(pages + [ok]) == Failures(pages) + if ok then 0 else 1
    ensures FailuresInARow(pages + [ok]) == if ok then 0 else FailuresInARow(pages) + 1
  {
    assert (pages + [ok])[..|pages|] == pages;
  }

  /** `pages` says of each page tried whether it went through. The walk is given up for contention exactly
      when more than `maxRetries` in a row have not (one is enough if no retries are allowed); `retries`
      counts all that have not. */
  predicate GaveUpRightly(cfg: Settings, status: Status, retries: nat, pages: seq<bool>) {
    retries == Failures(pages) && (status == Contention <==> FailuresInARow(pages) > NonNegative(cfg.maxRetries))
  }

  const NEW_WALK := Row(None, 0, 0, 0, 0, false)

  const NOTHING := Progress(None, 0, 0, 0, 0)

  function AsOutcome(w: World): Outcome
    requires w.row.Some?
  {
    Outcome(w.db.live, w.row.value.deduped, w.row.value.closed)
  }

  function Min(a: int, b: int): int {
    if a < b then a else b
  }

  function NonNegative(n: int): nat {
    if n < 0 then 0 else n
  }

  class Runner {
    const rf: Reconciler
    /** Nothing goes wrong while an invocation runs, nobody asks it to stop, and it is in good time. */
    const calm: bool
    /** Every fact of the namespace, newest first. */
    const order: Facts
    var committed: World
    var working: World
    var st: Progress
    /** The facts that were live when the current walk started, and the row this invocation started from. */
    ghost var origin: set<Key>
    ghost var base: Row

    constructor (rf: Reconciler, order: Facts, db: Db, calm: bool)
      ensures Sound() && this.rf == rf && this.calm == calm && this.order == order && committed == World(db, None)
    {
      this.rf, this.calm := rf, calm;
      this.order := order;
      committed, working := World(db, None), World(db, None);
      st := NOTHING;
      origin := db.live;
      base := NEW_WALK;
    }

    /** The walk from `origin` over every fact at or above the cursor. */
    ghost function Walked(cursor: Option<Key>): Outcome
      reads this`origin
    {
      Fold(rf, Outcome(origin, 0, 0), Upto(order, cursor))
    }

    /** In every committed state the live facts are `origin` folded over exactly the facts at or above
        the stored cursor, and the row's totals are that fold's totals. */
    ghost predicate Sound()
      reads this`committed, this`origin
    {
      committed.row.Some? ==> AsOutcome(committed) == Walked(committed.row.value.cursor)
    }

    /** In-memory progress is what this invocation has committed. */
    ghost predicate Tallies()
      requires committed.row.Some?
      reads this`committed, this`st, this`base
    {
      var r := committed.row.value;
      && st.cursor == r.cursor && r.scanned == base.scanned + st.facts && r.chunks == base.chunks + st.commits
      && r.deduped == base.deduped + st.deduped && r.closed == base.closed + st.closed
    }

    ghost predicate Agrees()
      reads this`committed, this`st, this`base
    {
      Underway() && Tallies()
    }

    /** A walk has been started and not finished. */
    predicate Underway()
      reads this`committed
    {
      committed.row.Some? && !committed.row.value.finished
    }

    ghost predicate Running()
      reads this
    {
      Sound() && Agrees() && working == committed
    }

    /** Live facts still below the committed cursor. */
    ghost function Left(): nat
      requires committed.row.Some?
      reads this`committed
    {
      |LiveBelow(order, committed.db.live, committed.row.value.cursor)|
    }

    /** No live fact is left below the committed cursor. */
    ghost predicate AllWalked()
      requires committed.row.Some?
      reads this`committed
    {
      forall k :: k in order && k in committed.db.live ==> !Below(k, committed.row.value.cursor)
    }

    ghost predicate NothingLive()
      reads this`committed
    {
      forall k :: k in order ==> k !in committed.db.live
    }

    /** The walk from `d` is recorded as done. It left no live fact behind exactly if `walked`, and then it
        is the whole walk. */
    ghost predicate Ended(d: set<Key>, walked: bool)
      reads this`committed
    {
      committed.row.Some? && !Underway() && (AllWalked() <==> walked) && (AllWalked() ==> Whole(d))
    }

    /** The walk has been recorded as done since the state was `before`. */
    ghost predicate FinishedNow(before: World)
      reads this`committed
    {
      committed != before && !Underway()
    }

    /** Where the page has got to. */
    function Reached(pend: Pending): Option<Key>
      reads this`st
    {
      if pend.n > 0 then pend.last else st.cursor
    }

    /** The whole walk from `d` is done and recorded as done. */
    ghost predicate Whole(d: set<Key>)
      reads this`committed
    {
      && committed.row.Some? && committed.row.value.finished
      && AsOutcome(committed) == Fold(rf, Outcome(d, 0, 0), order)
    }

    /** Where the walk under way started, or where the next one will. */
    ghost function WalkOrigin(): set<Key>
      reads this`committed, this`origin
    {
      if Underway() then origin else committed.db.live
    }

    /** The page has reached `cursor`, and nothing is uncommitted. */
    ghost predicate At(pend: Pending, cursor: Option<Key>)
      reads this
    {
      && Running() && pend == Pending(pend.n, 0, 0, pend.last)
      && cursor == Reached(pend) && AsOutcome(committed) == Walked(cursor)
    }

    ghost function Entry(pend: Pending): Row
      requires committed.row.Some?
      reads this`committed
    {
      var r := committed.row.value;
      r.(cursor := pend.last, scanned := r.scanned + pend.n, deduped := r.deduped + pend.deduped,
         closed := r.closed + pend.closed, chunks := r.chunks + 1)
    }

    /** What comes of a query, a write or a commit: in a calm environment it goes through. */
    function Met(f: Fault): Fault {
      if calm then Fine else f
    }

    method Rollback()
      modifies this`working
      ensures working == committed
    {
      working := committed;
    }

    /** The inner `commit` of the page walk. */
    method Commit(pend: Pending) returns (fault: Fault, next: Pending)
      requires Sound() && Agrees() && working.row == committed.row && working.db.live <= committed.db.live
      requires pend.n > 0 ==> Walked(pend.last) == AsOutcome(World(working.db, Some(Entry(pend))))
      requires pend.n == 0 ==> pend == Pending(0, 0, 0, pend.last)
      modifies this`committed, this`working, this`st
      ensures Sound() && (fault != Fatal ==> Agrees())
      ensures committed == old(committed) ||
              (pend.n > 0 && committed == World(old(working).db, Some(old(Entry(pend)))))
      ensures fault.Fine? ==> Running() && next == Pending(0, 0, 0, next.last)
      ensures fault.Fine? ==> st.facts == old(st).facts + pend.n
      ensures fault.Fine? ==> st.cursor == if pend.n > 0 then pend.last else old(st).cursor
      ensures fault != Fine ==> st == old(st) && (fault.Retryable? ==> committed == old(committed))
      ensures calm ==> fault.Fine?
    {
      fault, next := Fine, pend;
      if pend.n == 0 {
        Rollback();
        return;
      }
      fault := *;
      fault := Met(fault);
      if fault.Retryable? {
        return;
      }
      var r := working.row.value;
      working := working.(row := Some(r.(cursor := pend.last, scanned := r.scanned + pend.n,
        deduped := r.deduped + pend.deduped, closed := r.closed + pend.closed, chunks := r.chunks + 1)));
      if fault.Fatal? {
        // the connection broke around COMMIT: the transaction may or may not have landed
        if * { committed := working; }
        return;
      }
      committed := working;
      st := Progress(pend.last, st.facts + pend.n, st.deduped + pend.deduped, st.closed + pend.closed,
        st.commits + 1);
      next := Pending(0, 0, 0, pend.last);
    }

    /** One fact of a page. On entry and on a normal return nothing is uncommitted, so the open
        transaction never holds the writes of more than this one fact. */
    method WalkFact(f: Key, pend: Pending, ghost reached: Option<Key>) returns (fault: Fault, next: Pending)
      requires At(pend, reached) && NextLive(order, committed.db.live, reached, f)
      modifies this`committed, this`working, this`st
      ensures Sound() && (fault != Fatal ==> Agrees())
      ensures Underway() && committed.db.live <= old(committed).db.live
      ensures committed == old(committed) ||
              (committed.row.value.cursor == Some(f) &&
               committed.row.value.scanned == old(committed).row.value.scanned + pend.n + 1)
      ensures fault.Fine? ==> At(next, Some(f)) && st.facts + next.n == old(st).facts + pend.n + 1
      ensures fault.Fine? && next.n > 0 ==> committed == old(committed) && st == old(st)
      ensures fault != Fine ==> st == old(st) && (fault.Retryable? ==> committed == old(committed))
      ensures calm ==> fault.Fine?
    {
      StepTo(rf, Outcome(origin, 0, 0), order, reached, f, AsOutcome(committed));
      next := Pending(pend.n + 1, pend.deduped, pend.closed, Some(f));
      fault := *;                                  // the liveness query
      fault := Met(fault);
      if fault.Fine? && f in working.db.live {
        var e := rf(working.db.live, f);
        fault := *;                                  // somewhere in the middle of its writes
        fault := Met(fault);
        if !fault.Fine? {
          working := *;
          return;
        }
        if e.deduped > 0 || e.closed > 0 {
          var contents: Contents := *;
          working := working.(db := Db(e.live, contents));
        }
        next := next.(deduped := next.deduped + e.deduped, closed := next.closed + e.closed);
        if e.deduped > 0 || e.closed > 0 {
          fault, next := Commit(next);
        }
      }
    }

    /** The facts are `live` at most, and the cursor has not moved up. */
    ghost predicate Later(live: set<Key>, cursor: Option<Key>)
      reads this`committed
    {
      && Underway()
      && committed.db.live <= live && Moved(cursor, committed.row.value.cursor)
    }

    /** The loop of a page, over the facts it fetched. */
    method WalkFacts(page: seq<Key>) returns (fault: Fault, walked: nat, pend: Pending)
      requires Running() && page != [] && Paged(order, committed.db.live, st.cursor, page)
      modifies this`committed, this`working, this`st
      ensures Sound() && (fault != Fatal ==> Agrees())
      ensures Later(old(committed).db.live, old(st).cursor)
      ensures old(st).facts <= st.facts && st.facts + pend.n == old(st).facts + walked && walked <= |page|
      ensures committed.row.value.scanned <= old(committed).row.value.scanned + |page|
      ensures fault.Fine? ==> walked > 0 && At(pend, Some(page[walked - 1]))
      ensures calm ==> fault.Fine? && walked == |page|
    {
      ghost var cursor, live := st.cursor, committed.db.live;
      fault, walked, pend := Fine, 0, Pending(0, 0, 0, None);
      while walked < |page|
        invariant walked <= |page| && fault.Fine? && At(pend, Before(page, cursor, walked))
        invariant st.facts + pend.n == old(st).facts + walked && old(st).facts <= st.facts
        invariant Later(live, cursor)
      {
        var late: bool := *;                       // the stop flag, or the time budget
        if walked > 0 && late && !calm {
          break;
        }
        NextLiveShrinks(order, live, committed.db.live, Before(page, cursor, walked), page[walked]);
        var next;
        fault, next := WalkFact(page[walked], pend, Before(page, cursor, walked));
        if !fault.Fine? {
          return;
        }
        walked, pend := walked + 1, next;
      }
    }

    /** The next page after the committed cursor. */
    method WalkPage(want: int) returns (fault: Fault, walked: nat)
      requires Running()
      modifies this`committed, this`working, this`st
      ensures Sound() && (fault != Fatal ==> Agrees())
      ensures Underway() && Left() <= old(Left())
      ensures old(st).facts <= st.facts <= old(st).facts + NonNegative(want)
      ensures committed.row.value.scanned <= old(committed).row.value.scanned + NonNegative(want)
      ensures fault.Fine? ==> Running() && walked <= want && st.facts == old(st).facts + walked
      ensures fault.Fine? && walked > 0 ==> Left() < old(Left())
      ensures want <= 0 ==> committed == old(committed)
      ensures fault.Fine? && walked == 0 ==> committed == old(committed) && st == old(st)
      ensures fault.Fine? && walked == 0 && want > 0 ==> AllWalked()
      ensures want < 0 ==> fault != Fine
      ensures calm && want >= 0 ==> fault.Fine? && walked == |Page(order, old(committed).db.live, old(st).cursor, want)|
    {
      walked := 0;
      fault := *;                                  // the page query
      fault := Met(fault);
      if want < 0 {
        fault := Fatal;                            // a negative LIMIT is an error
      }
      if !fault.Fine? {
        return;
      }
      ghost var cursor, live := st.cursor, committed.db.live;
      var page := Page(order, working.db.live, st.cursor, want);
      if page == [] {
        EmptyPageIff(order, live, cursor, want);
        Rollback();
        return;
      }
      fault := *;                                  // the embeddings query
      fault := Met(fault);
      if !fault.Fine? {
        return;
      }
      PagesFollowOn(order, live, cursor, want);
      PageFits(order, live, cursor, want);
      var pend;
      fault, walked, pend := WalkFacts(page);
      if fault.Fine? {
        PageHas(order, live, cursor, want, walked - 1);
        fault, pend := Commit(pend);
        if fault.Fine? {
          StrictlyLessLeft(order, live, committed.db.live, cursor, page[walked - 1]);
        }
      }
      LessLeft(order, live, committed.db.live, cursor, committed.row.value.cursor);
    }

    /** Resume an unfinished walk, or reset the row to start one from the newest fact. */
    method StartOrResume(restart: bool) returns (fault: Fault)
      requires Sound() && working == committed
      modifies this`committed, this`working, this`origin
      ensures Sound()
      ensures fault.Fine? ==> working == committed && Underway()
      ensures WalkOrigin() == old(WalkOrigin()) || (restart && WalkOrigin() == committed.db.live)
      ensures committed.db == old(committed).db && (committed == old(committed) || committed.row == Some(NEW_WALK))
      ensures !restart && old(Underway()) ==> committed == old(committed)
      ensures fault.Fine? && (restart || !old(Underway())) ==>
        committed.row == Some(Row(None, 0, 0, 0, 0, false)) && WalkOrigin() == committed.db.live
      ensures calm ==> fault.Fine?
    {
      var anew := restart || !Underway();
      fault := *;                                  // reading the row
      fault := Met(fault);
      if fault.Fine? && anew {
        working := working.(row := Some(NEW_WALK));
        fault := *;                                  // the upsert and its commit
        fault := Met(fault);
        var landed: bool := *;
        if fault.Fine? || (fault.Fatal? && landed) {
          committed := working;
          origin := committed.db.live;
        }
      }
    }


    /** The last step of a walk: the row is marked finished. */
    method Finish() returns (fault: Fault)
      requires Running()
      modifies this`committed, this`working
      ensures Sound() && working == committed && committed.row.Some? && Tallies()
      ensures committed == old(committed) || committed == World(old(committed).db,
                Some(old(committed).row.value.(finished := true)))
      ensures fault.Fine? ==> committed.row.value.finished
      ensures calm ==> fault.Fine?
    {
      working := working.(row := Some(working.row.value.(finished := true)));
      fault := *;
      fault := Met(fault);
      var landed: bool := *;
      if fault.Fine? || (fault.Fatal? && landed) {
        committed := working;
      }
      Rollback();
    }

    /** One page, and the rollback after it, which has nothing to undo if the page went through. */
    method TryPage(cfg: Settings, want: int) returns (fault: Fault, walked: nat)
      requires Running() && (cfg.limit.Some? ==> st.facts < cfg.limit.value)
      requires want == if cfg.limit.Some? then Min(cfg.chunkSize, cfg.limit.value - st.facts) else cfg.chunkSize
      modifies this`committed, this`working, this`st
      ensures Sound() && working == committed && Underway() && (fault != Fatal ==> Tallies())
      ensures Left() <= old(Left()) && (fault.Fine? && walked > 0 ==> Left() < old(Left()))
      ensures cfg.limit.Some? ==> st.facts <= cfg.limit.value
      ensures cfg.limit.Some? ==> committed.row.value.scanned - base.scanned <= cfg.limit.value
      ensures cfg.chunkSize == 0 ==> committed == old(committed)
      ensures fault.Fine? && walked == 0 ==> st == old(st) && (AllWalked() <==> cfg.chunkSize != 0 || old(AllWalked()))
      ensures calm && cfg.chunkSize >= 0 ==> fault.Fine?
    {
      fault, walked := WalkPage(want);
      Rollback();
    }

    /** The end of the walk: with no live fact left below the cursor it has been the whole one. */
    method End() returns (fault: Fault)
      requires Running()
      modifies this`committed, this`working
      ensures Sound() && working == committed && committed.row.Some? && Tallies() && committed.db == old(committed).db
      ensures !Underway() ==> Ended(origin, old(AllWalked()))
      ensures fault.Fine? ==> !Underway()
      ensures committed.row.value.scanned == old(committed).row.value.scanned
      ensures calm ==> fault.Fine?
    {
      if AllWalked() {
        WholeWalk(rf, Outcome(origin, 0, 0), order, st.cursor, AsOutcome(committed));
      }
      fault := Finish();
    }

    /** The retry loop of an invocation, up to the page that finds nothing more to walk (`over`) or to what
        ends the invocation before. */
    method Turns(cfg: Settings) returns (over: bool, status: Status, retries: nat, ghost pages: seq<bool>)
      requires Running() && st == NOTHING.(cursor := st.cursor)
      modifies this`committed, this`working, this`st
      ensures Sound() && working == committed && Underway() && (status != Crashed ==> Tallies())
      ensures cfg.chunkSize == 0 ==> committed == old(committed)
      ensures over ==> status == Interrupted && (AllWalked() <==> cfg.chunkSize != 0 || old(AllWalked()))
      ensures over && cfg.limit.Some? ==> st.facts < cfg.limit.value
      ensures cfg.limit.Some? ==> committed.row.value.scanned - base.scanned <= NonNegative(cfg.limit.value)
      ensures status == Limit ==> cfg.limit.Some? && st.facts >= cfg.limit.value
      ensures status in {Interrupted, Limit, Contention, Crashed}
      ensures GaveUpRightly(cfg, status, retries, pages)
      ensures calm && cfg.chunkSize >= 0 ==> over || status == Limit
    {
      over, status, retries, pages := false, Interrupted, 0, [];
      var attempt := 0;
      while true
        invariant Running() && attempt <= NonNegative(cfg.maxRetries) && status == Interrupted && !over
        invariant retries == Failures(pages) && attempt == FailuresInARow(pages)
        invariant cfg.chunkSize == 0 ==> committed == old(committed)
        invariant cfg.limit.Some? ==> st.facts <= NonNegative(cfg.limit.value)
        decreases Left(), cfg.maxRetries + 1 - attempt
      {
        var stop: bool := *;
        if stop && !calm {
          break;
        }
        if cfg.limit.Some? && st.facts >= cfg.limit.value {
          status := Limit;
          break;
        }
        var want := if cfg.limit.Some? then Min(cfg.chunkSize, cfg.limit.value - st.facts) else cfg.chunkSize;
        var fault, walked := TryPage(cfg, want);
        if fault.Fatal? {
          status := Crashed;
          break;
        }
        OneMorePage(pages, fault.Fine?);
        pages := pages + [fault.Fine?];
        var woken: bool := *;
        if fault.Retryable? {
          attempt, retries := attempt + 1, retries + 1;
          if attempt > cfg.maxRetries {
            status := Contention;
            break;
          }
          if woken && !calm {
            break;
          }
        } else if walked == 0 {
          over := true;
          break;
        } else {
          attempt := 0;
          if cfg.pause > 0 && woken && !calm {
            break;
          }
        }
      }
    }

    /** The retry loop, and the end of the walk if it gets there. */
    method Loop(cfg: Settings) returns (status: Status, retries: nat, ghost pages: seq<bool>)
      requires Running() && st == NOTHING.(cursor := st.cursor)
      modifies this`committed, this`working, this`st
      ensures Sound() && working == committed && committed.row.Some?
      ensures status != Locked && (status != Crashed ==> Tallies() && (Underway() || status == Complete))
      ensures !Underway() ==> Ended(origin, cfg.chunkSize != 0 || old(AllWalked()))
      ensures cfg.chunkSize == 0 ==> committed.db == old(committed).db
      ensures status == Complete ==> !Underway()
      ensures cfg.limit.Some? ==>
        committed.row.value.scanned - base.scanned <= NonNegative(cfg.limit.value)
      ensures status == Limit ==> cfg.limit.Some? && st.facts >= cfg.limit.value
      ensures GaveUpRightly(cfg, status, retries, pages)
      ensures status == Complete ==> (cfg.limit.Some? ==> st.facts < cfg.limit.value)
      ensures calm && cfg.chunkSize >= 0 ==> status == Complete || status == Limit
    {
      var over;
      over, status, retries, pages := Turns(cfg);
      if over {
        var fault := End();
        status := if fault.Fine? then Complete else Crashed;
      }
    }

    /** A connection of its own, the row, and no progress yet. */
    method Begin(restart: bool) returns (fault: Fault)
      requires Sound()
      modifies this
      ensures Sound() && working == committed && committed.db == old(committed).db
      ensures WalkOrigin() == old(WalkOrigin()) || (restart && WalkOrigin() == old(committed).db.live)
      ensures committed == old(committed) || Underway()
      ensures fault.Fine? ==> Running() && st == NOTHING.(cursor := base.cursor) && base == committed.row.value
      ensures fault.Fine? ==> WalkOrigin() == if restart then old(committed).db.live else old(WalkOrigin())
      ensures old(Underway()) && !restart ==> committed == old(committed)
      ensures fault.Fine? && !(old(Underway()) && !restart) ==> base == NEW_WALK
      ensures calm ==> fault.Fine?
    {
      Rollback();
      fault := StartOrResume(restart);
      if fault.Fine? {
        base := committed.row.value;
        st := NOTHING.(cursor := committed.row.value.cursor);
      } else {
        Rollback();
      }
    }

    /** One invocation. */
    method Run(cfg: Settings) returns (r: Report, ghost pages: seq<bool>)
      requires Sound()
      modifies this
      ensures Sound() && working == committed
      ensures r.status == Locked ==> committed == old(committed) && r.progress == NOTHING
      ensures if r.status == Complete || FinishedNow(old(committed))
        then Ended(if cfg.restart then old(committed).db.live else old(WalkOrigin()), cfg.chunkSize != 0 ||
                   if old(Underway()) && !cfg.restart then old(AllWalked()) else old(NothingLive()))
        else WalkOrigin() == old(WalkOrigin()) || (cfg.restart && WalkOrigin() == old(committed).db.live)
      ensures cfg.chunkSize == 0 ==> committed.db == old(committed).db
      ensures r.status != Locked && r.status != Crashed ==>
        && committed.row.Some? && r.progress == st && Tallies() && (Underway() || r.status == Complete)
        && base == if old(Underway()) && !cfg.restart then old(committed).row.value else NEW_WALK
      ensures cfg.limit.Some? ==> r.progress.facts <= NonNegative(cfg.limit.value)
      ensures cfg.limit.Some? && committed.row.Some? && !cfg.restart && old(Underway()) ==>
        committed.row.value.scanned <= old(committed).row.value.scanned + NonNegative(cfg.limit.value)
      ensures r.status == Limit ==> cfg.limit.Some? && r.progress.facts >= cfg.limit.value
      ensures GaveUpRightly(cfg, r.status, r.retries, pages)
      ensures r.status != Locked && r.status != Crashed ==>
        r.resumedFrom == if old(Underway()) && !cfg.restart then old(committed).row.value.cursor else None
      ensures r.status == Complete ==> (cfg.limit.Some? ==> r.progress.facts < cfg.limit.value)
      ensures calm && cfg.chunkSize >= 0 ==> r.status == Complete || r.status == Limit
    {
      r, pages := Report(Locked, NOTHING, 0, None), [];
      var taken: bool := *;
      if taken && !calm {
        Rollback();
        return;
      }
      var fault := Begin(cfg.restart);
      if !fault.Fine? {
        return r.(status := Crashed), pages;
      }
      var resumedFrom := st.cursor;
      var status, retries;
      status, retries, pages := Loop(cfg);
      r := Report(status, if status == Crashed then NOTHING else st, retries, resumedFrom);
    }

    /** Any schedule of invocations, cut short however the environment likes, restarts included, on a
        namespace that may have been walked before. `lives[k]` are the facts live when invocation k began,
        and `from` those live where the last walk began: where the first one did, or as some restart found
        them. */
    method RunUntilDone(runs: seq<Settings>) returns (done: bool, ghost lives: seq<set<Key>>, ghost from: set<Key>)
      requires Sound()
      modifies this
      ensures |lives| <= |runs| && (lives != [] ==> lives[0] == old(committed).db.live)
      ensures from == old(WalkOrigin()) || exists k :: 0 <= k < |lives| && runs[k].restart && from == lives[k]
      ensures done ==> lives != [] && (runs[|lives| - 1].restart ==> from == lives[|lives| - 1])
      ensures done ==> committed.row.Some? && (AllWalked() ==> Whole(from))
      ensures done && runs[|lives| - 1].chunkSize != 0 ==> Whole(from)
      ensures !done ==> |lives| == |runs| && WalkOrigin() == from
    {
      done, lives, from := false, [], WalkOrigin();
      ghost var start := from;
      var i := 0;
      while i < |runs| && !done
        invariant i == |lives| <= |runs| && (i == 0 ==> committed == old(committed))
        invariant i > 0 ==> lives[0] == old(committed).db.live
        invariant Sound()
        invariant from == start || exists k :: 0 <= k < |lives| && runs[k].restart && from == lives[k]
        invariant !done ==> WalkOrigin() == from
        invariant done ==> i > 0 && committed.row.Some? && (runs[i - 1].restart ==> from == lives[i - 1])
        invariant done && (runs[i - 1].chunkSize != 0 || AllWalked()) ==> Whole(from)
      {
        var world := committed;
        var r, _ := Run(runs[i]);
        done := r.status == Complete ||
                (committed != world && committed.row.Some? && committed.row.value.finished);
        lives := lives + [world.db.live];
        from := if done && runs[i].restart then world.db.live else if done then from else WalkOrigin();
        assert runs[i].restart ==> lives[i] == world.db.live;
        i := i + 1;
      }
    }
  }

  /** The single-transaction form behind a dry run, which the caller rolls back: it writes to a view of
      the database only. A failing query ends it. */
  method ReconcileNamespace(rf: Reconciler, order: Facts, live: set<Key>, limit: Option<int>, pageSize: int)
    returns (fault: Fault, out: Outcome, scanned: nat)
    ensures exists cursor :: out == Fold(rf, Outcome(live, 0, 0), Upto(order, cursor))
    ensures limit.Some? ==> scanned <= NonNegative(limit.value)
    ensures fault.Fine? && pageSize != 0 && (limit.None? || scanned < limit.value) ==>
      out == Fold(rf, Outcome(live, 0, 0), order)
  {
    var cursor: Option<Key> := None;
    fault, out, scanned := Fine, Outcome(live, 0, 0), 0;
    UptoNone(order);
    while limit.None? || scanned < limit.value
      invariant limit.Some? ==> scanned <= NonNegative(limit.value)
      invariant fault.Fine? && out == Fold(rf, Outcome(live, 0, 0), Upto(order, cursor))
      decreases |LiveBelow(order, out.live, cursor)|
    {
      var want := if limit.None? then pageSize else Min(pageSize, limit.value - scanned);
      fault := *;
      if want < 0 {
        fault := Fatal;
      }
      if !fault.Fine? {
        return;
      }
      var page := Page(order, out.live, cursor, want);
      if page == [] {
        EmptyPageIff(order, out.live, cursor, want);
        if pageSize >= 1 {
          WholeWalk(rf, Outcome(live, 0, 0), order, cursor, out);
        }
        return;
      }
      PagesFollowOn(order, out.live, cursor, want);
      PageIsNextLiveFacts(order, out.live, cursor, want);
      ghost var last, before, from := page[|page| - 1], out.live, cursor;
      assert last in page;
      scanned, out, cursor := VisitPage(rf, order, Outcome(live, 0, 0), cursor, out, page, scanned);
      StrictlyLessLeft(order, before, out.live, from, last);
    }
  }

  /** The liveness check and the reconcile of one fact. */
  method VisitFact(rf: Reconciler, o: Outcome, f: Key) returns (out: Outcome)
    ensures out == Visit(rf, o, f)
  {
    out := o;
    if f in o.live {
      var e := rf(o.live, f);
      out := Outcome(e.live, out.deduped + e.deduped, out.closed + e.closed);
    }
  }

  /** The inner loop: every fact of one page. */
  method VisitPage(rf: Reconciler, order: Facts, start: Outcome, from: Option<Key>, o: Outcome,
                   page: seq<Key>, seen: nat)
    returns (scanned: nat, out: Outcome, cursor: Option<Key>)
    requires o == Fold(rf, start, Upto(order, from)) && page != [] && Paged(order, o.live, from, page)
    ensures scanned == seen + |page| && cursor == Some(page[|page| - 1])
    ensures out == Fold(rf, start, Upto(order, cursor)) && out.live <= o.live
  {
    out, cursor, scanned := o, from, seen;
    var i := 0;
    while i < |page|
      invariant i <= |page| && scanned == seen + i && cursor == Before(page, from, i)
      invariant out == Fold(rf, start, Upto(order, cursor)) && out.live <= o.live
    {
      PageFoldStep(rf, start, order, o.live, from, page, i, out);
      scanned, cursor := scanned + 1, Some(page[i]);
      out := VisitFact(rf, out, page[i]);
      i := i + 1;
    }
  }

  lemma UptoNone(order: Facts)
    ensures Upto(order, None) == []
  {
  }
}
