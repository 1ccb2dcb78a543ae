/** The queue's promises over whole runs: any number of drainers on distinct pids, crashing
    anywhere, enqueues and the clock in between. */
module QueueTheorems {
  import opened QueueState
  import opened QueueSteps
  import opened QueueFiles
  import opened QueueSafety

  lemma {:induction false} RunsKeepFiles(start: Queue, labels: seq<Label>, states: seq<Queue>, i: nat)
    requires IsRun(start, labels, states) && FilesSound(start) && i <= |labels|
    ensures FilesSound(states[i])
  {
    if i > 0 {
      RunsKeepFiles(start, labels, states, i - 1);
      NextKeepsFiles(states[i - 1], labels[i - 1]);
    }
  }

  lemma {:induction false} RunsKeepBounded(now: int, labels: seq<Label>, states: seq<Queue>, i: nat, b: Base)
    requires IsRun(Empty(now), labels, states) && i <= |labels|
    ensures Bounded(states[i], b)
  {
    if i == 0 {
      assert Detached(Empty(now), b) == {};
    } else {
      RunsKeepBounded(now, labels, states, i - 1, b);
      RunsKeepFiles(Empty(now), labels, states, i - 1);
      NextKeepsBounded(states[i - 1], labels[i - 1], b);
    }
  }

  // ---- conservation ---------------------------------------------------------------------

  /** An enqueued readable item is exactly one file with its content unchanged, until a POST of it
      has been accepted; then it is at most one. */
  lemma ItemsAreConserved(now: int, labels: seq<Label>, states: seq<Queue>, i: nat, b: Base)
    requires IsRun(Empty(now), labels, states) && i <= |labels|
    requires b in states[i].entered && states[i].entered[b].Readable?
    ensures var s := states[i];
            && (AccountOf(s, b).accepted == 0 ==> exists n :: n in s.dir && n.base == b)
            && (forall m, n :: m in s.dir && n in s.dir && m.base == b && n.base == b ==> m == n)
            && (forall n :: n in s.dir && n.base == b ==> s.dir[n].content == s.entered[b])
  {
    RunsKeepFiles(Empty(now), labels, states, i);
    if AccountOf(states[i], b).accepted == 0 {
      assert HasFile(states[i].dir, b);
    }
  }

  /** Whatever rename a drainer is about to make, its target name is free: claims, releases,
      rejections and reclaims never overwrite another file. */
  lemma RenamesReplaceNothing(now: int, labels: seq<Label>, states: seq<Queue>, i: nat, n: Name, to: Name)
    requires IsRun(Empty(now), labels, states) && i <= |labels|
    requires n in states[i].dir && n.base == to.base && n != to
    ensures to !in states[i].dir
  {
    RunsKeepFiles(Empty(now), labels, states, i);
  }

  // ---- duplicates -----------------------------------------------------------------------

  /** The server commits an item at most once, plus once for every sweep that took a claim whose POST
      was under way or done, plus once for every committed POST whose answer was lost. */
  lemma DuplicatesAreAccountedFor(now: int, labels: seq<Label>, states: seq<Queue>, i: nat, b: Base)
    requires IsRun(Empty(now), labels, states) && i <= |labels|
    ensures var a := AccountOf(states[i], b);
            && a.accepted <= 1 + a.doubled + a.lost
            && a.accepted <= 1 + a.reclaimed + a.lost
  {
    RunsKeepBounded(now, labels, states, i, b);
  }

  /** Nobody crashes, and no claim that its owner has stamped reaches the stale age. */
  ghost predicate Timely(s: Queue, l: Label) {
    match l
    case Do(_, a) => !a.Crash?
    case Wait(seconds) =>
      forall b, q :: Claim(b, q) in s.dir && q in s.drainers && PastStamp(s.drainers[q], b) ==>
        s.now + seconds < s.dir[Claim(b, q)].mtime + STALE_CLAIM_AGE
    case _ => true
  }

  /** A sweep renames only a claim that still passes its age test. */
  ghost predicate AtomicSteal(s: Queue, l: Label) {
    l.Do? && l.a.SweepSteal? && l.p in s.drainers && s.drainers[l.p].Stealing? ==>
      var d := s.drainers[l.p];
      d.victim in s.dir ==> d.since - s.dir[d.victim].mtime >= STALE_CLAIM_AGE
  }

  /** Every claim has its owner, and a stamped one is young. */
  ghost predicate ClaimsOwned(s: Queue) {
    forall b, q :: Claim(b, q) in s.dir ==>
      && q in s.drainers && Holding(s.drainers[q], b)
      && (PastStamp(s.drainers[q], b) ==> s.now < s.dir[Claim(b, q)].mtime + STALE_CLAIM_AGE)
  }

  ghost predicate NoneDoubled(s: Queue) {
    forall b :: b in s.ledger ==> s.ledger[b].doubled == 0
  }

  lemma StealIsHarmless(s: Queue, p: nat, d: Drainer)
    requires FilesSound(s) && ClaimsOwned(s) && NoneDoubled(s) && p in s.drainers && d == s.drainers[p]
    requires AtomicSteal(s, Do(p, SweepSteal))
    ensures ClaimsOwned(SweepStealStep(s, p, d)) && NoneDoubled(SweepStealStep(s, p, d))
  {
    if d.Stealing? && d.victim in s.dir {
      assert Claim(d.victim.base, d.victim.pid) in s.dir;
      assert DrainerSound(s, p, d);
    }
  }

  lemma SweepKeepsClaimsOwned(s: Queue, p: nat, a: Action)
    requires FilesSound(s) && ClaimsOwned(s) && NoneDoubled(s)
    requires a.Start? || a.SweepTest? || a.SweepEnd? || a.Read? || a.Stop?
    ensures ClaimsOwned(DrainerStep(s, p, a)) && NoneDoubled(DrainerStep(s, p, a))
  {
  }

  lemma ClaimKeepsClaimsOwned(s: Queue, p: nat, d: Drainer)
    requires FilesSound(s) && ClaimsOwned(s) && NoneDoubled(s) && p in s.drainers && d == s.drainers[p]
    ensures ClaimsOwned(ClaimStep(s, p, d)) && NoneDoubled(ClaimStep(s, p, d))
  {
  }

  lemma StampKeepsClaimsOwned(s: Queue, p: nat, d: Drainer)
    requires FilesSound(s) && ClaimsOwned(s) && NoneDoubled(s) && p in s.drainers && d == s.drainers[p]
    ensures ClaimsOwned(StampStep(s, p, d)) && NoneDoubled(StampStep(s, p, d))
  {
  }

  lemma PostKeepsClaimsOwned(s: Queue, p: nat, d: Drainer, reply: Reply)
    requires FilesSound(s) && ClaimsOwned(s) && NoneDoubled(s) && p in s.drainers && d == s.drainers[p]
    ensures ClaimsOwned(PostStep(s, p, d, reply)) && NoneDoubled(PostStep(s, p, d, reply))
  {
  }

  lemma DisposalKeepsClaimsOwned(s: Queue, p: nat, a: Action)
    requires FilesSound(s) && ClaimsOwned(s) && NoneDoubled(s)
    requires a.Drop? || a.Remove? || a.Release? || a.Reject?
    ensures ClaimsOwned(DrainerStep(s, p, a)) && NoneDoubled(DrainerStep(s, p, a))
  {
  }

  lemma NextKeepsClaimsOwned(s: Queue, l: Label)
    requires FilesSound(s) && ClaimsOwned(s) && NoneDoubled(s) && Timely(s, l) && AtomicSteal(s, l)
    ensures ClaimsOwned(Next(s, l)) && NoneDoubled(Next(s, l))
  {
    match l
    case Enqueue(_, _) | Wait(_) =>
    case Do(p, a) =>
      if p in s.drainers {
        match a
        case SweepSteal => StealIsHarmless(s, p, s.drainers[p]);
        case ClaimNext => ClaimKeepsClaimsOwned(s, p, s.drainers[p]);
        case Stamp => StampKeepsClaimsOwned(s, p, s.drainers[p]);
        case Post(reply) => PostKeepsClaimsOwned(s, p, s.drainers[p], reply);
        case Drop | Remove | Release | Reject => DisposalKeepsClaimsOwned(s, p, a);
        case _ => SweepKeepsClaimsOwned(s, p, a);
      }
  }

  ghost predicate TimelyRun(labels: seq<Label>, states: seq<Queue>)
    requires |states| == |labels| + 1
  {
    forall i {:trigger labels[i]} :: 0 <= i < |labels| ==> Timely(states[i], labels[i])
  }

  ghost predicate AtomicRun(labels: seq<Label>, states: seq<Queue>)
    requires |states| == |labels| + 1
  {
    forall i {:trigger labels[i]} :: 0 <= i < |labels| ==> AtomicSteal(states[i], labels[i])
  }

  lemma {:induction false} TimelyRunsKeepClaimsOwned(now: int, labels: seq<Label>, states: seq<Queue>, i: nat)
    requires IsRun(Empty(now), labels, states) && i <= |labels|
    requires TimelyRun(labels, states) && AtomicRun(labels, states)
    ensures ClaimsOwned(states[i]) && NoneDoubled(states[i])
  {
    if i > 0 {
      TimelyRunsKeepClaimsOwned(now, labels, states, i - 1);
      RunsKeepFiles(Empty(now), labels, states, i - 1);
      NextKeepsClaimsOwned(states[i - 1], labels[i - 1]);
    }
  }

  /** When owners finish with a stamped claim before it is stale, nobody crashes and the sweep tests
      and renames at once, an item is committed at most once unless an answer was lost, although
      renaming a claim and stamping it are two steps. */
  lemma TimelyRunsSendOnce(now: int, labels: seq<Label>, states: seq<Queue>, i: nat, b: Base)
    requires IsRun(Empty(now), labels, states) && i <= |labels|
    requires TimelyRun(labels, states) && AtomicRun(labels, states)
    ensures var a := AccountOf(states[i], b);
            a.accepted <= 1 + a.lost
  {
    TimelyRunsKeepClaimsOwned(now, labels, states, i);
    RunsKeepBounded(now, labels, states, i, b);
  }

  // ---- the sweep tests and renames in two steps -------------------------------------------

  /** Some timely run from an empty directory ends in `s`. */
  ghost predicate TimelyReached(s: Queue) {
    exists labels, states ::
      IsRun(Empty(0), labels, states) && TimelyRun(labels, states) && states[|labels|] == s
  }

  lemma EmptyIsReached()
    ensures TimelyReached(Empty(0))
  {
    var labels: seq<Label> := [];
    assert IsRun(Empty(0), labels, [Empty(0)]) && TimelyRun(labels, [Empty(0)]);
  }

  lemma Extend(s: Queue, l: Label) returns (t: Queue)
    requires TimelyReached(s) && Timely(s, l)
    ensures TimelyReached(t) && t == Next(s, l)
  {
    t := Next(s, l);
    var labels, states :| IsRun(Empty(0), labels, states) && TimelyRun(labels, states) && states[|labels|] == s;
    assert IsRun(Empty(0), labels + [l], states + [t]) && TimelyRun(labels + [l], states + [t]);
  }

  lemma Act(s: Queue, p: nat, a: Action) returns (t: Queue)
    requires TimelyReached(s) && !a.Crash?
    ensures TimelyReached(t) && t == DrainerStep(s, p, a)
  {
    t := Extend(s, Do(p, a));
  }

  /** One item, in the one file `n`, and drainer 1 at `d`; the clock reads 100. */
  ghost predicate Stage(s: Queue, n: Name, mtime: int, d: Drainer, a: Account) {
    && TimelyReached(s) && s.now == 100 && s.dir.Keys == {n} && s.dir[n] == File(Readable(""), mtime)
    && 1 in s.drainers && s.drainers[1] == d
    && AccountOf(s, n.base) == a && s.spent == {}
  }

  /** Drainer 1 has renamed an old item and not stamped its claim yet. */
  lemma ClaimUnstamped(b: Base) returns (s: Queue)
    ensures Stage(s, Claim(b, 1), 0, Claimed(b, []), Account(0, 0, 0, 0)) && 2 !in s.drainers
  {
    EmptyIsReached();
    s := Extend(Empty(0), Enqueue(b, Readable("")));
    s := Extend(s, Wait(100));
    s := Act(s, 1, Start);
    assert s.drainers[1].todo == {};
    s := Act(s, 1, SweepEnd([b]));
    s := Act(s, 1, ClaimNext);
    assert [b][1..] == [];
  }

  /** Drainer 2 finds that claim stale. */
  lemma TestedStale(b: Base) returns (s: Queue)
    ensures Stage(s, Claim(b, 1), 0, Claimed(b, []), Account(0, 0, 0, 0))
    ensures 2 in s.drainers && s.drainers[2] == Stealing(100, {}, Claim(b, 1))
  {
    s := ClaimUnstamped(b);
    s := Act(s, 2, Start);
    assert s.drainers[2].todo == {Claim(b, 1)};
    s := Act(s, 2, SweepTest(Claim(b, 1)));
    assert s.drainers[2].todo == {};
  }

  /** Only then drainer 1 stamps it, and is about to POST. */
  lemma TestedThenStamped(b: Base) returns (s: Queue)
    ensures Stage(s, Claim(b, 1), 100, Posting(b, []), Account(0, 0, 0, 0))
    ensures 2 in s.drainers && s.drainers[2] == Stealing(100, {}, Claim(b, 1))
  {
    s := TestedStale(b);
    s := Act(s, 1, Stamp);
    s := Act(s, 1, Read);
  }

  /** Drainer 2 renames the claim all the same. */
  lemma StolenAfterStamp(b: Base) returns (s: Queue)
    ensures Stage(s, Pending(b), 100, Posting(b, []), Account(0, 1, 0, 1))
    ensures 2 in s.drainers && s.drainers[2] == Sweeping(100, {})
  {
    s := TestedThenStamped(b);
    s := Act(s, 2, SweepSteal);
  }

  /** It claims the item for itself while drainer 1 is still sending it. */
  lemma ClaimedTwice(b: Base) returns (s: Queue)
    ensures Stage(s, Claim(b, 2), 100, Posting(b, []), Account(0, 1, 0, 1))
    ensures 2 in s.drainers && s.drainers[2] == Stamped(b, [])
  {
    s := StolenAfterStamp(b);
    s := Act(s, 2, SweepEnd([b]));
    s := Act(s, 2, ClaimNext);
    assert [b][1..] == [];
    s := Act(s, 2, Stamp);
  }

  /** So in the code as it is, with no crash, no slow owner and no lost answer, an item can be
      committed twice: the sweep's age test and its rename are two steps. */
  lemma SplitSweepSendsTwice(b: Base) returns (s: Queue)
    ensures TimelyReached(s) && AccountOf(s, b).accepted == 2 && AccountOf(s, b).lost == 0
  {
    s := ClaimedTwice(b);
    s := Act(s, 2, Read);
    s := Act(s, 2, Post(Accepted));
    assert AccountOf(s, b) == Account(1, 1, 0, 1) && s.drainers[1] == Posting(b, []);
    s := Act(s, 1, Post(Accepted));
  }

  // ---- an answer is lost ------------------------------------------------------------------

  /** Drainer 1 has listed the only item. */
  lemma AboutToClaim(b: Base, s: Queue) returns (t: Queue)
    requires TimelyReached(s) && 1 !in s.drainers && s.dir.Keys == {Pending(b)}
    ensures TimelyReached(t) && t == At(s, 1, Scanning([b]))
  {
    t := Act(s, 1, Start);
    assert t.drainers[1].todo == {};
    t := Act(t, 1, SweepEnd([b]));
  }

  /** Drainer 1 has claimed and read it. */
  lemma AboutToSend(b: Base, s: Queue) returns (t: Queue)
    requires TimelyReached(s) && 1 !in s.drainers && s.dir.Keys == {Pending(b)} && s.dir[Pending(b)].content.Readable?
    ensures TimelyReached(t) && 1 in t.drainers && t.drainers[1] == Posting(b, []) && t.ledger == s.ledger
    ensures t.dir.Keys == {Claim(b, 1)} && t.dir[Claim(b, 1)].content == s.dir[Pending(b)].content
  {
    t := AboutToClaim(b, s);
    t := Act(t, 1, ClaimNext);
    assert [b][1..] == [] && t.drainers[1] == Claimed(b, []) && t.dir.Keys == {Claim(b, 1)};
    t := AboutToRead(b, t);
    t := Act(t, 1, Read);
  }

  lemma AboutToRead(b: Base, s: Queue) returns (t: Queue)
    requires TimelyReached(s) && 1 in s.drainers && s.drainers[1] == Claimed(b, []) && s.dir.Keys == {Claim(b, 1)}
    ensures TimelyReached(t) && t.drainers == s.drainers[1 := Stamped(b, [])] && t.ledger == s.ledger
    ensures t.dir.Keys == {Claim(b, 1)} && t.dir[Claim(b, 1)].content == s.dir[Claim(b, 1)].content
  {
    t := Act(s, 1, Stamp);
  }

  /** The server commits the item, and the drainer sees a transient failure and releases it. */
  lemma LostAndReleased(b: Base) returns (s: Queue)
    ensures TimelyReached(s) && AccountOf(s, b) == Account(1, 0, 1, 0) && 1 !in s.drainers
    ensures s.dir.Keys == {Pending(b)} && s.dir[Pending(b)].content.Readable?
  {
    EmptyIsReached();
    s := Extend(Empty(0), Enqueue(b, Readable("")));
    s := AboutToSend(b, s);
    s := Act(s, 1, Post(Transient(true)));
    assert AccountOf(s, b) == Account(1, 0, 1, 0);
    s := Act(s, 1, Release);
  }

  /** So one lost answer is enough for a second commit, with one drainer, no sweep and no crash. */
  lemma LostAnswerSendsTwice(b: Base) returns (s: Queue)
    ensures TimelyReached(s) && AccountOf(s, b) == Account(2, 0, 1, 0)
  {
    s := LostAndReleased(b);
    s := AboutToSend(b, s);
    s := Act(s, 1, Post(Accepted));
  }

  // ---- recovery -------------------------------------------------------------------------

  /** Nobody is working on claim `n`. */
  ghost predicate Orphaned(s: Queue, n: Name)
    requires n.Claim?
  {
    n.pid in s.drainers ==> !Holding(s.drainers[n.pid], n.base)
  }

  /** Drainer `p` has yet to deal with the orphan `n`, which is stale by the sweep's clock. */
  ghost predicate StillToSweep(s: Queue, p: nat, n: Name)
    requires n.Claim?
  {
    && p in s.drainers && n in s.dir && Orphaned(s, n)
    && var d := s.drainers[p];
       && (d.Sweeping? || d.Stealing?)
       && (n in d.todo || (d.Stealing? && n == d.victim))
       && d.since - s.dir[n].mtime >= STALE_CLAIM_AGE
  }

  ghost predicate SweptOrStillTo(t: Queue, p: nat, n: Name)
    requires n.Claim?
  {
    StillToSweep(t, p, n) || Pending(n.base) in t.dir
  }

  /** A sweep that starts once an orphan is old enough has it on its list. */
  lemma SweepListsOrphan(s: Queue, p: nat, n: Name)
    requires p !in s.drainers && n.Claim? && n in s.dir && Orphaned(s, n)
    requires s.now - s.dir[n].mtime >= STALE_CLAIM_AGE
    ensures StillToSweep(StartStep(s, p), p, n)
  {
  }

  /** The sweeping drainer's own steps. */
  lemma OwnStepSweepsOrphan(s: Queue, p: nat, n: Name, a: Action)
    requires n.Claim? && StillToSweep(s, p, n) && !a.Crash?
    ensures SweptOrStillTo(DrainerStep(s, p, a), p, n)
  {
  }

  lemma StealSweepsOrphan(s: Queue, p: nat, n: Name, q: nat)
    requires n.Claim? && StillToSweep(s, p, n) && p != q && q in s.drainers
    ensures SweptOrStillTo(SweepStealStep(s, q, s.drainers[q]), p, n)
  {
  }

  lemma ClaimSparesOrphan(s: Queue, p: nat, n: Name, q: nat, a: Action)
    requires n.Claim? && OneFileEach(s.dir) && StillToSweep(s, p, n) && p != q
    requires a.Start? || a.ClaimNext? || a.Stamp? || a.SweepTest? || a.SweepEnd?
    ensures SweptOrStillTo(DrainerStep(s, q, a), p, n)
  {
  }

  lemma DisposalSparesOrphan(s: Queue, p: nat, n: Name, q: nat, a: Action)
    requires n.Claim? && StillToSweep(s, p, n) && p != q
    requires a.Read? || a.Drop? || a.Remove? || a.Release? || a.Reject? || a.Stop? || a.Crash?
    ensures SweptOrStillTo(DrainerStep(s, q, a), p, n)
  {
  }

  lemma PostSparesOrphan(s: Queue, p: nat, n: Name, q: nat, reply: Reply)
    requires n.Claim? && StillToSweep(s, p, n) && p != q && q in s.drainers
    ensures SweptOrStillTo(PostStep(s, q, s.drainers[q], reply), p, n)
  {
  }

  lemma StepSweepsOrphan(s: Queue, p: nat, n: Name, l: Label)
    requires n.Claim? && OneFileEach(s.dir) && StillToSweep(s, p, n) && l != Do(p, Crash)
    ensures SweptOrStillTo(Next(s, l), p, n)
  {
    match l
    case Enqueue(_, _) | Wait(_) =>
    case Do(q, a) =>
      if q == p {
        OwnStepSweepsOrphan(s, p, n, a);
      } else if a.SweepSteal? && q in s.drainers {
        StealSweepsOrphan(s, p, n, q);
      } else if a.Post? && q in s.drainers {
        PostSparesOrphan(s, p, n, q, a.reply);
      } else if a.Start? || a.ClaimNext? || a.Stamp? || a.SweepTest? || a.SweepEnd? {
        ClaimSparesOrphan(s, p, n, q, a);
      } else if q in s.drainers {
        DisposalSparesOrphan(s, p, n, q, a);
      }
  }

  lemma RunsKeepOneFileEach(start: Queue, labels: seq<Label>, states: seq<Queue>, i: nat)
    requires IsRun(start, labels, states) && FilesSound(start) && i <= |labels|
    ensures OneFileEach(states[i].dir)
  {
    RunsKeepFiles(start, labels, states, i);
  }

  /** The item of claim `n` has been pending at some state up to i. */
  ghost predicate WasPending(states: seq<Queue>, i: nat, b: Base)
    requires i < |states|
  {
    exists j :: 0 <= j <= i && Pending(b) in states[j].dir
  }

  lemma {:induction false} StillToSweepOrPending(start: Queue, p: nat, n: Name, labels: seq<Label>,
                                                 states: seq<Queue>, i: nat)
    requires IsRun(start, labels, states) && i <= |labels|
    requires n.Claim? && FilesSound(start) && StillToSweep(start, p, n) && Do(p, Crash) !in labels
    ensures StillToSweep(states[i], p, n) || WasPending(states, i, n.base)
  {
    if i > 0 {
      StillToSweepOrPending(start, p, n, labels, states, i - 1);
      if WasPending(states, i - 1, n.base) {
        var j :| 0 <= j <= i - 1 && Pending(n.base) in states[j].dir;
      } else {
        RunsKeepOneFileEach(start, labels, states, i - 1);
        assert labels[i - 1] in labels && states[i] == Next(states[i - 1], labels[i - 1]);
        StepSweepsOrphan(states[i - 1], p, n, labels[i - 1]);
      }
    }
  }

  /** Drainer `p` is done with its sweep. */
  predicate SweepOver(s: Queue, p: nat) {
    p in s.drainers ==> !s.drainers[p].Sweeping? && !s.drainers[p].Stealing?
  }

  /** A dead drainer's claim is pending again, put back by this sweep or by another, before a sweep that
      started a stale age or more after the claim was stamped is over, unless the sweeper crashes too. */
  lemma SweepRecoversOrphans(start: Queue, p: nat, n: Name, labels: seq<Label>, states: seq<Queue>, i: nat)
    requires IsRun(start, labels, states) && 1 <= i <= |labels| && FilesSound(start)
    requires n.Claim? && n in start.dir && Orphaned(start, n) && start.now - start.dir[n].mtime >= STALE_CLAIM_AGE
    requires p !in start.drainers && labels[0] == Do(p, Start) && Do(p, Crash) !in labels
    requires SweepOver(states[i], p)
    ensures exists j :: 1 <= j <= i && Pending(n.base) in states[j].dir
  {
    SweepListsOrphan(start, p, n);
    assert states[1] == Next(states[0], labels[0]);
    NextKeepsFiles(start, labels[0]);
    forall k | 0 <= k < |labels| - 1
      ensures states[1..][k + 1] == Next(states[1..][k], labels[1..][k])
    {
      assert states[k + 2] == Next(states[k + 1], labels[k + 1]);
    }
    StillToSweepOrPending(states[1], p, n, labels[1..], states[1..], i - 1);
    var j :| 0 <= j <= i - 1 && Pending(n.base) in states[1..][j].dir;
    assert states[j + 1] == states[1..][j];
  }
}
