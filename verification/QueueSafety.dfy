/** How often one item can reach the server, and what that takes. */
module QueueSafety {
  import opened QueueState
  import opened QueueSteps
  import opened QueueFiles

  /** Drainers that will still POST `b` although its claim was taken from them. */
  ghost function Detached(s: Queue, b: Base): set<nat> {
    set p | p in s.drainers && InFlight(s.drainers[p], b) && Claim(b, p) !in s.dir
  }

  ghost predicate Claimable(s: Queue, b: Base) {
    Pending(b) in s.dir || (b !in s.spent && exists p :: Claim(b, p) in s.dir)
  }

  /** One while a file of `b` can still lead to a POST. */
  ghost function Token(s: Queue, b: Base): nat {
    if Claimable(s, b) then 1 else 0
  }

  ghost predicate Bounded(s: Queue, b: Base) {
    var a := AccountOf(s, b);
    && a.accepted + |Detached(s, b)| + Token(s, b) <= 1 + a.doubled + a.lost
    && a.doubled <= a.reclaimed
  }

  lemma SubsetSize<T>(a: set<T>, b: set<T>)
    requires a <= b
    ensures |a| <= |b|
  {
    assert b == a + (b - a);
  }

  /** A step that books nothing on `b`, detaches nobody and creates no token. */
  lemma QuietStep(s: Queue, t: Queue, b: Base)
    requires Bounded(s, b) && AccountOf(t, b) == AccountOf(s, b)
    requires Detached(t, b) <= Detached(s, b) && (Claimable(t, b) ==> Claimable(s, b))
    ensures Bounded(t, b)
  {
    SubsetSize(Detached(t, b), Detached(s, b));
  }

  lemma StealKeepsBounded(s: Queue, p: nat, d: Drainer, b: Base)
    requires FilesSound(s) && Bounded(s, b) && p in s.drainers && d == s.drainers[p]
    ensures Bounded(SweepStealStep(s, p, d), b)
  {
    var t := SweepStealStep(s, p, d);
    if d.Stealing? && d.victim in s.dir && d.victim.base == b {
      var q := d.victim.pid;
      if q in s.drainers && InFlight(s.drainers[q], b) {
        assert Detached(t, b) <= Detached(s, b) + {q};
        SubsetSize(Detached(t, b), Detached(s, b) + {q});
      } else {
        assert Detached(t, b) <= Detached(s, b);
        SubsetSize(Detached(t, b), Detached(s, b));
      }
    } else {
      QuietStep(s, t, b);
    }
  }

  /** The POST of an item whose claim is in place: its token pays for it. */
  lemma ClaimedPostKeepsBounded(s: Queue, p: nat, d: Drainer, reply: Reply)
    requires FilesSound(s) && p in s.drainers && d == s.drainers[p] && d.Posting? && Bounded(s, d.b)
    requires Claim(d.b, p) in s.dir
    ensures Bounded(PostStep(s, p, d, reply), d.b)
  {
    var t := PostStep(s, p, d, reply);
    assert Holding(d, d.b) && !Disposing(d);
    assert d.b !in s.spent && Claimable(s, d.b);
    assert t.dir == s.dir;
    assert Detached(t, d.b) <= Detached(s, d.b);
    SubsetSize(Detached(t, d.b), Detached(s, d.b));
    assert Disposing(AfterPost(d, reply)) ==> !Claimable(t, d.b) by {
      assert OneFileEach(s.dir);
    }
  }

  /** The POST of an item whose claim was taken: it is one of those already counted. */
  lemma DetachedPostKeepsBounded(s: Queue, p: nat, d: Drainer, reply: Reply)
    requires p in s.drainers && d == s.drainers[p] && d.Posting? && Bounded(s, d.b)
    requires Claim(d.b, p) !in s.dir
    ensures Bounded(PostStep(s, p, d, reply), d.b)
  {
    var t := PostStep(s, p, d, reply);
    assert p in Detached(s, d.b);
    assert Detached(t, d.b) <= Detached(s, d.b) - {p};
    SubsetSize(Detached(t, d.b), Detached(s, d.b) - {p});
  }

  lemma PostKeepsBounded(s: Queue, p: nat, d: Drainer, reply: Reply, b: Base)
    requires FilesSound(s) && Bounded(s, b) && p in s.drainers && d == s.drainers[p]
    ensures Bounded(PostStep(s, p, d, reply), b)
  {
    if d.Posting? && d.b == b {
      if Claim(b, p) in s.dir {
        ClaimedPostKeepsBounded(s, p, d, reply);
      } else {
        DetachedPostKeepsBounded(s, p, d, reply);
      }
    } else {
      QuietStep(s, PostStep(s, p, d, reply), b);
    }
  }

  lemma FilelessKeepsBounded(s: Queue, p: nat, a: Action, b: Base)
    requires FilesSound(s) && Bounded(s, b) && p in s.drainers
    requires a.SweepTest? || a.SweepEnd? || a.Read? || a.Stop? || a.Crash?
    ensures Bounded(DrainerStep(s, p, a), b)
  {
    QuietStep(s, DrainerStep(s, p, a), b);
  }

  lemma ClaimKeepsBounded(s: Queue, p: nat, d: Drainer, b: Base)
    requires FilesSound(s) && Bounded(s, b) && p in s.drainers && d == s.drainers[p]
    ensures Bounded(ClaimStep(s, p, d), b)
  {
    var t := ClaimStep(s, p, d);
    forall q | q in Detached(t, b)
      ensures q in Detached(s, b)
    {
      assert d.Scanning? ==> q != p;
    }
    QuietStep(s, t, b);
  }

  lemma StampKeepsBounded(s: Queue, p: nat, d: Drainer, b: Base)
    requires FilesSound(s) && Bounded(s, b) && p in s.drainers && d == s.drainers[p]
    ensures Bounded(StampStep(s, p, d), b)
  {
    QuietStep(s, StampStep(s, p, d), b);
  }

  lemma DeletionKeepsBounded(s: Queue, p: nat, d: Drainer, b: Base)
    requires FilesSound(s) && Bounded(s, b) && p in s.drainers && d == s.drainers[p]
    ensures Bounded(DropStep(s, p, d), b) && Bounded(RemoveStep(s, p, d), b)
  {
    QuietStep(s, DropStep(s, p, d), b);
    QuietStep(s, RemoveStep(s, p, d), b);
  }

  lemma RenamingKeepsBounded(s: Queue, p: nat, d: Drainer, b: Base)
    requires FilesSound(s) && Bounded(s, b) && p in s.drainers && d == s.drainers[p]
    ensures Bounded(ReleaseStep(s, p, d), b) && Bounded(RejectStep(s, p, d), b)
  {
    QuietStep(s, ReleaseStep(s, p, d), b);
    QuietStep(s, RejectStep(s, p, d), b);
  }

  lemma EnqueueKeepsBounded(s: Queue, x: Base, content: Content, b: Base)
    requires FilesSound(s) && Bounded(s, b)
    ensures Bounded(EnqueueStep(s, x, content), b)
  {
    var t := EnqueueStep(s, x, content);
    if b == x && b !in s.entered {
      assert Detached(t, b) == {};
    } else {
      QuietStep(s, t, b);
    }
  }

  lemma NextKeepsBounded(s: Queue, l: Label, b: Base)
    requires FilesSound(s) && Bounded(s, b)
    ensures Bounded(Next(s, l), b)
  {
    match l
    case Enqueue(x, content) => EnqueueKeepsBounded(s, x, content, b);
    case Wait(_) => QuietStep(s, Next(s, l), b);
    case Do(p, a) =>
      if p !in s.drainers || a.Start? {
        QuietStep(s, Next(s, l), b);
      } else {
        var d := s.drainers[p];
        match a
        case SweepSteal => StealKeepsBounded(s, p, d, b);
        case ClaimNext => ClaimKeepsBounded(s, p, d, b);
        case Stamp => StampKeepsBounded(s, p, d, b);
        case Post(reply) => PostKeepsBounded(s, p, d, reply, b);
        case Drop | Remove => DeletionKeepsBounded(s, p, d, b);
        case Release | Reject => RenamingKeepsBounded(s, p, d, b);
        case _ => FilelessKeepsBounded(s, p, a, b);
      }
  }
}
