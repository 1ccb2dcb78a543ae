/** No step of the queue loses an item, duplicates its file or changes its content. */
module QueueFiles {
  import opened QueueState
  import opened QueueSteps

  // ---- what every step keeps ------------------------------------------------------------

  ghost predicate HasFile(d: Dir, b: Base) {
    exists n :: n in d && n.base == b
  }

  /** No item is ever in two files, so no rename ever replaces another file. */
  ghost predicate OneFileEach(d: Dir) {
    forall m, n :: m in d && n in d && m.base == n.base ==> m == n
  }

  ghost predicate ContentKept(s: Queue) {
    forall n :: n in s.dir ==> n.base in s.entered && s.dir[n].content == s.entered[n.base]
  }

  ghost predicate NothingLost(s: Queue) {
    forall b :: b in s.entered && s.entered[b].Readable? && AccountOf(s, b).accepted == 0 ==> HasFile(s.dir, b)
  }

  ghost predicate DrainerSound(s: Queue, p: nat, d: Drainer) {
    match d
    case Sweeping(since, todo) => since <= s.now && forall n :: n in todo ==> n.Claim?
    case Stealing(since, todo, victim) => since <= s.now && victim.Claim? && forall n :: n in todo ==> n.Claim?
    case Scanning(_) => true
    case Dropping(b, _) => b in s.entered && (Claim(b, p) in s.dir ==> s.entered[b] == Corrupt)
    case Settling(b, _) => b in s.entered && AccountOf(s, b).accepted >= 1
    case _ => d.b in s.entered
  }

  ghost predicate DrainersSound(s: Queue) {
    forall p :: p in s.drainers ==> DrainerSound(s, p, s.drainers[p])
  }

  /** A claim marked spent is only ever held by a drainer that is about to dispose of it. */
  ghost predicate SpentSound(s: Queue) {
    && s.spent <= s.entered.Keys && s.ledger.Keys <= s.entered.Keys
    && (forall b :: b in s.spent ==> Pending(b) !in s.dir)
    && forall b, p :: b in s.spent && Claim(b, p) in s.dir && p in s.drainers && Holding(s.drainers[p], b)
                      ==> Disposing(s.drainers[p])
  }

  ghost predicate FilesSound(s: Queue) {
    OneFileEach(s.dir) && ContentKept(s) && NothingLost(s) && DrainersSound(s) && SpentSound(s)
  }

  // ---- the pieces keep it ---------------------------------------------------------------

  /** Between two names of one item a rename loses no file and duplicates none. */
  lemma RenameKeepsFiles(d: Dir, n: Name, to: Name)
    requires n in d && n.base == to.base && OneFileEach(d)
    ensures OneFileEach(Renamed(d, n, to))
    ensures forall b :: HasFile(d, b) ==> HasFile(Renamed(d, n, to), b)
  {
    forall b | HasFile(d, b)
      ensures HasFile(Renamed(d, n, to), b)
    {
      var m :| m in d && m.base == b;
      assert if m == n then to in Renamed(d, n, to) && to.base == b else m in Renamed(d, n, to);
    }
  }

  lemma AtKeepsFiles(s: Queue, p: nat, d: Drainer)
    requires FilesSound(s) && DrainerSound(s, p, d)
    requires forall b :: b in s.spent && Claim(b, p) in s.dir && Holding(d, b) ==> Disposing(d)
    ensures FilesSound(At(s, p, d))
  {
  }

  lemma MovedKeepsFiles(s: Queue, n: Name, to: Name)
    requires FilesSound(s) && n in s.dir && n.Claim? && !to.Claim? && n.base == to.base
    requires to.Pending? ==> n.base !in s.spent
    ensures FilesSound(Moved(s, n, to))
  {
    RenameKeepsFiles(s.dir, n, to);
  }

  lemma DeletedKeepsFiles(s: Queue, n: Name)
    requires FilesSound(s)
    requires n in s.dir ==> s.dir[n].content == Corrupt || AccountOf(s, n.base).accepted >= 1
    ensures FilesSound(Deleted(s, n))
  {
    forall b | HasFile(s.dir, b) && b != n.base
      ensures HasFile(Deleted(s, n).dir, b)
    {
      var m :| m in s.dir && m.base == b;
      assert m in Deleted(s, n).dir;
    }
  }

  lemma BookedKeepsFiles(s: Queue, b: Base, a: Account)
    requires FilesSound(s) && b in s.entered && a.accepted >= AccountOf(s, b).accepted
    ensures FilesSound(Booked(s, b, a))
  {
  }

  lemma SpentKeepsFiles(s: Queue, p: nat, b: Base)
    requires FilesSound(s) && Claim(b, p) in s.dir && b in s.entered
    requires p in s.drainers ==> Disposing(s.drainers[p])
    ensures FilesSound(Spent(s, b))
  {
  }

  // ---- the steps keep it ----------------------------------------------------------------

  lemma EnqueueKeepsFiles(s: Queue, b: Base, content: Content)
    requires FilesSound(s)
    ensures FilesSound(EnqueueStep(s, b, content))
  {
    var t := EnqueueStep(s, b, content);
    forall x | HasFile(s.dir, x)
      ensures HasFile(t.dir, x)
    {
      var n :| n in s.dir && n.base == x;
      assert n in t.dir;
    }
    assert b !in s.entered ==> Pending(b) in t.dir;
  }

  /** The steps that touch no file. */
  lemma SweepKeepsFiles(s: Queue, p: nat, d: Drainer, n: Name, order: seq<Base>)
    requires FilesSound(s) && p in s.drainers && d == s.drainers[p]
    ensures FilesSound(SweepTestStep(s, p, d, n)) && FilesSound(SweepEndStep(s, p, d, order))
  {
    if d.Sweeping? {
      AtKeepsFiles(s, p, Sweeping(d.since, d.todo - {n}));
      AtKeepsFiles(s, p, Scanning(order));
      if n in d.todo {
        AtKeepsFiles(s, p, Stealing(d.since, d.todo - {n}, n));
      }
    }
  }

  lemma ReadKeepsFiles(s: Queue, p: nat, d: Drainer)
    requires FilesSound(s) && p in s.drainers && d == s.drainers[p]
    ensures FilesSound(ReadStep(s, p, d))
  {
    if d.Stamped? {
      AtKeepsFiles(s, p, Posting(d.b, d.rest));
      if !(Claim(d.b, p) in s.dir && s.dir[Claim(d.b, p)].content.Readable?) {
        AtKeepsFiles(s, p, Dropping(d.b, d.rest));
      }
    }
  }

  lemma GoneKeepsFiles(s: Queue, p: nat)
    requires FilesSound(s)
    ensures FilesSound(Gone(s, p))
  {
  }

  lemma StealKeepsFiles(s: Queue, p: nat, d: Drainer)
    requires FilesSound(s) && p in s.drainers && d == s.drainers[p]
    ensures FilesSound(SweepStealStep(s, p, d))
  {
    if d.Stealing? && d.victim in s.dir {
      var b := d.victim.base;
      var s1 := Booked(s, b, StealAccount(s, d.victim));
      BookedKeepsFiles(s, b, StealAccount(s, d.victim));
      var s2 := s1.(spent := s1.spent - {b});
      assert FilesSound(s2);
      MovedKeepsFiles(s2, d.victim, Pending(b));
      AtKeepsFiles(Moved(s2, d.victim, Pending(b)), p, Sweeping(d.since, d.todo));
    } else if d.Stealing? {
      AtKeepsFiles(s, p, Sweeping(d.since, d.todo));
    }
  }

  lemma ClaimKeepsFiles(s: Queue, p: nat, d: Drainer)
    requires FilesSound(s) && p in s.drainers && d == s.drainers[p]
    ensures FilesSound(ClaimStep(s, p, d))
  {
    if d.Scanning? && d.rest != [] {
      var b := d.rest[0];
      if Pending(b) in s.dir {
        var t := Moved(s, Pending(b), Claim(b, p));
        TakenKeepsFiles(s, b, p);
        AtKeepsFiles(t, p, Claimed(b, d.rest[1..]));
      } else {
        AtKeepsFiles(s, p, Scanning(d.rest[1..]));
      }
    }
  }

  lemma TakenKeepsFiles(s: Queue, b: Base, p: nat)
    requires FilesSound(s) && Pending(b) in s.dir && p in s.drainers && s.drainers[p].Scanning?
    ensures FilesSound(Moved(s, Pending(b), Claim(b, p))) && b !in s.spent
  {
    var t := Moved(s, Pending(b), Claim(b, p));
    RenameKeepsFiles(s.dir, Pending(b), Claim(b, p));
    forall q | q in t.drainers
      ensures DrainerSound(t, q, t.drainers[q])
    {
      assert DrainerSound(s, q, s.drainers[q]);
    }
  }

  lemma StampKeepsFiles(s: Queue, p: nat, d: Drainer)
    requires FilesSound(s) && p in s.drainers && d == s.drainers[p]
    ensures FilesSound(StampStep(s, p, d))
  {
    if d.Claimed? {
      if Claim(d.b, p) in s.dir {
        var t := Restamped(s, Claim(d.b, p));
        assert t.dir.Keys == s.dir.Keys;
        assert forall b :: HasFile(s.dir, b) ==> HasFile(t.dir, b);
        AtKeepsFiles(t, p, Stamped(d.b, d.rest));
      } else {
        AtKeepsFiles(s, p, Scanning(d.rest));
      }
    }
  }

  lemma PostKeepsFiles(s: Queue, p: nat, d: Drainer, reply: Reply)
    requires FilesSound(s) && p in s.drainers && d == s.drainers[p]
    ensures FilesSound(PostStep(s, p, d, reply))
  {
    if d.Posting? {
      var b, a := d.b, PostAccount(AccountOf(s, d.b), reply);
      BookedKeepsFiles(s, b, a);
      AtKeepsFiles(Booked(s, b, a), p, AfterPost(d, reply));
      if Claim(b, p) in s.dir && Disposing(AfterPost(d, reply)) {
        SpentKeepsFiles(At(Booked(s, b, a), p, AfterPost(d, reply)), p, b);
      }
    }
  }

  /** The last operation on a claim: drop or remove, release or reject. */
  lemma DeletionKeepsFiles(s: Queue, p: nat, a: Action)
    requires FilesSound(s) && p in s.drainers && (a.Drop? || a.Remove?)
    ensures FilesSound(DrainerStep(s, p, a))
  {
    var d := s.drainers[p];
    if (a.Drop? && d.Dropping?) || (a.Remove? && d.Settling?) {
      DeletedKeepsFiles(s, Claim(d.b, p));
      AtKeepsFiles(Deleted(s, Claim(d.b, p)), p, Scanning(d.rest));
    }
  }

  lemma RenamingKeepsFiles(s: Queue, p: nat, a: Action)
    requires FilesSound(s) && p in s.drainers && (a.Release? || a.Reject?)
    ensures FilesSound(DrainerStep(s, p, a))
  {
    var d := s.drainers[p];
    if a.Release? && d.Releasing? {
      if Claim(d.b, p) in s.dir {
        MovedKeepsFiles(s, Claim(d.b, p), Pending(d.b));
        GoneKeepsFiles(Moved(s, Claim(d.b, p), Pending(d.b)), p);
      } else {
        GoneKeepsFiles(s, p);
      }
    } else if a.Reject? && d.Rejecting? {
      if Claim(d.b, p) in s.dir {
        MovedKeepsFiles(s, Claim(d.b, p), Rejected(d.b));
        AtKeepsFiles(Moved(s, Claim(d.b, p), Rejected(d.b)), p, Scanning(d.rest));
      } else {
        AtKeepsFiles(s, p, Scanning(d.rest));
      }
    }
  }

  lemma NextKeepsFiles(s: Queue, l: Label)
    requires FilesSound(s)
    ensures FilesSound(Next(s, l))
  {
    match l
    case Enqueue(b, content) => EnqueueKeepsFiles(s, b, content);
    case Wait(_) =>
    case Do(p, a) =>
      if p in s.drainers {
        match a
        case Start =>
        case SweepSteal => StealKeepsFiles(s, p, s.drainers[p]);
        case ClaimNext => ClaimKeepsFiles(s, p, s.drainers[p]);
        case Stamp => StampKeepsFiles(s, p, s.drainers[p]);
        case Post(reply) => PostKeepsFiles(s, p, s.drainers[p], reply);
        case Drop | Remove => DeletionKeepsFiles(s, p, a);
        case Release | Reject => RenamingKeepsFiles(s, p, a);
        case Stop | Crash => GoneKeepsFiles(s, p);
        case SweepTest(n) => SweepKeepsFiles(s, p, s.drainers[p], n, []);
        case SweepEnd(order) => SweepKeepsFiles(s, p, s.drainers[p], Rejected(""), order);
        case Read => ReadKeepsFiles(s, p, s.drainers[p]);
      }
  }
}
