/** When exactly an item can be sent twice without an answer being lost: after a sweep has renamed a claim
    whose POST was under way or already committed, and only then. */
module QueueResend {
  import opened QueueState
  import opened QueueSteps
  import opened QueueFiles
  import opened QueueSafety
  import opened QueueTheorems

  /** The step is a sweep's rename of the claim of `b`, and its owner is sending `b` or has sent it. */
  predicate Overlaps(s: Queue, l: Label, b: Base) {
    l.Do? && l.a.SweepSteal? && l.p in s.drainers &&
    var d := s.drainers[l.p];
    && d.Stealing? && d.victim.Claim? && d.victim.base == b && d.victim in s.dir
    && (b in s.spent || (d.victim.pid in s.drainers && InFlight(s.drainers[d.victim.pid], b)))
  }

  ghost predicate NoOverlap(labels: seq<Label>, states: seq<Queue>, b: Base)
    requires |states| == |labels| + 1
  {
    forall i {:trigger labels[i]} :: 0 <= i < |labels| ==> !Overlaps(states[i], labels[i], b)
  }

  // ---- only then ------------------------------------------------------------------------

  lemma OnlyOverlapsDouble(s: Queue, l: Label, b: Base)
    ensures AccountOf(Next(s, l), b).doubled == AccountOf(s, b).doubled + if Overlaps(s, l, b) then 1 else 0
  {
  }

  lemma {:induction false} NoneDoubledBefore(now: int, labels: seq<Label>, states: seq<Queue>, i: nat, b: Base)
    requires IsRun(Empty(now), labels, states) && i <= |labels| && NoOverlap(labels, states, b)
    ensures AccountOf(states[i], b).doubled == 0
  {
    if i > 0 {
      NoneDoubledBefore(now, labels, states, i - 1, b);
      OnlyOverlapsDouble(states[i - 1], labels[i - 1], b);
    }
  }

  /** Whatever else happens, crashes and slow owners included. */
  lemma NoOverlapSendsOnce(now: int, labels: seq<Label>, states: seq<Queue>, i: nat, b: Base)
    requires IsRun(Empty(now), labels, states) && i <= |labels| && NoOverlap(labels, states, b)
    ensures AccountOf(states[i], b).accepted <= 1 + AccountOf(states[i], b).lost
  {
    NoneDoubledBefore(now, labels, states, i, b);
    RunsKeepBounded(now, labels, states, i, b);
  }

  // ---- what is sent can be read -----------------------------------------------------------

  predicate ReadableItem(s: Queue, b: Base) {
    b in s.entered && s.entered[b].Readable?
  }

  ghost predicate SendersSound(s: Queue, b: Base) {
    var a := AccountOf(s, b);
    && (forall p :: p in s.drainers && InFlight(s.drainers[p], b) ==> ReadableItem(s, b))
    && (b in s.spent ==> ReadableItem(s, b) && a.accepted >= 1 + a.lost)
    && a.accepted >= a.lost
  }

  /** A step that books nothing new on `b` but reclaims, and makes nobody a sender of it. */
  lemma NoNewSender(s: Queue, t: Queue, b: Base)
    requires SendersSound(s, b) && (ReadableItem(s, b) ==> ReadableItem(t, b)) && t.spent <= s.spent
    requires AccountOf(t, b).accepted == AccountOf(s, b).accepted && AccountOf(t, b).lost == AccountOf(s, b).lost
    requires forall p :: p in t.drainers && InFlight(t.drainers[p], b) ==> p in s.drainers && InFlight(s.drainers[p], b)
    ensures SendersSound(t, b)
  {
  }

  lemma PostKeepsSenders(s: Queue, p: nat, d: Drainer, reply: Reply, b: Base)
    requires p in s.drainers && d == s.drainers[p] && SendersSound(s, b)
    ensures SendersSound(PostStep(s, p, d, reply), b)
  {
    if d.Posting? && d.b != b {
      assert AccountOf(PostStep(s, p, d, reply), b) == AccountOf(s, b);
    }
  }

  lemma ReadKeepsSenders(s: Queue, p: nat, d: Drainer, b: Base)
    requires p in s.drainers && d == s.drainers[p] && FilesSound(s) && SendersSound(s, b)
    ensures SendersSound(ReadStep(s, p, d), b)
  {
  }

  lemma StealKeepsSenders(s: Queue, p: nat, d: Drainer, b: Base)
    requires p in s.drainers && d == s.drainers[p] && SendersSound(s, b)
    ensures SendersSound(SweepStealStep(s, p, d), b)
  {
    NoNewSender(s, SweepStealStep(s, p, d), b);
  }

  lemma SweepsKeepSenders(s: Queue, p: nat, a: Action, b: Base)
    requires SendersSound(s, b) && (a.Start? || a.SweepTest? || a.SweepEnd? || a.Stop? || a.Crash?)
    ensures SendersSound(DrainerStep(s, p, a), b)
  {
    NoNewSender(s, DrainerStep(s, p, a), b);
  }

  lemma ClaimsKeepSenders(s: Queue, p: nat, a: Action, b: Base)
    requires SendersSound(s, b) && (a.ClaimNext? || a.Stamp? || a.Drop?)
    ensures SendersSound(DrainerStep(s, p, a), b)
  {
    NoNewSender(s, DrainerStep(s, p, a), b);
  }

  lemma DisposalsKeepSenders(s: Queue, p: nat, a: Action, b: Base)
    requires SendersSound(s, b) && (a.Remove? || a.Release? || a.Reject?)
    ensures SendersSound(DrainerStep(s, p, a), b)
  {
    NoNewSender(s, DrainerStep(s, p, a), b);
  }

  lemma NextKeepsSenders(s: Queue, l: Label, b: Base)
    requires FilesSound(s) && SendersSound(s, b)
    ensures SendersSound(Next(s, l), b)
  {
    match l
    case Enqueue(_, _) | Wait(_) => NoNewSender(s, Next(s, l), b);
    case Do(p, a) =>
      if p in s.drainers && a.Post? {
        PostKeepsSenders(s, p, s.drainers[p], a.reply, b);
      } else if p in s.drainers && a.Read? {
        ReadKeepsSenders(s, p, s.drainers[p], b);
      } else if p in s.drainers && a.SweepSteal? {
        StealKeepsSenders(s, p, s.drainers[p], b);
      } else if a.ClaimNext? || a.Stamp? || a.Drop? {
        ClaimsKeepSenders(s, p, a, b);
      } else if a.Remove? || a.Release? || a.Reject? {
        DisposalsKeepSenders(s, p, a, b);
      } else if p in s.drainers || a.Start? {
        SweepsKeepSenders(s, p, a, b);
      }
  }

  lemma {:induction false} RunsKeepSenders(now: int, labels: seq<Label>, states: seq<Queue>, i: nat, b: Base)
    requires IsRun(Empty(now), labels, states) && i <= |labels|
    ensures SendersSound(states[i], b)
  {
    if i > 0 {
      RunsKeepFiles(Empty(now), labels, states, i - 1);
      RunsKeepSenders(now, labels, states, i - 1, b);
      NextKeepsSenders(states[i - 1], labels[i - 1], b);
    }
  }

  // ---- and then always possible -----------------------------------------------------------

  /** `order` lists every set of names completely, in whatever order listings come. */
  ghost predicate Lists(order: set<Base> -> seq<Base>) {
    forall names: set<Base>, b :: b in order(names) <==> b in names
  }

  function PendingBases(d: Dir): set<Base> {
    set n | n in d && n.Pending? :: n.base
  }

  /** Nobody crashes, no time passes, every answer is that the POST was accepted, a listing is what the
      directory holds, and no further sweep interferes with `b`. */
  ghost predicate Calm(order: set<Base> -> seq<Base>, s: Queue, l: Label, b: Base) {
    && l.Do? && !l.a.Crash? && (l.a.Post? ==> l.a.reply == Accepted)
    && (l.a.SweepEnd? ==> l.a.order == order(PendingBases(s.dir)))
    && !Overlaps(s, l, b)
  }

  ghost predicate CalmRun(order: set<Base> -> seq<Base>, labels: seq<Label>, states: seq<Queue>, b: Base)
    requires |states| == |labels| + 1
  {
    forall i {:trigger labels[i]} :: 0 <= i < |labels| ==> Calm(order, states[i], labels[i], b)
  }

  /** A calm run leads from `s` to `t`. */
  ghost predicate Leads(order: set<Base> -> seq<Base>, b: Base, s: Queue, t: Queue) {
    exists labels, states :: IsRun(s, labels, states) && CalmRun(order, labels, states, b) && states[|labels|] == t
  }

  lemma LeadsHere(order: set<Base> -> seq<Base>, b: Base, s: Queue)
    ensures Leads(order, b, s, s)
  {
    var labels: seq<Label> := [];
    assert IsRun(s, labels, [s]) && CalmRun(order, labels, [s], b);
  }

  lemma LeadsOn(order: set<Base> -> seq<Base>, b: Base, s: Queue, t: Queue, l: Label)
    requires Leads(order, b, s, t) && Calm(order, t, l, b)
    ensures Leads(order, b, s, Next(t, l))
  {
    var labels, states :| IsRun(s, labels, states) && CalmRun(order, labels, states, b) && states[|labels|] == t;
    assert IsRun(s, labels + [l], states + [Next(t, l)]) && CalmRun(order, labels + [l], states + [Next(t, l)], b);
  }

  /** The only file of `b` is its pending one, and it can be read. */
  ghost predicate WaitsAlone(d: Dir, b: Base) {
    && Pending(b) in d && d[Pending(b)].content.Readable?
    && forall n :: n in d && n.base == b ==> n == Pending(b)
  }

  /** `b` waits to be claimed while drainer `p` is at work, reached calmly from `s`. */
  ghost predicate Waiting(order: set<Base> -> seq<Base>, b: Base, s: Queue, t: Queue, p: nat) {
    Leads(order, b, s, t) && p in t.drainers && WaitsAlone(t.dir, b)
  }

  /** Nobody but drainer `p` has done anything, and nothing was booked on `b`. */
  predicate Aside(s: Queue, t: Queue, p: nat, b: Base) {
    AccountOf(t, b) == AccountOf(s, b) && t.drainers - {p} == s.drainers - {p}
  }

  /** One calm step of `p` after which `b` still waits. */
  lemma StepAside(order: set<Base> -> seq<Base>, b: Base, s: Queue, t: Queue, p: nat, a: Action) returns (u: Queue)
    requires Waiting(order, b, s, t, p) && Calm(order, t, Do(p, a), b)
    requires var u := DrainerStep(t, p, a); p in u.drainers && WaitsAlone(u.dir, b)
    ensures u == DrainerStep(t, p, a) && Waiting(order, b, s, u, p)
  {
    u := DrainerStep(t, p, a);
    LeadsOn(order, b, s, t, Do(p, a));
  }

  lemma Tests(order: set<Base> -> seq<Base>, b: Base, s: Queue, t: Queue, p: nat, n: Name) returns (u: Queue)
    requires Waiting(order, b, s, t, p) && t.drainers[p].Sweeping? && n in t.drainers[p].todo && n.Claim?
    ensures Waiting(order, b, s, u, p) && Aside(t, u, p, b)
    ensures var d := t.drainers[p]; var todo := d.todo - {n};
      u.drainers[p] == Sweeping(d.since, todo) || (u.drainers[p] == Stealing(d.since, todo, n) && n.base != b)
  {
    u := StepAside(order, b, s, t, p, SweepTest(n));
  }

  lemma Steals(order: set<Base> -> seq<Base>, b: Base, s: Queue, t: Queue, p: nat) returns (u: Queue)
    requires Waiting(order, b, s, t, p) && t.drainers[p].Stealing? && t.drainers[p].victim.Claim?
    requires t.drainers[p].victim.base != b
    ensures Waiting(order, b, s, u, p) && Aside(t, u, p, b)
    ensures u.drainers[p] == Sweeping(t.drainers[p].since, t.drainers[p].todo)
  {
    u := StepAside(order, b, s, t, p, SweepSteal);
  }

  /** The rest of the sweep. */
  lemma {:induction false} SweepsOn(order: set<Base> -> seq<Base>, b: Base, s: Queue, t: Queue, p: nat,
                                    since: int, todo: set<Name>) returns (u: Queue)
    requires Waiting(order, b, s, t, p) && t.drainers[p] == Sweeping(since, todo) && forall n :: n in todo ==> n.Claim?
    ensures Waiting(order, b, s, u, p) && Aside(t, u, p, b) && u.drainers[p] == Sweeping(since, {})
    decreases |todo|
  {
    u := t;
    if todo != {} {
      var n :| n in todo;
      u := Tests(order, b, s, t, p, n);
      if u.drainers[p].Stealing? {
        u := Steals(order, b, s, u, p);
      }
      u := SweepsOn(order, b, s, u, p, since, todo - {n});
    }
  }

  lemma Listing(order: set<Base> -> seq<Base>, b: Base, s: Queue, t: Queue, p: nat, since: int)
    returns (u: Queue, rest: seq<Base>)
    requires Lists(order) && Waiting(order, b, s, t, p) && t.drainers[p] == Sweeping(since, {})
    ensures Waiting(order, b, s, u, p) && Aside(t, u, p, b) && u.drainers[p] == Scanning(rest) && b in rest
  {
    rest := order(PendingBases(t.dir));
    assert Pending(b).base in PendingBases(t.dir);
    u := StepAside(order, b, s, t, p, SweepEnd(rest));
  }

  /** The drainer claims another item of its snapshot, or finds it gone. */
  lemma Claims(order: set<Base> -> seq<Base>, b: Base, s: Queue, t: Queue, p: nat, rest: seq<Base>) returns (u: Queue)
    requires Waiting(order, b, s, t, p) && t.drainers[p] == Scanning(rest) && rest != [] && rest[0] != b
    ensures Waiting(order, b, s, u, p) && Aside(t, u, p, b)
    ensures u.drainers[p] == Scanning(rest[1..]) ||
            (u.drainers[p] == Claimed(rest[0], rest[1..]) && Claim(rest[0], p) in u.dir)
  {
    u := StepAside(order, b, s, t, p, ClaimNext);
  }

  lemma Stamps(order: set<Base> -> seq<Base>, b: Base, s: Queue, t: Queue, p: nat, x: Base, rest: seq<Base>)
    returns (u: Queue)
    requires Waiting(order, b, s, t, p) && t.drainers[p] == Claimed(x, rest) && x != b && Claim(x, p) in t.dir
    ensures Waiting(order, b, s, u, p) && Aside(t, u, p, b) && u.drainers[p] == Stamped(x, rest)
  {
    u := StepAside(order, b, s, t, p, Stamp);
  }

  /** It reads the item and sends or drops it. */
  lemma Reads(order: set<Base> -> seq<Base>, b: Base, s: Queue, t: Queue, p: nat, x: Base, rest: seq<Base>)
    returns (u: Queue)
    requires Waiting(order, b, s, t, p) && t.drainers[p] == Stamped(x, rest) && x != b
    ensures Waiting(order, b, s, u, p) && Aside(t, u, p, b)
    ensures u.drainers[p] == Posting(x, rest) || u.drainers[p] == Dropping(x, rest)
  {
    u := StepAside(order, b, s, t, p, Read);
  }

  lemma Posts(order: set<Base> -> seq<Base>, b: Base, s: Queue, t: Queue, p: nat, x: Base, rest: seq<Base>)
    returns (u: Queue)
    requires Waiting(order, b, s, t, p) && t.drainers[p] == Posting(x, rest) && x != b
    ensures Waiting(order, b, s, u, p) && Aside(t, u, p, b) && u.drainers[p] == Settling(x, rest)
  {
    u := StepAside(order, b, s, t, p, Post(Accepted));
  }

  lemma Deletes(order: set<Base> -> seq<Base>, b: Base, s: Queue, t: Queue, p: nat, x: Base, rest: seq<Base>)
    returns (u: Queue)
    requires Waiting(order, b, s, t, p) && x != b
    requires t.drainers[p] == Settling(x, rest) || t.drainers[p] == Dropping(x, rest)
    ensures Waiting(order, b, s, u, p) && Aside(t, u, p, b) && u.drainers[p] == Scanning(rest)
  {
    u := StepAside(order, b, s, t, p, if t.drainers[p].Settling? then Remove else Drop);
  }

  /** One item of the snapshot, from its claim to its end. */
  lemma PassesItem(order: set<Base> -> seq<Base>, b: Base, s: Queue, t: Queue, p: nat, rest: seq<Base>)
    returns (u: Queue)
    requires Waiting(order, b, s, t, p) && t.drainers[p] == Scanning(rest) && rest != [] && rest[0] != b
    ensures Waiting(order, b, s, u, p) && Aside(t, u, p, b) && u.drainers[p] == Scanning(rest[1..])
  {
    u := Claims(order, b, s, t, p, rest);
    if u.drainers[p].Claimed? {
      u := Stamps(order, b, s, u, p, rest[0], rest[1..]);
      u := Reads(order, b, s, u, p, rest[0], rest[1..]);
      if u.drainers[p].Posting? {
        u := Posts(order, b, s, u, p, rest[0], rest[1..]);
      }
      u := Deletes(order, b, s, u, p, rest[0], rest[1..]);
    }
  }

  /** The scan comes to `b`. */
  lemma {:induction false} ScansTo(order: set<Base> -> seq<Base>, b: Base, s: Queue, t: Queue, p: nat, rest: seq<Base>)
    returns (u: Queue, tail: seq<Base>)
    requires Waiting(order, b, s, t, p) && t.drainers[p] == Scanning(rest) && b in rest
    ensures Waiting(order, b, s, u, p) && Aside(t, u, p, b) && u.drainers[p] == Scanning([b] + tail)
    decreases |rest|
  {
    if rest[0] == b {
      u, tail := t, rest[1..];
      assert rest == [b] + tail;
    } else {
      u := PassesItem(order, b, s, t, p, rest);
      u, tail := ScansTo(order, b, s, u, p, rest[1..]);
    }
  }

  /** The POST of a claimed item, accepted. */
  predicate SentOnce(t: Queue, u: Queue, b: Base) {
    AccountOf(u, b) == AccountOf(t, b).(accepted := AccountOf(t, b).accepted + 1)
  }

  /** Where claiming, stamping and reading a readable item gets a drainer. */
  lemma ClaimedAndRead(t: Queue, p: nat, b: Base, tail: seq<Base>) returns (t1: Queue, t2: Queue, t3: Queue)
    requires p in t.drainers && t.drainers[p] == Scanning([b] + tail)
    requires Pending(b) in t.dir && t.dir[Pending(b)].content.Readable?
    ensures t1 == DrainerStep(t, p, ClaimNext) && t2 == DrainerStep(t1, p, Stamp) && t3 == DrainerStep(t2, p, Read)
    ensures p in t3.drainers && t3.drainers[p] == Posting(b, tail)
    ensures Aside(t, t3, p, b)
  {
    t1 := DrainerStep(t, p, ClaimNext);
    assert t1.drainers[p] == Claimed(b, ([b] + tail)[1..]) && ([b] + tail)[1..] == tail;
    t2 := DrainerStep(t1, p, Stamp);
    assert t2.drainers[p] == Stamped(b, tail);
    t3 := DrainerStep(t2, p, Read);
  }

  lemma PostSends(t: Queue, p: nat, b: Base) returns (u: Queue)
    requires p in t.drainers && t.drainers[p].Posting? && t.drainers[p].b == b
    ensures u == DrainerStep(t, p, Post(Accepted)) && SentOnce(t, u, b) && u.drainers - {p} == t.drainers - {p}
  {
    u := DrainerStep(t, p, Post(Accepted));
  }

  /** The drainer claims `b`, reads it and sends it. */
  lemma Sends(order: set<Base> -> seq<Base>, b: Base, s: Queue, t: Queue, p: nat, tail: seq<Base>) returns (u: Queue)
    requires Waiting(order, b, s, t, p) && t.drainers[p] == Scanning([b] + tail)
    ensures Leads(order, b, s, u) && SentOnce(t, u, b) && u.drainers - {p} == t.drainers - {p}
  {
    var t1, t2, t3 := ClaimedAndRead(t, p, b, tail);
    LeadsOn(order, b, s, t, Do(p, ClaimNext));
    LeadsOn(order, b, s, t1, Do(p, Stamp));
    LeadsOn(order, b, s, t2, Do(p, Read));
    u := PostSends(t3, p, b);
    LeadsOn(order, b, s, t3, Do(p, Post(Accepted)));
  }

  /** A claim that was just swept is claimed again and sent, by the drainer that swept it. */
  lemma SweeperSends(order: set<Base> -> seq<Base>, b: Base, s: Queue, p: nat, since: int, todo: set<Name>)
    returns (u: Queue)
    requires Lists(order) && p in s.drainers && s.drainers[p] == Sweeping(since, todo) && WaitsAlone(s.dir, b)
    requires forall n :: n in todo ==> n.Claim?
    ensures Leads(order, b, s, u) && SentOnce(s, u, b) && u.drainers - {p} == s.drainers - {p}
  {
    LeadsHere(order, b, s);
    u := SweepsOn(order, b, s, s, p, since, todo);
    var rest, tail;
    u, rest := Listing(order, b, s, u, p, since);
    u, tail := ScansTo(order, b, s, u, p, rest);
    u := Sends(order, b, s, u, p, tail);
  }

  /** So does the owner it was taken from, if it was about to. */
  lemma OwnerSends(order: set<Base> -> seq<Base>, b: Base, s: Queue, t: Queue, q: nat) returns (u: Queue)
    requires Leads(order, b, s, t) && q in t.drainers && InFlight(t.drainers[q], b)
    ensures Leads(order, b, s, u) && SentOnce(t, u, b)
  {
    u := PostSends(t, q, b);
    LeadsOn(order, b, s, t, Do(q, Post(Accepted)));
  }

  /** The overlapping rename itself. */
  lemma AfterOverlap(s: Queue, l: Label, b: Base) returns (p: nat, since: int, todo: set<Name>, q: nat)
    requires FilesSound(s) && SendersSound(s, b) && Overlaps(s, l, b)
    ensures var t := Next(s, l); var a, a' := AccountOf(s, b), AccountOf(t, b);
      && p in t.drainers && t.drainers[p] == Sweeping(since, todo) && (forall n :: n in todo ==> n.Claim?)
      && WaitsAlone(t.dir, b) && a'.accepted == a.accepted && a'.lost == a.lost
      && (b in s.spent || (q != p && q in t.drainers && InFlight(t.drainers[q], b)))
  {
    p := l.p;
    var d := s.drainers[p];
    since, todo, q := d.since, d.todo, d.victim.pid;
    assert DrainerSound(s, p, d);
  }

  /** After an overlapping rename, a calm run has `b` committed twice. */
  lemma OverlapSendsAgain(order: set<Base> -> seq<Base>, s: Queue, l: Label, b: Base) returns (u: Queue)
    requires Lists(order) && FilesSound(s) && SendersSound(s, b) && Overlaps(s, l, b)
    ensures Leads(order, b, Next(s, l), u) && AccountOf(u, b).accepted >= 2 + AccountOf(u, b).lost
  {
    var p, since, todo, q := AfterOverlap(s, l, b);
    var t := Next(s, l);
    u := SweeperSends(order, b, t, p, since, todo);
    if b !in s.spent {
      assert q in t.drainers - {p} && (t.drainers - {p})[q] == t.drainers[q];
      assert q in u.drainers - {p} && (u.drainers - {p})[q] == u.drainers[q];
      u := OwnerSends(order, b, t, u, q);
    }
  }

  // ---- the condition ------------------------------------------------------------------------

  /** Committed more often than once and once more for every answer that was lost. */
  predicate SentTwice(s: Queue, b: Base) {
    AccountOf(s, b).accepted > 1 + AccountOf(s, b).lost
  }

  ghost predicate NotDoubled(s: Queue, b: Base) {
    FilesSound(s) && Bounded(s, b) && AccountOf(s, b).doubled == 0
  }

  lemma StaysNotDoubled(s: Queue, l: Label, b: Base)
    requires NotDoubled(s, b) && !Overlaps(s, l, b)
    ensures NotDoubled(Next(s, l), b)
  {
    NextKeepsFiles(s, l);
    NextKeepsBounded(s, l, b);
    OnlyOverlapsDouble(s, l, b);
  }

  lemma {:induction false} CalmRunsStayNotDoubled(order: set<Base> -> seq<Base>, s: Queue, labels: seq<Label>,
                                                  states: seq<Queue>, i: nat, b: Base)
    requires IsRun(s, labels, states) && CalmRun(order, labels, states, b) && i <= |labels| && NotDoubled(s, b)
    ensures NotDoubled(states[i], b)
  {
    if i > 0 {
      CalmRunsStayNotDoubled(order, s, labels, states, i - 1, b);
      assert Calm(order, states[i - 1], labels[i - 1], b);
      StaysNotDoubled(states[i - 1], labels[i - 1], b);
    }
  }

  lemma LeadsToOneSend(order: set<Base> -> seq<Base>, s: Queue, u: Queue, b: Base)
    requires Leads(order, b, s, u) && NotDoubled(s, b)
    ensures !SentTwice(u, b)
  {
    var labels, states :| IsRun(s, labels, states) && CalmRun(order, labels, states, b) && states[|labels|] == u;
    CalmRunsStayNotDoubled(order, s, labels, states, |labels|, b);
  }

  /** However the directory got to where it is without an overlap so far: the next step makes it possible
      to have the item committed twice, with no further interference, no crash, no delay and no lost
      answer, if and only if it is an overlapping rename. */
  lemma SentTwiceIffOverlap(order: set<Base> -> seq<Base>, now: int, labels: seq<Label>, states: seq<Queue>,
                            l: Label, b: Base)
    requires Lists(order) && IsRun(Empty(now), labels, states) && NoOverlap(labels, states, b)
    ensures Overlaps(states[|labels|], l, b)
       <==> exists u :: Leads(order, b, Next(states[|labels|], l), u) && SentTwice(u, b)
  {
    var s := states[|labels|];
    RunsKeepFiles(Empty(now), labels, states, |labels|);
    RunsKeepSenders(now, labels, states, |labels|, b);
    if Overlaps(s, l, b) {
      var u := OverlapSendsAgain(order, s, l, b);
    } else {
      RunsKeepBounded(now, labels, states, |labels|, b);
      NoneDoubledBefore(now, labels, states, |labels|, b);
      StaysNotDoubled(s, l, b);
      forall u | Leads(order, b, Next(s, l), u)
        ensures !SentTwice(u, b)
      {
        LeadsToOneSend(order, Next(s, l), u, b);
      }
    }
  }
}
