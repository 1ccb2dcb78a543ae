/** The drain as a program and the drainers of the step machine do the same to the directory: what
    QueueDrain says of one item or one claim is what the machine's steps come to when nobody else moves. */
module QueueRuns {
  import opened QueueState
  import opened QueueSteps
  import opened QueueDrain

  /** The machine's reply and the program's answer to one POST agree. */
  predicate Agree(reply: Reply, answer: Answer) {
    match reply
    case Accepted => answer.Ok?
    case Transient(_) => answer.Raised? && IsTransient(answer.e)
    case Permanent(_) => answer.Raised? && !IsTransient(answer.e)
  }

  function LastStep(reply: Reply): Action {
    match reply
    case Accepted => Remove
    case Transient(_) => Release
    case Permanent(_) => Reject
  }

  /** The steps of one item once it is claimed and stamped. */
  function Steps(content: Content, reply: Reply): seq<Action> {
    if content == Corrupt then [Read, Drop]
    else [Read, Post(reply), LastStep(reply)]
  }

  function Do(s: Queue, p: nat, actions: seq<Action>): Queue
    decreases actions
  {
    if actions == [] then s else Do(DrainerStep(s, p, actions[0]), p, actions[1..])
  }

  lemma ClaimAndStamp(s: Queue, p: nat, b: Base, rest: seq<Base>)
    requires p in s.drainers && s.drainers[p] == Scanning([b] + rest) && Pending(b) in s.dir
    ensures var t := DrainerStep(DrainerStep(s, p, ClaimNext), p, Stamp);
      t.dir == ClaimedDir(s.dir, b, p, s.now) && t == At(s, p, Stamped(b, rest)).(dir := t.dir)
  {
    assert ([b] + rest)[1..] == rest;
  }

  lemma ReadAndDrop(s: Queue, p: nat, b: Base, rest: seq<Base>)
    requires p in s.drainers && s.drainers[p] == Stamped(b, rest) && Claim(b, p) in s.dir
    requires s.dir[Claim(b, p)].content == Corrupt
    ensures var t := DrainerStep(DrainerStep(s, p, Read), p, Drop);
      t.dir == s.dir - {Claim(b, p)} && p in t.drainers && t.drainers[p] == Scanning(rest)
  {
  }

  lemma ReadAndPost(s: Queue, p: nat, b: Base, rest: seq<Base>, reply: Reply)
    requires p in s.drainers && s.drainers[p] == Stamped(b, rest) && Claim(b, p) in s.dir
    requires s.dir[Claim(b, p)].content != Corrupt
    ensures var t := DrainerStep(DrainerStep(s, p, Read), p, Post(reply));
      t.dir == s.dir && p in t.drainers && t.drainers[p] == AfterPost(Posting(b, rest), reply)
  {
  }

  lemma Dispose(s: Queue, p: nat, b: Base, rest: seq<Base>, reply: Reply)
    requires p in s.drainers && s.drainers[p] == AfterPost(Posting(b, rest), reply) && Claim(b, p) in s.dir
    ensures var fate := if reply.Accepted? then Sent else if reply.Transient? then Kept else Refused;
      var t := DrainerStep(s, p, LastStep(reply));
      && t.dir == Resolved(s.dir, b, p, fate)
      && (fate == Kept ==> p !in t.drainers)
      && (fate != Kept ==> p in t.drainers && t.drainers[p] == Scanning(rest))
  {
  }

  /** One item, from the head of the snapshot: the machine's drainer leaves the directory exactly as
      `QueueDir.Replay` does, and goes on unless the item was kept. */
  lemma ItemStepsAreReplay(s: Queue, p: nat, b: Base, rest: seq<Base>, reply: Reply, answer: Answer)
    requires p in s.drainers && s.drainers[p] == Scanning([b] + rest) && Pending(b) in s.dir
    requires Agree(reply, answer)
    ensures var content := s.dir[Pending(b)].content;
      var fate := FateOf(content, answer);
      var t := Do(s, p, [ClaimNext, Stamp] + Steps(content, reply));
      && t.dir == Resolved(ClaimedDir(s.dir, b, p, s.now), b, p, fate)
      && (fate == Kept ==> p !in t.drainers)
      && (fate != Kept ==> p in t.drainers && t.drainers[p] == Scanning(rest))
  {
    var content := s.dir[Pending(b)].content;
    var more := Steps(content, reply);
    ClaimAndStamp(s, p, b, rest);
    var s2 := DrainerStep(DrainerStep(s, p, ClaimNext), p, Stamp);
    DoTwo(s, p, ClaimNext, Stamp, more);
    if content == Corrupt {
      ReadAndDrop(s2, p, b, rest);
      DoTwo(s2, p, Read, Drop, []);
      assert more == [Read, Drop] + [];
    } else {
      ReadAndPost(s2, p, b, rest, reply);
      var s4 := DrainerStep(DrainerStep(s2, p, Read), p, Post(reply));
      Dispose(s4, p, b, rest, reply);
      DoTwo(s2, p, Read, Post(reply), more[2..]);
      assert more == [Read, Post(reply)] + more[2..] && more[2..][1..] == [];
      assert Do(s4, p, more[2..]) == DrainerStep(s4, p, more[2]);
    }
  }

  lemma DoTwo(s: Queue, p: nat, a: Action, b: Action, more: seq<Action>)
    ensures Do(s, p, [a, b] + more) == Do(DrainerStep(DrainerStep(s, p, a), p, b), p, more)
  {
    var l := [a, b] + more;
    assert l[1..][1..] == more && l[1..][0] == b;
    assert Do(DrainerStep(s, p, a), p, l[1..]) == Do(DrainerStep(DrainerStep(s, p, a), p, b), p, more);
  }

  /** One claim the sweep listed: tested and, if it is stale, renamed, and nothing else. */
  lemma ClaimStepsAreSweep(s: Queue, p: nat, n: Name)
    requires p in s.drainers && s.drainers[p].Sweeping? && n in s.drainers[p].todo && n.Claim? && n in s.dir
    ensures var d := s.drainers[p];
      var t := Do(s, p, [SweepTest(n), SweepSteal]);
      && t.dir == (if Stale(s.dir, n, d.since) then Renamed(s.dir, n, Pending(n.base)) else s.dir)
      && p in t.drainers && t.drainers[p] == Sweeping(d.since, d.todo - {n})
  {
    DoTwo(s, p, SweepTest(n), SweepSteal, []);
    assert [SweepTest(n), SweepSteal] == [SweepTest(n), SweepSteal] + [];
  }
}
