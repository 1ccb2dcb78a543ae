/** The steps of the queue: enqueues, the clock, and every file operation of every drainer, in any
    interleaving, with a crash possible before any of them. */
module QueueSteps {
  import opened QueueState

  /** The item appears under its name at once, by the final rename; its name is unused before. */
  function EnqueueStep(s: Queue, b: Base, content: Content): Queue {
    if b in s.entered then s
    else s.(dir := s.dir[Pending(b) := File(content, s.now)], entered := s.entered[b := content])
  }

  function WaitStep(s: Queue, seconds: nat): Queue {
    s.(now := s.now + seconds)
  }

  // ---- the pieces the steps are made of ---------------------------------------------------

  /** Drainer `p` moves on to `d`. */
  function At(s: Queue, p: nat, d: Drainer): Queue {
    s.(drainers := s.drainers[p := d])
  }

  function Gone(s: Queue, p: nat): Queue {
    s.(drainers := s.drainers - {p})
  }

  /** A claim is renamed away, to its pending name only if its item may be sent again. */
  function Moved(s: Queue, n: Name, to: Name): Queue
    requires n in s.dir
  {
    s.(dir := Renamed(s.dir, n, to))
  }

  function Restamped(s: Queue, n: Name): Queue
    requires n in s.dir
  {
    s.(dir := s.dir[n := s.dir[n].(mtime := s.now)])
  }

  function Deleted(s: Queue, n: Name): Queue {
    s.(dir := s.dir - {n})
  }

  function Booked(s: Queue, b: Base, a: Account): Queue {
    s.(ledger := s.ledger[b := a])
  }

  /** From now on the claim of `b` stands for a write the server already has. */
  function Spent(s: Queue, b: Base): Queue {
    s.(spent := s.spent + {b})
  }

  // ---- the steps --------------------------------------------------------------------------

  /** A drain begins by listing the claims and reading the clock; a pid runs one drain at a time. */
  function StartStep(s: Queue, p: nat): Queue {
    if p in s.drainers then s
    else At(s, p, Sweeping(s.now, set n | n in s.dir && n.Claim?))
  }

  function SweepTestStep(s: Queue, p: nat, d: Drainer, n: Name): Queue
    requires p in s.drainers && d == s.drainers[p]
  {
    if !d.Sweeping? || n !in d.todo then s
    else if n in s.dir && d.since - s.dir[n].mtime >= STALE_CLAIM_AGE then
      At(s, p, Stealing(d.since, d.todo - {n}, n))
    else At(s, p, Sweeping(d.since, d.todo - {n}))
  }

  /** The rename of a claim whose POST is under way, or already committed, sets the item up to be
      sent once more. */
  function StealAccount(s: Queue, n: Name): Account
    requires n.Claim?
  {
    var a := AccountOf(s, n.base);
    var again := n.base in s.spent || (n.pid in s.drainers && InFlight(s.drainers[n.pid], n.base));
    a.(reclaimed := a.reclaimed + 1, doubled := a.doubled + if again then 1 else 0)
  }

  function SweepStealStep(s: Queue, p: nat, d: Drainer): Queue
    requires p in s.drainers && d == s.drainers[p]
  {
    if !d.Stealing? || !d.victim.Claim? then s
    else if d.victim !in s.dir then At(s, p, Sweeping(d.since, d.todo))
    else
      var b := d.victim.base;
      var s1 := Booked(s, b, StealAccount(s, d.victim));
      var s2 := Moved(s1.(spent := s1.spent - {b}), d.victim, Pending(b));
      At(s2, p, Sweeping(d.since, d.todo))
  }

  /** The sweep is over; the pending names are listed in the order the scan will take them. */
  function SweepEndStep(s: Queue, p: nat, d: Drainer, order: seq<Base>): Queue
    requires p in s.drainers && d == s.drainers[p]
  {
    if d.Sweeping? && d.todo == {} then At(s, p, Scanning(order)) else s
  }

  function ClaimStep(s: Queue, p: nat, d: Drainer): Queue
    requires p in s.drainers && d == s.drainers[p]
  {
    if !d.Scanning? || d.rest == [] then s
    else if Pending(d.rest[0]) !in s.dir then At(s, p, Scanning(d.rest[1..]))
    else At(s, p, Claimed(d.rest[0], d.rest[1..]))
         .(dir := Renamed(s.dir, Pending(d.rest[0]), Claim(d.rest[0], p)))
  }

  /** The claim may have been swept away between the rename and the stamp. */
  function StampStep(s: Queue, p: nat, d: Drainer): Queue
    requires p in s.drainers && d == s.drainers[p]
  {
    if !d.Claimed? then s
    else if Claim(d.b, p) !in s.dir then At(s, p, Scanning(d.rest))
    else At(Restamped(s, Claim(d.b, p)), p, Stamped(d.b, d.rest))
  }

  function ReadStep(s: Queue, p: nat, d: Drainer): Queue
    requires p in s.drainers && d == s.drainers[p]
  {
    if !d.Stamped? then s
    else if Claim(d.b, p) in s.dir && s.dir[Claim(d.b, p)].content.Readable? then At(s, p, Posting(d.b, d.rest))
    else At(s, p, Dropping(d.b, d.rest))
  }

  function DropStep(s: Queue, p: nat, d: Drainer): Queue
    requires p in s.drainers && d == s.drainers[p]
  {
    if !d.Dropping? then s
    else At(Deleted(s, Claim(d.b, p)), p, Scanning(d.rest))
  }

  function PostAccount(a: Account, reply: Reply): Account {
    match reply
    case Accepted => a.(accepted := a.accepted + 1)
    case Transient(landed) => if landed then a.(accepted := a.accepted + 1, lost := a.lost + 1) else a
    case Permanent(landed) => if landed then a.(accepted := a.accepted + 1) else a
  }

  function AfterPost(d: Drainer, reply: Reply): Drainer
    requires d.Posting?
  {
    match reply
    case Accepted => Settling(d.b, d.rest)
    case Transient(_) => Releasing(d.b)
    case Permanent(landed) => Rejecting(d.b, landed, d.rest)
  }

  function PostStep(s: Queue, p: nat, d: Drainer, reply: Reply): Queue
    requires p in s.drainers && d == s.drainers[p]
  {
    if !d.Posting? then s
    else
      var t := At(Booked(s, d.b, PostAccount(AccountOf(s, d.b), reply)), p, AfterPost(d, reply));
      if Disposing(AfterPost(d, reply)) && Claim(d.b, p) in s.dir then Spent(t, d.b) else t
  }

  function RemoveStep(s: Queue, p: nat, d: Drainer): Queue
    requires p in s.drainers && d == s.drainers[p]
  {
    if !d.Settling? then s
    else At(Deleted(s, Claim(d.b, p)), p, Scanning(d.rest))
  }

  /** Release the claim, if it is still there, and end the drain. */
  function ReleaseStep(s: Queue, p: nat, d: Drainer): Queue
    requires p in s.drainers && d == s.drainers[p]
  {
    if !d.Releasing? then s
    else if Claim(d.b, p) !in s.dir then Gone(s, p)
    else Gone(Moved(s, Claim(d.b, p), Pending(d.b)), p)
  }

  function RejectStep(s: Queue, p: nat, d: Drainer): Queue
    requires p in s.drainers && d == s.drainers[p]
  {
    if !d.Rejecting? then s
    else if Claim(d.b, p) !in s.dir then At(s, p, Scanning(d.rest))
    else At(Moved(s, Claim(d.b, p), Rejected(d.b)), p, Scanning(d.rest))
  }

  /** Leave the loop: the snapshot is exhausted, or `max_items` was reached. */
  function StopStep(s: Queue, p: nat, d: Drainer): Queue
    requires p in s.drainers && d == s.drainers[p]
  {
    if d.Scanning? then Gone(s, p) else s
  }

  /** The process dies where it stands; its files stay. */
  function CrashStep(s: Queue, p: nat): Queue {
    Gone(s, p)
  }

  function DrainerStep(s: Queue, p: nat, a: Action): Queue {
    if a.Start? then StartStep(s, p)
    else if p !in s.drainers then s
    else
      var d := s.drainers[p];
      match a
      case SweepTest(n) => SweepTestStep(s, p, d, n)
      case SweepSteal => SweepStealStep(s, p, d)
      case SweepEnd(order) => SweepEndStep(s, p, d, order)
      case ClaimNext => ClaimStep(s, p, d)
      case Stamp => StampStep(s, p, d)
      case Read => ReadStep(s, p, d)
      case Drop => DropStep(s, p, d)
      case Post(reply) => PostStep(s, p, d, reply)
      case Remove => RemoveStep(s, p, d)
      case Release => ReleaseStep(s, p, d)
      case Reject => RejectStep(s, p, d)
      case Stop => StopStep(s, p, d)
      case Crash => CrashStep(s, p)
      case Start => s
  }

  function Next(s: Queue, l: Label): Queue {
    match l
    case Enqueue(b, content) => EnqueueStep(s, b, content)
    case Wait(seconds) => WaitStep(s, seconds)
    case Do(p, a) => DrainerStep(s, p, a)
  }

  function Empty(now: int): Queue {
    Queue(map[], now, map[], map[], map[], {})
  }

  /** `states` are what the labels lead through from `start`. */
  ghost predicate IsRun(start: Queue, labels: seq<Label>, states: seq<Queue>) {
    && |states| == |labels| + 1 && states[0] == start
    && forall i {:trigger labels[i]} :: 0 <= i < |labels| ==> states[i + 1] == Next(states[i], labels[i])
  }
}
