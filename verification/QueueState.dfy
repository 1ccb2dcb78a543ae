/** The write-behind queue directory of offline_queue.py and the drainers that share it.

    A directory maps file names to files. A name is one of the three shapes a queued item can take;
    module QueueNames shows how the shapes read as strings. Each drainer is one process, known by
    its pid, at some point of its program. */
module QueueState {

  type Base = string

  datatype Content = Readable(payload: string) | Corrupt

  datatype File = File(content: Content, mtime: int)

  datatype Name = Pending(base: Base) | Claim(base: Base, pid: nat) | Rejected(base: Base)

  type Dir = map<Name, File>

  /** A claim this old is taken to be orphaned. */
  const STALE_CLAIM_AGE: int := 60

  /** A rename keeps the file and its mtime, and replaces whatever `to` was. */
  function Renamed(d: Dir, from: Name, to: Name): Dir
    requires from in d
  {
    (d - {from})[to := d[from]]
  }

  /** How the server, or the network, answered a POST. `landed` says the write was committed even
      though the drainer saw a failure. */
  datatype Reply = Accepted | Transient(landed: bool) | Permanent(landed: bool)

  datatype Drainer =
    | Sweeping(since: int, todo: set<Name>)
    | Stealing(since: int, todo: set<Name>, victim: Name)
    | Scanning(rest: seq<Base>)
    | Claimed(b: Base, rest: seq<Base>)
    | Stamped(b: Base, rest: seq<Base>)
    | Dropping(b: Base, rest: seq<Base>)
    | Posting(b: Base, rest: seq<Base>)
    | Settling(b: Base, rest: seq<Base>)
    | Releasing(b: Base)
    | Rejecting(b: Base, landed: bool, rest: seq<Base>)

  /** The book-keeping of one item: POSTs the server committed, sweep renames of its claim, POSTs
      committed though their sender saw a transient failure, and sweep renames of a claim whose POST
      was under way or had already been committed. */
  datatype Account = Account(accepted: nat, reclaimed: nat, lost: nat, doubled: nat)

  datatype Queue = Queue(
    dir: Dir,
    now: int,
    drainers: map<nat, Drainer>,
    entered: map<Base, Content>,
    ledger: map<Base, Account>,
    spent: set<Base>)

  datatype Action =
    | Start
    | SweepTest(n: Name)
    | SweepSteal
    | SweepEnd(order: seq<Base>)
    | ClaimNext
    | Stamp
    | Read
    | Drop
    | Post(reply: Reply)
    | Remove
    | Release
    | Reject
    | Stop
    | Crash

  datatype Label = Enqueue(b: Base, content: Content) | Wait(seconds: nat) | Do(p: nat, a: Action)

  function AccountOf(s: Queue, b: Base): Account {
    if b in s.ledger then s.ledger[b] else Account(0, 0, 0, 0)
  }

  /** The drainer has claimed `b` and not yet finished with it. */
  predicate Holding(d: Drainer, b: Base) {
    !d.Sweeping? && !d.Stealing? && !d.Scanning? && d.b == b
  }

  /** The drainer has read its claimed `b` and will send it, or is sending it. */
  predicate InFlight(d: Drainer, b: Base) {
    d.Posting? && d.b == b
  }

  /** The drainer has sent its item for good and is only disposing of the file. */
  predicate Disposing(d: Drainer) {
    d.Settling? || (d.Rejecting? && d.landed)
  }

  /** Past the stamp, and not yet done with `b`. */
  predicate PastStamp(d: Drainer, b: Base) {
    Holding(d, b) && !d.Claimed?
  }
}
