/** One drain with the directory to itself: enqueue, the sweep, and the replay in sorted order. */
module QueueDrain {
  import opened Options
  import opened QueueState
  import opened QueueNames
  import opened QueueFiles

  // ---- failure classification -----------------------------------------------------------

  /** The `status_code` or `code` an exception carries. */
  datatype Status = NoStatus | Number(n: int) | Unparsable

  /** What the classifier looks at. `saysDown`: a RuntimeError whose message is one of the two the
      adapter uses for an unreachable server. `mro`: the class names of the exception. */
  datatype Failure = Failure(saysDown: bool, response: Status, code: Status, mro: seq<string>)

  const TRANSIENT_NAMES: set<string> :=
    {"ConnectError", "ConnectTimeout", "ReadTimeout", "WriteTimeout", "PoolTimeout",
     "RemoteProtocolError", "NetworkError", "TimeoutException", "TransportError", "ProtocolError",
     "URLError", "ConnectionError", "ConnectionRefusedError", "ConnectionResetError",
     "OSError", "TimeoutError", "socket.timeout"}

  predicate IsTransient(e: Failure) {
    e.saysDown ||
    var status := if e.response != NoStatus then e.response else e.code;
    match status
    case Number(n) => n >= 500
    case Unparsable => false
    case NoStatus => exists c :: c in e.mro && c in TRANSIENT_NAMES
  }

  /** The server's answer to the POST of one item. */
  datatype Answer = Ok | Raised(e: Failure)

  // ---- sorting --------------------------------------------------------------------------

  ghost predicate Sorted(names: seq<string>) {
    forall i, j :: 0 <= i < j < |names| ==> Before(names[i], names[j])
  }

  lemma {:induction false} BeforeIsTotal(a: string, b: string)
    ensures a == b || Before(a, b) || Before(b, a)
    ensures !(Before(a, b) && Before(b, a)) && !Before(a, a)
  {
    if a != [] {
      BeforeIsTotal(a[1..], a[1..]);
      if b != [] {
        BeforeIsTotal(a[1..], b[1..]);
        assert a == [a[0]] + a[1..] && b == [b[0]] + b[1..];
      }
    }
  }

  lemma {:induction false} BeforeIsTransitive(a: string, b: string, c: string)
    requires Before(a, b) && Before(b, c)
    ensures Before(a, c)
  {
    if a != [] && a[0] == b[0] && b[0] == c[0] {
      BeforeIsTransitive(a[1..], b[1..], c[1..]);
    }
  }

  function Insert(name: string, names: seq<string>): (r: seq<string>)
    ensures forall x :: x in r <==> x == name || x in names
  {
    if names == [] then [name]
    else if Before(name, names[0]) then [name] + names
    else [names[0]] + Insert(name, names[1..])
  }

  lemma {:induction false} InsertKeepsSorted(name: string, names: seq<string>)
    requires Sorted(names) && name !in names
    ensures Sorted(Insert(name, names))
  {
    if names != [] {
      BeforeIsTotal(name, names[0]);
      if Before(name, names[0]) {
        forall j | 0 <= j < |names|
          ensures Before(name, names[j])
        {
          if j > 0 { BeforeIsTransitive(name, names[0], names[j]); }
        }
      } else {
        InsertKeepsSorted(name, names[1..]);
        forall x | x in Insert(name, names[1..])
          ensures Before(names[0], x)
        {
          if x != name {
            var j :| 0 <= j < |names[1..]| && names[1..][j] == x;
            assert names[j + 1] == x;
          }
        }
      }
    }
  }

  /** A sorted snapshot of names that carry their time is in order of time. */
  lemma SnapshotIsFifo(order: seq<Base>, i: nat, j: nat, m1: nat, m2: nat, rest1: string, rest2: string)
    requires Sorted(order) && i < j < |order|
    requires order[i] == BaseOf(m1, rest1) && order[j] == BaseOf(m2, rest2)
    requires |Digits(m1)| == |Digits(m2)|
    ensures m1 <= m2
  {
    if m2 < m1 {
      NamesSortByTime(m2, m1, rest2, rest1);
    }
  }

  // ---- what becomes of an item ------------------------------------------------------------

  datatype Fate = Sent | Refused | Dropped | Kept

  function FateOf(content: Content, answer: Answer): Fate {
    if content == Corrupt then Dropped
    else if answer.Ok? then Sent
    else if IsTransient(answer.e) then Kept
    else Refused
  }

  /** What becomes of an item: one that cannot be read is dropped, one that was accepted is sent. Of the
      failures, a server that is known to be down or answered with 500 or more means another try, any other
      answer does not; `code` is looked at only when there is no response status; with no status at all it
      is another try exactly for the network's own exceptions. */
  lemma FateIs(payload: string, e: Failure, a: Answer)
    ensures FateOf(Corrupt, a) == Dropped && FateOf(Readable(payload), Ok) == Sent
    ensures var fate := FateOf(Readable(payload), Raised(e));
      && (e.saysDown ==> fate == Kept)
      && (!e.saysDown && e.response.Number? ==> fate == if e.response.n >= 500 then Kept else Refused)
      && (!e.saysDown && e.response.Unparsable? ==> fate == Refused)
      && (!e.saysDown && e.response.NoStatus? && e.code.Number? ==> fate == if e.code.n >= 500 then Kept else Refused)
      && (!e.saysDown && e.response.NoStatus? && e.code.Unparsable? ==> fate == Refused)
      && (!e.saysDown && e.response.NoStatus? && e.code.NoStatus? ==>
            fate == if exists c :: c in e.mro &&
                         (c == "ConnectError" || c == "ConnectTimeout" || c == "ReadTimeout" || c == "WriteTimeout"
                          || c == "PoolTimeout" || c == "RemoteProtocolError" || c == "NetworkError"
                          || c == "TimeoutException" || c == "TransportError" || c == "ProtocolError"
                          || c == "URLError" || c == "ConnectionError" || c == "ConnectionRefusedError"
                          || c == "ConnectionResetError" || c == "OSError" || c == "TimeoutError"
                          || c == "socket.timeout")
                    then Kept else Refused)
  {
  }

  /** The server answered the POST, and with a status below 500. */
  predicate AnsweredBelow500(a: Answer) {
    a.Raised? && !a.e.saysDown && a.e.response.Number? && a.e.response.n < 500
  }

  function Tally(fates: seq<Fate>, x: Fate): nat {
    if fates == [] then 0
    else Tally(fates[..|fates| - 1], x) + if fates[|fates| - 1] == x then 1 else 0
  }

  /** The names POSTed, in order: every item but the corrupt ones. */
  function Posted(order: seq<Base>, fates: seq<Fate>): seq<Base>
    requires |order| == |fates|
  {
    if order == [] then []
    else
      var n := |order| - 1;
      Posted(order[..n], fates[..n]) + if fates[n] == Dropped then [] else [order[n]]
  }

  /** The tally of a fate is how many items met it. */
  lemma {:induction false} TallyCounts(fates: seq<Fate>, x: Fate)
    ensures Tally(fates, x) == multiset(fates)[x]
  {
    if fates != [] {
      var n := |fates| - 1;
      TallyCounts(fates[..n], x);
      assert fates == fates[..n] + [fates[n]];
    }
  }

  /** POSTs go out for exactly the items that are not dropped, in the order of the snapshot. */
  lemma {:induction false} PostedIs(order: seq<Base>, fates: seq<Fate>)
    requires |order| == |fates| && Sorted(order)
    ensures Sorted(Posted(order, fates))
    ensures forall b :: b in Posted(order, fates) <==> exists j :: 0 <= j < |order| && order[j] == b && fates[j] != Dropped
  {
    if order != [] {
      var n := |order| - 1;
      var before := Posted(order[..n], fates[..n]);
      PostedIs(order[..n], fates[..n]);
      forall i | 0 <= i < |before|
        ensures Before(before[i], order[n])
      {
        assert before[i] in before;
        var j :| 0 <= j < n && order[..n][j] == before[i];
        assert order[j] == before[i];
      }
      forall b | b in Posted(order, fates)
        ensures exists j :: 0 <= j < |order| && order[j] == b && fates[j] != Dropped
      {
        if b in before {
          var j :| 0 <= j < n && order[..n][j] == b && fates[..n][j] != Dropped;
          assert order[j] == b && fates[j] != Dropped;
        }
      }
      forall j | 0 <= j < |order| && fates[j] != Dropped
        ensures order[j] in Posted(order, fates)
      {
        assert j < n ==> order[..n][j] == order[j] && fates[..n][j] == fates[j];
      }
    }
  }

  lemma {:induction false} TallyAddsUp(fates: seq<Fate>)
    requires Kept !in fates
    ensures Tally(fates, Sent) + Tally(fates, Refused) + Tally(fates, Dropped) == |fates|
  {
    if fates != [] {
      TallyAddsUp(fates[..|fates| - 1]);
    }
  }

  predicate Stale(d: Dir, n: Name, now: int) {
    n in d && n.Claim? && now - d[n].mtime >= STALE_CLAIM_AGE
  }

  function Items(d: Dir): set<Base> {
    set n | n in d :: n.base
  }

  lemma RenameKeepsItems(d: Dir, n: Name, to: Name)
    requires n in d && n.base == to.base
    ensures Items(Renamed(d, n, to)) == Items(d)
  {
    var r := Renamed(d, n, to);
    assert n.base in Items(d) && to in r;
    forall m | m in d
      ensures m.base in Items(r)
    {
      assert m != n ==> m in r;
    }
  }

  /** Where a sweep leaves the file `n`: its stale claims, all but those in `todo`, become pending. */
  function Back(d: Dir, n: Name, now: int, todo: set<Name>): Name {
    if Stale(d, n, now) && n !in todo then Pending(n.base) else n
  }

  /** Directory `t` holds the files of `s`, each where the sweep leaves it, and no others. */
  ghost predicate Swept(s: Dir, t: Dir, now: int, todo: set<Name>) {
    && OneFileEach(t)
    && (forall n :: n in s ==> Back(s, n, now, todo) in t && t[Back(s, n, now, todo)] == s[n])
    && Items(t) == Items(s)
  }

  lemma SweepOne(s: Dir, t: Dir, now: int, todo: set<Name>, n: Name)
    requires OneFileEach(s) && Swept(s, t, now, todo) && n in todo && Stale(s, n, now)
    ensures n in t && Swept(s, Renamed(t, n, Pending(n.base)), now, todo - {n})
  {
    assert Back(s, n, now, todo) == n;
    RenameKeepsFiles(t, n, Pending(n.base));
    RenameKeepsItems(t, n, Pending(n.base));
    var u := Renamed(t, n, Pending(n.base));
    forall m | m in s
      ensures Back(s, m, now, todo - {n}) in u && u[Back(s, m, now, todo - {n})] == s[m]
    {
      assert m != n ==> Back(s, m, now, todo - {n}) == Back(s, m, now, todo);
    }
  }

  lemma SweepBegins(s: Dir, now: int, todo: set<Name>)
    requires OneFileEach(s) && forall n :: n in s && n.Claim? ==> n in todo
    ensures Swept(s, s, now, todo)
  {
  }

  lemma SweepSkips(s: Dir, t: Dir, now: int, todo: set<Name>, n: Name)
    requires Swept(s, t, now, todo) && n in todo && n in s
    ensures n in t && t[n] == s[n]
    ensures !Stale(s, n, now) ==> Swept(s, t, now, todo - {n})
  {
    assert Back(s, n, now, todo) == n;
    if !Stale(s, n, now) {
      forall m | m in s
        ensures Back(s, m, now, todo - {n}) == Back(s, m, now, todo)
      {
      }
    }
  }

  /** The item pending as `b` in `s` met its fate in `t`, with its content unchanged. */
  ghost predicate MetFate(s: Dir, t: Dir, b: Base, fate: Fate) {
    && Pending(b) in s
    && (forall n :: n in t && n.base == b ==>
          && t[n].content == s[Pending(b)].content
          && ((fate == Refused && n == Rejected(b)) || (fate == Kept && n == Pending(b))))
    && (fate == Refused ==> Rejected(b) in t)
    && (fate == Kept ==> Pending(b) in t)
  }

  ghost predicate SameFiles(s: Dir, t: Dir, b: Base) {
    forall n: Name :: n.base == b ==> (n in t <==> n in s) && (n in s ==> t[n] == s[n])
  }

  /** Each item of `order[..|fates|]` met its fate; the next one, if touched at all, is pending again;
      the files of all other items are as they were. */
  ghost predicate Settled(s: Dir, t: Dir, order: seq<Base>, fates: seq<Fate>, touched: nat)
    requires |fates| <= touched <= |order|
  {
    && (forall j :: 0 <= j < |fates| ==> MetFate(s, t, order[j], fates[j]))
    && (forall j :: |fates| <= j < touched ==> MetFate(s, t, order[j], Kept))
    && (forall b :: b !in order[..touched] ==> SameFiles(s, t, b))
  }

  ghost predicate Replayed(t: Dir, u: Dir, b: Base, fate: Fate) {
    MetFate(t, u, b, fate) && forall x :: x != b ==> SameFiles(t, u, x)
  }

  /** The item `b` is claimed and its claim stamped. */
  function ClaimedDir(d: Dir, b: Base, pid: nat, now: int): (r: Dir)
    requires Pending(b) in d
    ensures Claim(b, pid) in r && r[Claim(b, pid)] == d[Pending(b)].(mtime := now)
  {
    var r := Renamed(d, Pending(b), Claim(b, pid));
    r[Claim(b, pid) := r[Claim(b, pid)].(mtime := now)]
  }

  /** Where the claim of `b` goes. */
  function Resolved(d: Dir, b: Base, pid: nat, fate: Fate): Dir
    requires Claim(b, pid) in d
  {
    match fate
    case Sent | Dropped => d - {Claim(b, pid)}
    case Kept => Renamed(d, Claim(b, pid), Pending(b))
    case Refused => Renamed(d, Claim(b, pid), Rejected(b))
  }

  lemma ResolvedIsReplayed(t: Dir, mid: Dir, u: Dir, b: Base, pid: nat, fate: Fate)
    requires Pending(b) in t && Claim(b, pid) in mid && u == Resolved(mid, b, pid, fate)
    requires OneFileEach(mid) && mid[Claim(b, pid)].content == t[Pending(b)].content
    requires forall x :: x != b ==> SameFiles(t, mid, x)
    ensures Replayed(t, u, b, fate)
  {
    forall x | x != b
      ensures SameFiles(t, u, x)
    {
      assert SameFiles(t, mid, x);
    }
  }

  lemma FateIsFramed(s: Dir, t: Dir, u: Dir, b: Base, fate: Fate)
    requires MetFate(s, t, b, fate) && SameFiles(t, u, b)
    ensures MetFate(s, u, b, fate)
  {
  }

  lemma FateFromStart(s: Dir, t: Dir, u: Dir, b: Base, fate: Fate)
    requires SameFiles(s, t, b) && MetFate(t, u, b, fate)
    ensures MetFate(s, u, b, fate)
  {
  }

  lemma SettleOne(s: Dir, t: Dir, u: Dir, order: seq<Base>, fates: seq<Fate>, fate: Fate)
    requires |fates| < |order| && Sorted(order) && Settled(s, t, order, fates, |fates|)
    requires Replayed(t, u, order[|fates|], fate)
    ensures fate == Kept ==> Settled(s, u, order, fates, |fates| + 1)
    ensures fate != Kept ==> Settled(s, u, order, fates + [fate], |fates| + 1)
  {
    var i := |fates|;
    DistinctFromEarlier(order, i);
    assert order[..i + 1] == order[..i] + [order[i]];
    forall j | 0 <= j < i
      ensures MetFate(s, u, order[j], fates[j])
    {
      assert order[j] in order[..i];
      FateIsFramed(s, t, u, order[j], fates[j]);
    }
    FateFromStart(s, t, u, order[i], fate);
    forall b | b !in order[..i + 1]
      ensures SameFiles(s, u, b)
    {
      assert SameFiles(s, t, b) && SameFiles(t, u, b);
    }
  }

  /** The first |fates| items of `order` were read from `start`, answered by `server`, and met their
      fates in `t`, and the three running totals agree with that. */
  ghost predicate Progress(start: Dir, t: Dir, server: Base -> Answer, order: seq<Base>, fates: seq<Fate>,
                           drained: nat, rejected: nat, posts: seq<Base>) {
    && |fates| <= |order| && Kept !in fates && Settled(start, t, order, fates, |fates|)
    && (forall j :: 0 <= j < |fates| ==> Answered(start, server, order[j], fates[j]))
    && drained == Tally(fates, Sent) && rejected == Tally(fates, Refused)
    && posts == Posted(order[..|fates|], fates)
  }

  /** The fate of `b` is what its content and the server's answer say. */
  ghost predicate Answered(start: Dir, server: Base -> Answer, b: Base, fate: Fate) {
    Pending(b) in start && fate == FateOf(start[Pending(b)].content, server(b))
  }

  lemma NextIsAnswered(start: Dir, t: Dir, server: Base -> Answer, order: seq<Base>, fates: seq<Fate>)
    requires |fates| < |order| && Sorted(order) && Settled(start, t, order, fates, |fates|)
    requires forall b :: b in order <==> Pending(b) in start
    ensures var b := order[|fates|];
      Pending(b) in t && Answered(start, server, b, FateOf(t[Pending(b)].content, server(b)))
  {
    var b := order[|fates|];
    DistinctFromEarlier(order, |fates|);
    assert SameFiles(start, t, b);
    assert Pending(b) in start && Pending(b).base == b;
  }

  lemma Advance(start: Dir, t: Dir, u: Dir, server: Base -> Answer, order: seq<Base>, fates: seq<Fate>,
                drained: nat, rejected: nat, posts: seq<Base>, fate: Fate)
    requires |fates| < |order| && Sorted(order) && fate != Kept
    requires Progress(start, t, server, order, fates, drained, rejected, posts)
    requires Answered(start, server, order[|fates|], fate) && Replayed(t, u, order[|fates|], fate)
    ensures Progress(start, u, server, order, fates + [fate],
              drained + (if fate == Sent then 1 else 0), rejected + (if fate == Refused then 1 else 0),
              posts + (if fate == Dropped then [] else [order[|fates|]]))
  {
    SettleOne(start, t, u, order, fates, fate);
    var i := |fates|;
    assert (fates + [fate])[..i] == fates;
    assert order[..i + 1][..i] == order[..i];
  }

  /** How a drain ends: everything settled, the quota of sent items reached and not exceeded, or the next
      item's POST failed transiently, which no answer below 500 is, and that item is pending again. */
  ghost predicate Stopped(start: Dir, t: Dir, server: Base -> Answer, order: seq<Base>, fates: seq<Fate>,
                          drained: nat, rejected: nat, posts: seq<Base>, maxItems: Option<nat>) {
    || (Progress(start, t, server, order, fates, drained, rejected, posts) &&
        (|fates| == |order| || (maxItems.Some? && drained >= maxItems.value)) &&
        (maxItems.Some? ==> drained <= maxItems.value))
    || (&& |fates| < |order| && Kept !in fates && Settled(start, t, order, fates, |fates| + 1)
        && (forall j :: 0 <= j < |fates| ==> Answered(start, server, order[j], fates[j]))
        && Answered(start, server, order[|fates|], Kept) && !AnsweredBelow500(server(order[|fates|]))
        && (maxItems.Some? ==> drained < maxItems.value)
        && drained == Tally(fates, Sent) && rejected == Tally(fates, Refused)
        && posts == Posted(order[..|fates|], fates) + [order[|fates|]])
  }

  lemma KeptStops(start: Dir, t: Dir, u: Dir, server: Base -> Answer, order: seq<Base>, fates: seq<Fate>,
                  drained: nat, rejected: nat, posts: seq<Base>, maxItems: Option<nat>)
    requires |fates| < |order| && Sorted(order)
    requires Progress(start, t, server, order, fates, drained, rejected, posts)
    requires Answered(start, server, order[|fates|], Kept) && Replayed(t, u, order[|fates|], Kept)
    requires maxItems.Some? ==> drained < maxItems.value
    ensures Stopped(start, u, server, order, fates, drained, rejected, posts + [order[|fates|]], maxItems)
  {
    SettleOne(start, t, u, order, fates, Kept);
  }

  class QueueDir {
    var files: Dir

    constructor ()
      ensures files == map[]
    {
      files := map[];
    }

    ghost predicate Valid()
      reads this
    {
      OneFileEach(files)
    }

    method Rename(source: Name, target: Name) returns (ok: bool)
      modifies this
      ensures ok <==> source in old(files)
      ensures files == if ok then Renamed(old(files), source, target) else old(files)
    {
      ok := source in files;
      if ok {
        files := Renamed(files, source, target);
      }
    }

    /** Park one item under a name no other item has. */
    method Enqueue(b: Base, content: Content, now: int)
      requires Valid() && forall n :: n in files ==> n.base != b
      modifies this
      ensures Valid()
      ensures files == old(files)[Pending(b) := File(content, now)]
    {
      files := files[Pending(b) := File(content, now)];
    }

    method ReclaimStaleClaims(now: int)
      requires Valid()
      modifies this
      ensures Valid() && Swept(old(files), files, now, {})
      ensures forall n :: n in old(files) ==>
        var m := if n.Claim? && now - old(files)[n].mtime >= 60 then Pending(n.base) else n;
        m in files && files[m] == old(files)[n]
    {
      ghost var start := files;
      var entries := set n | n in files && n.Claim?;
      SweepBegins(files, now, entries);
      while entries != {}
        invariant Swept(start, files, now, entries)
        invariant forall n :: n in entries ==> n in start && n.Claim?
        decreases entries
      {
        var n :| n in entries;
        SweepSkips(start, files, now, entries, n);
        if now - files[n].mtime >= STALE_CLAIM_AGE {
          SweepOne(start, files, now, entries, n);
          var _ := Rename(n, Pending(n.base));
        }
        entries := entries - {n};
      }
      forall n | n in start
        ensures Back(start, n, now, {}) == if n.Claim? && now - start[n].mtime >= 60 then Pending(n.base) else n
      {
      }
    }

    /** `sorted` over the pending names. */
    method Snapshot() returns (order: seq<Base>)
      ensures Sorted(order) && forall b :: b in order <==> Pending(b) in files
    {
      order := [];
      var names := set n | n in files && n.Pending?;
      while names != {}
        invariant Sorted(order)
        invariant forall n :: n in names ==> n.Pending? && n in files && n.base !in order
        invariant forall b :: Pending(b) in files <==> b in order || Pending(b) in names
        decreases names
      {
        var n :| n in names;
        names := names - {n};
        InsertKeepsSorted(n.base, order);
        order := Insert(n.base, order);
      }
    }

    /** The rename and the stamp that claim one item that is there. */
    method ClaimItem(b: Base, pid: nat, now: int)
      requires Valid() && Pending(b) in files
      modifies this
      ensures Valid() && files == ClaimedDir(old(files), b, pid, now)
      ensures forall x :: x != b ==> SameFiles(old(files), files, x)
    {
      RenameKeepsFiles(files, Pending(b), Claim(b, pid));
      var _ := Rename(Pending(b), Claim(b, pid));
      files := files[Claim(b, pid) := files[Claim(b, pid)].(mtime := now)];
    }

    /** What a drainer does with the claim it holds, by the content and the server's answer. */
    method Resolve(b: Base, pid: nat, answer: Answer) returns (fate: Fate)
      requires Valid() && Claim(b, pid) in files
      modifies this
      ensures Valid() && fate == FateOf(old(files)[Claim(b, pid)].content, answer)
      ensures files == Resolved(old(files), b, pid, fate)
    {
      var claimed := Claim(b, pid);
      RenameKeepsFiles(files, claimed, Pending(b));
      RenameKeepsFiles(files, claimed, Rejected(b));
      if files[claimed].content == Corrupt {
        files := files - {claimed};
        return Dropped;
      }
      match answer {
        case Ok =>
          files := files - {claimed};
          fate := Sent;
        case Raised(e) =>
          if IsTransient(e) {
            var _ := Rename(claimed, Pending(b));
            fate := Kept;
          } else {
            var _ := Rename(claimed, Rejected(b));
            fate := Refused;
          }
      }
    }

    /** Claim, read, POST and settle one item. */
    method Replay(b: Base, pid: nat, now: int, answer: Answer) returns (fate: Fate)
      requires Valid() && Pending(b) in files
      modifies this
      ensures Valid() && fate == FateOf(old(files)[Pending(b)].content, answer)
      ensures Replayed(old(files), files, b, fate)
      ensures files == Resolved(ClaimedDir(old(files), b, pid, now), b, pid, fate)
    {
      ghost var start := files;
      ClaimItem(b, pid, now);
      ghost var mid := files;
      fate := Resolve(b, pid, answer);
      ResolvedIsReplayed(start, mid, files, b, pid, fate);
    }

    /** `server` is what each item's POST would be answered. */
    method Drain(pid: nat, now: int, server: Base -> Answer, maxItems: Option<nat>)
      returns (drained: nat, rejected: nat, posts: seq<Base>,
               ghost start: Dir, ghost order: seq<Base>, ghost fates: seq<Fate>)
      requires Valid()
      modifies this
      ensures Valid() && Swept(old(files), start, now, {})
      ensures Sorted(order) && forall b :: b in order <==> Pending(b) in start
      ensures Stopped(start, files, server, order, fates, drained, rejected, posts, maxItems)
      ensures drained + rejected + Tally(fates, Dropped) + |order[|fates|..]| == |order|
    {
      ReclaimStaleClaims(now);
      start := files;
      var snapshot := Snapshot();
      order, fates := snapshot, [];
      drained, rejected, posts := 0, 0, [];
      var i := 0;
      while i < |snapshot|
        invariant i == |fates| <= |snapshot| && Valid()
        invariant Progress(start, files, server, order, fates, drained, rejected, posts)
        invariant maxItems.Some? ==> drained <= maxItems.value
      {
        if maxItems.Some? && drained >= maxItems.value {
          break;
        }
        var b := snapshot[i];
        NextIsAnswered(start, files, server, order, fates);
        ghost var t := files;
        var fate := Replay(b, pid, now, server(b));
        if fate == Kept {
          KeptStops(start, t, files, server, order, fates, drained, rejected, posts, maxItems);
          posts := posts + [b];
          TallyAddsUp(fates);
          return;
        }
        Advance(start, t, files, server, order, fates, drained, rejected, posts, fate);
        if fate != Dropped {
          posts := posts + [b];
        }
        drained := drained + if fate == Sent then 1 else 0;
        rejected := rejected + if fate == Refused then 1 else 0;
        fates := fates + [fate];
        i := i + 1;
      }
      TallyAddsUp(fates);
    }
  }

  lemma DistinctFromEarlier(order: seq<string>, i: nat)
    requires Sorted(order) && i < |order|
    ensures order[i] !in order[..i] && order[i] !in order[i + 1..]
  {
    BeforeIsTotal(order[i], order[i]);
  }
}
