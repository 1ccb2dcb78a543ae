/** The query-embedding cache: bounded, least recently used first out, each entry good for `ttl` seconds
    after it was put. Calls are taken one at a time, on a clock that never goes back. */
module QueryCache {
  import opened Options
  import opened Recency

  type Vec = seq<real>

  datatype Query = Query(text: string, model: string)

  datatype Entry = Entry(expires: real, vec: Vec)

  /** When a query was last put, and with which vector. */
  datatype Stamp = Stamp(at: real, vec: Vec)

  type Entries = map<Query, Entry>

  /** Exactly the listed queries are stored, each as it was last put. */
  ghost predicate Filed(keys: seq<Query>, entries: Entries, stamps: map<Query, Stamp>, ttl: real, store: Vec -> Vec) {
    forall k :: (k in entries <==> k in keys) &&
      (k in entries ==> k in stamps && entries[k] == Entry(stamps[k].at + ttl, store(stamps[k].vec)))
  }

  /** Every stored query has been used since the ones before it. */
  ghost predicate Ordered(keys: seq<Query>, touched: seq<Query>) {
    forall i, j :: 0 <= i < j < |keys| ==> keys[j] in OthersSince(touched, keys[i])
  }

  /** A query that was put and is gone was pushed out by `size` others, or has expired. */
  ghost predicate Excused(k: Query, touched: seq<Query>, at: real, size: int, ttl: real, clock: real) {
    |OthersSince(touched, k)| >= size || clock > at + ttl
  }

  ghost predicate Accounted(keys: seq<Query>, touched: seq<Query>, stamps: map<Query, Stamp>, size: int, ttl: real,
                            clock: real) {
    forall k :: k in stamps && k !in keys ==> Excused(k, touched, stamps[k].at, size, ttl, clock)
  }

  lemma SubsetSize<T>(a: set<T>, b: set<T>)
    requires a <= b
    ensures |a| <= |b|
  {
    assert b == a + (b - a);
  }

  lemma OthersGrow(touched: seq<Query>, k: Query, x: Query)
    ensures OthersSince(touched + [x], k) == if x == k then {} else OthersSince(touched, k) + {x}
  {
    assert (touched + [x])[..|touched|] == touched;
  }

  /** Using `x` moves it to the end and keeps the order. */
  lemma TouchOrders(keys: seq<Query>, touched: seq<Query>, x: Query)
    requires Ordered(keys, touched) && Distinct(keys)
    ensures var moved := Without(keys, x) + [x]; Ordered(moved, touched + [x]) && Distinct(moved)
  {
    WithoutIs(keys, x);
    WithoutOrdered(keys, touched, x);
    var w := Without(keys, x);
    var moved := w + [x];
    forall i, j | 0 <= i < j < |moved|
      ensures moved[j] in OthersSince(touched + [x], moved[i])
    {
      assert w[i] in w;
      OthersGrow(touched, moved[i], x);
    }
  }

  lemma {:induction false} WithoutOrdered(keys: seq<Query>, touched: seq<Query>, x: Query)
    requires Ordered(keys, touched) && Distinct(keys)
    ensures Ordered(Without(keys, x), touched)
  {
    if keys != [] {
      WithoutOrdered(keys[1..], touched, x);
      if keys[0] != x {
        var w := Without(keys[1..], x);
        forall j | 0 <= j < |w|
          ensures w[j] in OthersSince(touched, keys[0])
        {
          WithoutIs(keys[1..], x);
          assert w[j] in keys[1..];
          var m :| 0 <= m < |keys[1..]| && keys[1..][m] == w[j];
          assert keys[m + 1] == w[j];
        }
      }
    }
  }

  /** The oldest stored query has seen all others used since. */
  lemma OldestIsExcused(keys: seq<Query>, touched: seq<Query>, size: int)
    requires Ordered(keys, touched) && Distinct(keys) && keys != [] && |keys| > size
    ensures |OthersSince(touched, keys[0])| >= size
  {
    var rest := set k | k in keys[1..];
    SizeOf(keys[1..], rest);
    forall k | k in rest
      ensures k in OthersSince(touched, keys[0])
    {
      var m :| 0 <= m < |keys[1..]| && keys[1..][m] == k;
      assert keys[m + 1] == k;
    }
    SubsetSize(rest, OthersSince(touched, keys[0]));
  }

  lemma PopOldest(keys: seq<Query>, entries: Entries, touched: seq<Query>, stamps: map<Query, Stamp>, ttl: real,
                  store: Vec -> Vec)
    requires Filed(keys, entries, stamps, ttl, store) && Distinct(keys) && Ordered(keys, touched) && keys != []
    ensures Filed(keys[1..], entries - {keys[0]}, stamps, ttl, store)
    ensures Distinct(keys[1..]) && Ordered(keys[1..], touched)
  {
    assert keys == [keys[0]] + keys[1..];
  }

  lemma OldestAccounts(keys: seq<Query>, touched: seq<Query>, stamps: map<Query, Stamp>, size: int, ttl: real,
                       clock: real)
    requires Accounted(keys, touched, stamps, size, ttl, clock) && Ordered(keys, touched) && Distinct(keys)
    requires keys != [] && |keys| > size
    ensures Accounted(keys[1..], touched, stamps, size, ttl, clock)
  {
    OldestIsExcused(keys, touched, size);
    assert keys == [keys[0]] + keys[1..];
  }

  /** Uses of other queries only add to the excuse. */
  lemma TouchAccounts(keys: seq<Query>, touched: seq<Query>, stamps: map<Query, Stamp>, size: int, ttl: real,
                      clock: real, x: Query)
    requires Accounted(keys, touched, stamps, size, ttl, clock)
    ensures Accounted(Without(keys, x) + [x], touched + [x], stamps, size, ttl, clock)
  {
    var moved := Without(keys, x) + [x];
    forall k | k in stamps && k !in moved
      ensures Excused(k, touched + [x], stamps[k].at, size, ttl, clock)
    {
      assert k != x by { assert moved[|moved| - 1] == x; }
      OtherStays(keys, k, x);
      OthersGrow(touched, k, x);
      SubsetSize(OthersSince(touched, k), OthersSince(touched + [x], k));
    }
  }

  lemma {:induction false} OtherStays(keys: seq<Query>, k: Query, x: Query)
    requires k != x
    ensures k in Without(keys, x) <==> k in keys
  {
    if keys != [] {
      OtherStays(keys[1..], k, x);
    }
  }

  class QueryEmbedCache {
    const ttl: real
    const maxsize: int
    const store: Vec -> Vec
    var keys: seq<Query>
    var entries: Entries
    ghost var touched: seq<Query>
    ghost var stamps: map<Query, Stamp>
    ghost var clock: real

    constructor (ttl: real, maxsize: int, store: Vec -> Vec)
      ensures Valid() && this.ttl == ttl && this.maxsize == maxsize && this.store == store && stamps == map[]
    {
      this.ttl, this.maxsize, this.store := ttl, maxsize, store;
      keys, entries, touched, stamps, clock := [], map[], [], map[], 0.0;
    }

    ghost predicate Valid()
      reads this
    {
      && Filed(keys, entries, stamps, ttl, store) && Distinct(keys) && |keys| <= Capacity(maxsize)
      && Ordered(keys, touched) && Accounted(keys, touched, stamps, maxsize, ttl, clock)
    }

    /** A hit is the vector last put, at most `ttl` seconds ago; and such a vector is found as long as
        fewer than `maxsize` other queries have been used since. */
    method Get(k: Query, now: real) returns (v: Option<Vec>)
      requires Valid() && now >= clock
      modifies this
      ensures Valid() && clock == now && stamps == old(stamps)
      ensures v.Some? ==> ttl > 0.0 && k in stamps && now <= stamps[k].at + ttl && v.value == store(stamps[k].vec)
      ensures ttl > 0.0 && k in stamps && now <= stamps[k].at + ttl && |OthersSince(old(touched), k)| < maxsize
        ==> v.Some?
      ensures touched == if v.Some? then old(touched) + [k] else old(touched)
    {
      clock := now;
      if ttl <= 0.0 || k !in entries {
        return None;
      }
      WithoutIs(keys, k);
      var hit := entries[k];
      if hit.expires < now {
        WithoutOrdered(keys, touched, k);
        entries, keys := entries - {k}, Without(keys, k);
        return None;
      }
      TouchOrders(keys, touched, k);
      TouchAccounts(keys, touched, stamps, maxsize, ttl, now, k);
      keys := Without(keys, k) + [k];
      touched := touched + [k];
      return Some(hit.vec);
    }

    /** The eviction loop; under a negative bound it runs out of entries to evict, which raises. */
    method Evict() returns (ok: bool)
      requires Filed(keys, entries, stamps, ttl, store) && Distinct(keys)
      requires Ordered(keys, touched) && Accounted(keys, touched, stamps, maxsize, ttl, clock)
      modifies this`keys, this`entries
      ensures Valid() && (ok <==> maxsize >= 0)
    {
      while |keys| > maxsize
        invariant Filed(keys, entries, stamps, ttl, store) && Distinct(keys)
        invariant Ordered(keys, touched) && Accounted(keys, touched, stamps, maxsize, ttl, clock)
        decreases |keys|
      {
        if keys == [] {
          return false;
        }
        PopOldest(keys, entries, touched, stamps, ttl, store);
        OldestAccounts(keys, touched, stamps, maxsize, ttl, clock);
        entries := entries - {keys[0]};
        keys := keys[1..];
      }
      ok := true;
    }

    method Put(k: Query, vec: Option<Vec>, now: real) returns (ok: bool)
      requires Valid() && now >= clock
      modifies this
      ensures Valid() && clock == now && (ok <==> ttl <= 0.0 || vec.None? || maxsize >= 0)
      ensures var used := ttl > 0.0 && vec.Some?;
        && stamps == (if used then old(stamps)[k := Stamp(now, vec.value)] else old(stamps))
        && touched == if used then old(touched) + [k] else old(touched)
    {
      clock := now;
      if ttl <= 0.0 || vec.None? {
        return true;
      }
      WithoutIs(keys, k);
      TouchOrders(keys, touched, k);
      TouchAccounts(keys, touched, stamps, maxsize, ttl, now, k);
      entries := entries[k := Entry(now + ttl, store(vec.value))];
      keys := Without(keys, k) + [k];
      stamps := stamps[k := Stamp(now, vec.value)];
      touched := touched + [k];
      ok := Evict();
    }
  }
}
