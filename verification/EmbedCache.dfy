/** The embedding caches: the bounded cache of the ingest embedder, and the short-lived one of queries.
    A vector is stored in single precision (`Service.store`). */
module EmbedCache {
  import opened Options
  import opened Recency

  type Vec = seq<real>

  /** The embedding service, and what storing a vector in single precision makes of it. */
  datatype Service = Service(embed: string -> Vec, store: Vec -> Vec)

  /** What an uncached embedder would return, stored. */
  function Answer(s: Service, text: string): Vec {
    s.store(s.embed(text))
  }

  /** `dict.fromkeys`: the texts without repetitions, in order, that are neither empty nor cached. */
  function Missing(texts: seq<string>, cached: set<string>): seq<string> {
    if texts == [] then []
    else
      var n := |texts| - 1;
      var t := texts[n];
      Missing(texts[..n], cached) + if t != "" && t !in cached && t !in texts[..n] then [t] else []
  }

  /** `b` occurs nowhere up to some occurrence of `a`. */
  ghost predicate FirstComes(texts: seq<string>, a: string, b: string) {
    exists p :: 0 <= p < |texts| && texts[p] == a && b !in texts[..p + 1]
  }

  /** Missing are exactly the texts asked for that are neither empty nor cached, each once and in the order
      of their first occurrences. */
  lemma {:induction false} MissingIs(texts: seq<string>, cached: set<string>)
    ensures var out := Missing(texts, cached);
      && (forall t :: t in out <==> t in texts && t != "" && t !in cached)
      && forall i, j :: 0 <= i < j < |out| ==> out[i] != out[j] && FirstComes(texts, out[i], out[j])
  {
    if texts != [] {
      var n := |texts| - 1;
      var before, all := Missing(texts[..n], cached), Missing(texts, cached);
      MissingIs(texts[..n], cached);
      forall i, j | 0 <= i < j < |all|
        ensures all[i] != all[j] && FirstComes(texts, all[i], all[j])
      {
        assert all[i] == before[i] && before[i] in before;
        if j < |before| {
          var p :| 0 <= p < n && texts[..n][p] == all[i] && all[j] !in texts[..n][..p + 1];
          assert texts[..n][..p + 1] == texts[..p + 1];
        } else {
          var p :| 0 <= p < n && texts[..n][p] == all[i];
          assert texts[..p + 1] <= texts[..n];
        }
      }
    }
  }

  /** Exactly the listed texts are stored, each with its answer. */
  ghost predicate Filed(service: Service, keys: seq<string>, entries: map<string, Vec>) {
    forall t :: (t in entries <==> t in keys) && (t in entries ==> entries[t] == Answer(service, t))
  }

  // ---- texts fetched in chunks ---------------------------------------------------------------

  const CHUNK: nat := 512

  /** How many of n texts the first k chunks hold. */
  function UpTo(n: nat, k: nat): (m: nat)
    ensures m <= n
  {
    if CHUNK * k < n then CHUNK * k else n
  }

  /** k chunks, none of them empty, hold all the texts. */
  predicate Chunked(missing: seq<string>, k: nat) {
    UpTo(|missing|, k) == |missing| && (k > 0 ==> UpTo(|missing|, k - 1) < |missing|)
  }

  /** What is used when chunk k follows upon `gaps[k]`, what other threads used since the last one. */
  function Woven(missing: seq<string>, gaps: seq<seq<string>>): seq<string> {
    if gaps == [] then []
    else
      var k := |gaps| - 1;
      Woven(missing, gaps[..k]) + gaps[k] + missing[UpTo(|missing|, k)..UpTo(|missing|, k + 1)]
  }

  /** With nobody else about, k chunks hold the first 512 * k missing texts in order, and enough chunks hold
      them all. */
  lemma {:induction false} WovenAlone(missing: seq<string>, gaps: seq<seq<string>>)
    requires forall k :: 0 <= k < |gaps| ==> gaps[k] == []
    ensures Woven(missing, gaps) == missing[..if 512 * |gaps| < |missing| then 512 * |gaps| else |missing|]
    ensures Chunked(missing, |gaps|) ==> Woven(missing, gaps) == missing && 512 * |gaps| < |missing| + 512
  {
    if gaps != [] {
      var k := |gaps| - 1;
      WovenAlone(missing, gaps[..k]);
      assert gaps[k] == [];
    }
  }

  lemma WovenOn(before: seq<string>, missing: seq<string>, gaps: seq<seq<string>>, gap: seq<string>)
    ensures before + Woven(missing, gaps + [gap])
         == before + Woven(missing, gaps) + gap + missing[UpTo(|missing|, |gaps|)..UpTo(|missing|, |gaps| + 1)]
  {
    assert (gaps + [gap])[..|gaps|] == gaps;
    Regroup(before, Woven(missing, gaps), gap, missing[UpTo(|missing|, |gaps|)..UpTo(|missing|, |gaps| + 1)]);
  }

  lemma Regroup(a: seq<string>, b: seq<string>, c: seq<string>, d: seq<string>)
    ensures a + (b + c + d) == a + b + c + d
  {
    assert a + (b + c) == a + b + c;
    assert a + ((b + c) + d) == (a + (b + c)) + d;
  }

  lemma Popped(service: Service, keys: seq<string>, entries: map<string, Vec>)
    requires Filed(service, keys, entries) && Distinct(keys) && keys != []
    ensures Filed(service, keys[1..], entries - {keys[0]})
  {
    assert keys == [keys[0]] + keys[1..];
  }

  class CachedEmbedder {
    const service: Service
    const cacheMax: int
    var keys: seq<string>                  // the order of the dictionary
    var entries: map<string, Vec>
    /** Every text put or hit so far. */
    ghost var touched: seq<string>

    constructor (service: Service, cacheMax: int)
      ensures Valid() && this.service == service && this.cacheMax == cacheMax && touched == []
    {
      this.service, this.cacheMax := service, cacheMax;
      keys, entries, touched := [], map[], [];
    }

    /** The cache holds the most recently used texts, with their answers. */
    ghost predicate Valid()
      reads this
    {
      && keys == Last(ByRecency(touched), Capacity(cacheMax))
      && Filed(service, keys, entries)
    }

    /** A text is cached exactly while fewer than `cacheMax` other texts have been used since. */
    lemma CachedIff(text: string)
      requires Valid()
      ensures text in entries <==> text in touched && |OthersSince(touched, text)| < cacheMax
      ensures |keys| <= Capacity(cacheMax)
    {
      RememberedIff(touched, text, Capacity(cacheMax));
    }

    /** The eviction loop. Under a negative bound it runs out of entries to evict, which raises. */
    method Evict() returns (ok: bool)
      requires Filed(service, keys, entries) && Distinct(keys)
      modifies this`keys, this`entries
      ensures Filed(service, keys, entries) && keys == Last(old(keys), Capacity(cacheMax))
      ensures ok <==> cacheMax >= 0
    {
      while |keys| > cacheMax
        invariant Filed(service, keys, entries) && Distinct(keys)
        invariant Last(keys, Capacity(cacheMax)) == Last(old(keys), Capacity(cacheMax))
        decreases |keys|
      {
        if keys == [] {
          return false;
        }
        Popped(service, keys, entries);
        entries := entries - {keys[0]};
        keys := keys[1..];
      }
      ok := true;
    }

    /** `_put` under the lock. */
    method Put(text: string, v: Vec) returns (ok: bool)
      requires Valid() && v == service.embed(text)
      modifies this
      ensures Valid() && touched == old(touched) + [text]
      ensures (ok <==> cacheMax >= 0) && (cacheMax >= 1 ==> text in entries)
    {
      Touching(text);
      WithoutIs(keys, text);
      entries := entries[text := service.store(v)];
      keys := (if text in keys then Without(keys, text) else keys) + [text];
      touched := touched + [text];
      LastKept(keys, cacheMax);
      ok := Evict();
    }

    lemma Touching(text: string)
      requires Valid()
      ensures Distinct(keys)
      ensures var all := (if text in keys then Without(keys, text) else keys) + [text];
        Last(ByRecency(touched + [text]), Capacity(cacheMax)) == Last(all, Capacity(cacheMax))
    {
      assert (touched + [text])[..|touched|] == touched;
      RecencyIs(touched);
      Touch(ByRecency(touched), text, Capacity(cacheMax));
      LastIsDistinct(ByRecency(touched), Capacity(cacheMax));
      WithoutIs(keys, text);
    }

    /** The first locked section of `embed`. */
    method Lookup(text: string) returns (v: Option<Vec>)
      requires Valid()
      modifies this
      ensures Valid() && (v.Some? <==> text in old(entries))
      ensures v.Some? ==> v.value == Answer(service, text)
      ensures touched == if text in old(entries) then old(touched) + [text] else old(touched)
    {
      if text !in entries {
        return None;
      }
      Touching(text);
      WithoutIs(keys, text);
      keys := Without(keys, text) + [text];
      touched := touched + [text];
      return Some(entries[text]);
    }

    /** Whatever other threads do between two locked sections: any number of puts and hits. */
    method Interfere()
      requires Valid()
      modifies this
      ensures Valid() && old(touched) <= touched
    {
      var n: nat := *;
      while n > 0
        invariant Valid() && old(touched) <= touched
      {
        var text: string := *;
        var put: bool := *;
        if put {
          var _ := Put(text, service.embed(text));
        } else {
          var _ := Lookup(text);
        }
        n := n - 1;
      }
    }

    /** Whatever happened before and whatever other threads do meanwhile, the answer is that of the
        uncached embedder; with a bound below one the entry just put is evicted before it is read. */
    method Embed(text: string) returns (v: Option<Vec>)
      requires Valid()
      modifies this
      ensures Valid() && (v.Some? <==> cacheMax >= 1)
      ensures v.Some? ==> v.value == Answer(service, text)
      ensures |keys| <= Capacity(cacheMax)
    {
      CachedIff(text);
      v := Lookup(text);
      if v.None? {
        Interfere();
        var ok := Put(text, service.embed(text));
        v := if ok && text in entries then Some(entries[text]) else None;
      }
      CachedIff(text);
    }

    /** `prime`, with other threads free before each chunk it puts: whatever they use (`gaps`), the texts it
        found missing are put in order, chunk by chunk, so the most recently used ones of all are what is
        cached afterwards. */
    method Prime(texts: seq<string>) returns (ok: bool, ghost gaps: seq<seq<string>>)
      requires Valid()
      modifies this
      ensures Valid() && (ok <==> cacheMax >= 0 || Missing(texts, old(entries.Keys)) == [])
      ensures ok ==> Chunked(Missing(texts, old(entries.Keys)), |gaps|)
      ensures ok ==> touched == old(touched) + Woven(Missing(texts, old(entries.Keys)), gaps)
    {
      var missing := MissingOnes(texts);
      var k := 0;
      gaps := [];
      while CHUNK * k < |missing|
        invariant k == |gaps| && Valid() && touched == old(touched) + Woven(missing, gaps)
        invariant k > 0 ==> CHUNK * (k - 1) < |missing| && cacheMax >= 0
        decreases |missing| - CHUNK * k
      {
        ghost var gap;
        ok, gap := PutNext(missing, k);
        if !ok {
          return;
        }
        WovenOn(old(touched), missing, gaps, gap);
        gaps, k := gaps + [gap], k + 1;
      }
      ok := true;
    }

    /** Chunk k, after whatever other threads did while it was fetched. */
    method PutNext(missing: seq<string>, k: nat) returns (ok: bool, ghost gap: seq<string>)
      requires Valid() && CHUNK * k < |missing|
      modifies this
      ensures Valid() && (ok <==> cacheMax >= 0)
      ensures ok ==> touched == old(touched) + gap + missing[UpTo(|missing|, k)..UpTo(|missing|, k + 1)]
    {
      Interfere();
      gap := touched[|old(touched)|..];
      ok := PutAll(missing[UpTo(|missing|, k)..UpTo(|missing|, k + 1)]);
    }

    /** One chunk, put under one lock. */
    method PutAll(chunk: seq<string>) returns (ok: bool)
      requires Valid() && chunk != []
      modifies this
      ensures Valid() && (ok <==> cacheMax >= 0) && (ok ==> touched == old(touched) + chunk)
    {
      var i := 0;
      ok := true;
      while i < |chunk|
        invariant i <= |chunk| && Valid() && touched == old(touched) + chunk[..i]
        invariant ok && (i > 0 ==> cacheMax >= 0)
      {
        assert chunk[..i + 1] == chunk[..i] + [chunk[i]];
        ok := Put(chunk[i], service.embed(chunk[i]));
        if !ok {
          return;
        }
        i := i + 1;
      }
      assert chunk[..i] == chunk;
    }

    method MissingOnes(texts: seq<string>) returns (out: seq<string>)
      ensures out == Missing(texts, entries.Keys)
    {
      out := [];
      var i := 0;
      while i < |texts|
        invariant i <= |texts| && out == Missing(texts[..i], entries.Keys)
      {
        var t := texts[i];
        assert texts[..i + 1][..i] == texts[..i];
        if t != "" && t !in entries && t !in texts[..i] {
          out := out + [t];
        }
        i := i + 1;
      }
      assert texts[..i] == texts;
    }
  }
}
