/** The duplicate filter of the capture proxy, an ordered dictionary used as a least-recently-used set. */
module Lru {
  import opened Recency

  class Cache {
    const cap: int
    var keys: seq<string>
    ghost var asked: seq<string>

    constructor (cap: int)
      ensures Valid() && this.cap == cap && asked == []
    {
      this.cap := cap;
      keys, asked := [], [];
    }

    ghost predicate Valid()
      reads this
    {
      keys == Last(ByRecency(asked), Capacity(cap))
    }

    /** Whether the key was asked about before, with fewer than `cap` distinct other keys since. */
    method Seen(key: string) returns (r: bool)
      requires Valid()
      modifies this
      ensures Valid() && asked == old(asked) + [key]
      ensures r <==> key in old(asked) && |OthersSince(old(asked), key)| < cap
      ensures |keys| <= Capacity(cap)
    {
      RememberedIff(asked, key, Capacity(cap));
      RecencyIs(asked);
      Touch(ByRecency(asked), key, Capacity(cap));
      ghost var next := asked + [key];
      assert next[..|next| - 1] == asked;
      asked := next;
      if key in keys {
        keys := Without(keys, key) + [key];
        return true;
      }
      keys := keys + [key];
      if |keys| > cap {
        keys := keys[1..];
      }
      return false;
    }
  }
}
