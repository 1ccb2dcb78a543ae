/** Orders of recency: what an ordered dictionary of bounded size remembers, when every use of a key moves
    it to the end and the oldest key goes first. */
module Recency {
  function Without<T(==)>(keys: seq<T>, k: T): seq<T> {
    if keys == [] then []
    else if keys[0] == k then Without(keys[1..], k)
    else [keys[0]] + Without(keys[1..], k)
  }

  /** The distinct keys asked about, by their last question, oldest first. */
  function ByRecency<T(==)>(asked: seq<T>): seq<T> {
    if asked == [] then [] else Without(ByRecency(asked[..|asked| - 1]), asked[|asked| - 1]) + [asked[|asked| - 1]]
  }

  /** The last `cap` of them. */
  function Last<T>(keys: seq<T>, cap: int): (r: seq<T>)
    ensures |r| <= |keys| && (cap >= 0 ==> |r| <= cap) && forall x :: x in r ==> x in keys
  {
    if keys == [] || |keys| <= cap then keys else Last(keys[1..], cap)
  }

  ghost predicate Distinct<T>(keys: seq<T>) {
    forall i, j :: 0 <= i < j < |keys| ==> keys[i] != keys[j]
  }

  /** The other keys asked about since the last question about `k`. */
  function OthersSince<T(==)>(asked: seq<T>, k: T): set<T> {
    if asked == [] || asked[|asked| - 1] == k then {}
    else OthersSince(asked[..|asked| - 1], k) + {asked[|asked| - 1]}
  }

  // ---- orders of recency ----------------------------------------------------------------------------

  lemma {:induction false} WithoutIs<T>(keys: seq<T>, k: T)
    requires Distinct(keys)
    ensures Distinct(Without(keys, k)) && forall x :: x in Without(keys, k) <==> x in keys && x != k
    ensures |Without(keys, k)| == |keys| - (if k in keys then 1 else 0)
  {
    if keys != [] {
      WithoutIs(keys[1..], k);
      assert keys == [keys[0]] + keys[1..];
      assert keys[0] !in keys[1..];
    }
  }

  lemma {:induction false} RecencyIs<T>(asked: seq<T>)
    ensures Distinct(ByRecency(asked)) && forall x :: x in ByRecency(asked) <==> x in asked
  {
    if asked != [] {
      var n := |asked| - 1;
      RecencyIs(asked[..n]);
      WithoutIs(ByRecency(asked[..n]), asked[n]);
      assert asked == asked[..n] + [asked[n]];
    }
  }

  /** The keys after `k`. */
  function After<T(==)>(keys: seq<T>, k: T): seq<T> {
    if keys == [] then [] else if keys[0] == k then keys[1..] else After(keys[1..], k)
  }

  lemma {:induction false} AfterTouch<T>(keys: seq<T>, k: T, x: T)
    requires k in keys && x != k
    ensures After(Without(keys, x) + [x], k) == Without(After(keys, k), x) + [x]
  {
    var w := Without(keys[1..], x) + [x];
    if keys[0] == k {
      assert Without(keys, x) + [x] == [k] + w;
    } else {
      AfterTouch(keys[1..], k, x);
      assert keys[0] != x ==> Without(keys, x) + [x] == [keys[0]] + w;
    }
  }

  lemma {:induction false} AfterLast<T>(keys: seq<T>, k: T)
    requires k !in keys
    ensures After(keys + [k], k) == []
  {
    if keys != [] {
      AfterLast(keys[1..], k);
      assert (keys + [k])[1..] == keys[1..] + [k];
    } else {
      assert ([] + [k])[1..] == [];
    }
  }

  lemma {:induction false} AfterIsDistinct<T>(keys: seq<T>, k: T)
    requires Distinct(keys)
    ensures Distinct(After(keys, k))
  {
    if keys != [] {
      AfterIsDistinct(keys[1..], k);
    }
  }

  /** What follows `k` in order of recency are the other keys asked about since. */
  lemma {:induction false} AfterIsOthers<T>(asked: seq<T>, k: T)
    requires k in asked
    ensures forall x :: x in After(ByRecency(asked), k) <==> x in OthersSince(asked, k)
  {
    var n := |asked| - 1;
    var r := ByRecency(asked[..n]);
    RecencyIs(asked[..n]);
    WithoutIs(r, asked[n]);
    if asked[n] == k {
      AfterLast(Without(r, k), k);
    } else {
      AfterIsOthers(asked[..n], k);
      AfterTouch(r, k, asked[n]);
      AfterIsDistinct(r, k);
      WithoutIs(After(r, k), asked[n]);
    }
  }

  lemma {:induction false} SizeOf<T>(keys: seq<T>, s: set<T>)
    requires Distinct(keys) && forall x :: x in keys <==> x in s
    ensures |s| == |keys|
  {
    if keys != [] {
      var rest := s - {keys[0]};
      assert keys == [keys[0]] + keys[1..];
      SizeOf(keys[1..], rest);
      assert s == rest + {keys[0]};
    }
  }

  lemma {:induction false} LastHas<T>(keys: seq<T>, k: T, cap: int)
    requires Distinct(keys) && k in keys
    ensures k in Last(keys, cap) <==> |After(keys, k)| < cap
  {
    if |keys| > cap {
      if keys[0] == k {
        assert k !in keys[1..];
      } else {
        LastHas(keys[1..], k, cap);
      }
    } else {
      AfterIsShorter(keys, k);
    }
  }

  lemma {:induction false} AfterIsShorter<T>(keys: seq<T>, k: T)
    requires keys != []
    ensures |After(keys, k)| < |keys|
  {
    if keys[0] != k && keys[1..] != [] {
      AfterIsShorter(keys[1..], k);
    }
  }

  /** Asking about `k` moves it to the end, or appends it and forgets the oldest key. */
  lemma {:induction false} Touch<T>(keys: seq<T>, k: T, cap: nat)
    requires Distinct(keys)
    ensures var kept := Last(keys, cap);
      Last(Without(keys, k) + [k], cap) ==
        if k in kept then Without(kept, k) + [k]
        else if |kept| + 1 > cap then (kept + [k])[1..]
        else kept + [k]
  {
    WithoutIs(keys, k);
    var moved := Without(keys, k) + [k];
    if |keys| > cap {
      Touch(keys[1..], k, cap);
      assert keys[0] !in keys[1..];
      if keys[0] != k {
        assert moved[1..] == Without(keys[1..], k) + [k];
      } else {
        WithoutIs(keys[1..], k);
        NothingWithout(keys[1..], k);
      }
    } else if k !in keys {
      NothingWithout(keys, k);
      assert |keys| == cap ==> Last(moved, cap) == Last(moved[1..], cap) == moved[1..];
    }
  }

  lemma {:induction false} NothingWithout<T>(keys: seq<T>, k: T)
    requires k !in keys
    ensures Without(keys, k) == keys
  {
    if keys != [] {
      NothingWithout(keys[1..], k);
    }
  }

  /** The filter remembers exactly the keys with fewer than `cap` other keys asked about since. */
  lemma RememberedIff<T>(asked: seq<T>, k: T, cap: int)
    ensures k in Last(ByRecency(asked), cap) <==> k in asked && |OthersSince(asked, k)| < cap
  {
    RecencyIs(asked);
    if k in asked {
      LastHas(ByRecency(asked), k, cap);
      AfterIsOthers(asked, k);
      AfterIsDistinct(ByRecency(asked), k);
      SizeOf(After(ByRecency(asked), k), OthersSince(asked, k));
    }
  }

  lemma {:induction false} LastIsDistinct<T>(keys: seq<T>, cap: int)
    requires Distinct(keys)
    ensures Distinct(Last(keys, cap))
  {
    if |keys| > cap && keys != [] {
      LastIsDistinct(keys[1..], cap);
    }
  }

  lemma {:induction false} LastKept<T>(keys: seq<T>, cap: int)
    requires keys != []
    ensures cap >= 1 ==> keys[|keys| - 1] in Last(keys, cap)
  {
    if |keys| > cap && |keys| > 1 {
      LastKept(keys[1..], cap);
    }
  }

  function Capacity(cap: int): nat {
    if cap < 0 then 0 else cap
  }
}
