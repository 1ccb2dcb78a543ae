/** The capped reranker: the cap derived from a latency budget, and the order in which candidates come
    back. Scores are real numbers. */
module Rerank {
  import opened Options

  datatype Scored = Scored(index: nat, score: real)

  // ---- the cap --------------------------------------------------------------------------------------

  datatype Limits = Limits(budget: real, minCap: int, maxCap: int)

  function Min(a: int, b: int): int {
    if a < b then a else b
  }

  function Max(a: int, b: int): int {
    if a > b then a else b
  }

  /** Milliseconds per pair to the number of candidates the model is fed. */
  function DeriveCap(msPerPair: real, l: Limits): int {
    if msPerPair <= 0.0 then l.maxCap
    else Max(l.minCap, Min(l.maxCap, (l.budget / msPerPair).Floor))
  }

  /** The time k pairs take. */
  function Cost(k: int, ms: real): real {
    k as real * ms
  }

  lemma FloorFits(budget: real, ms: real, c: int)
    requires ms > 0.0
    ensures c <= (budget / ms).Floor <==> Cost(c, ms) <= budget
  {
    var q := budget / ms;
    assert q * ms == budget;
    if c as real <= q {
      assert (q - c as real) * ms >= 0.0;
    } else {
      assert (c as real - q) * ms > 0.0;
    }
  }

  /** The derived cap is within the budget exactly when the smallest allowed cap is, and it is the largest
      allowed cap within it; when even the smallest is not, it is the smallest. */
  lemma CapFitsBudgetIff(ms: real, l: Limits, c: int)
    requires ms > 0.0
    ensures var cap := DeriveCap(ms, l);
      && l.minCap <= cap && (l.minCap <= l.maxCap ==> cap <= l.maxCap)
      && (Cost(cap, ms) <= l.budget <==> Cost(l.minCap, ms) <= l.budget)
      && (Cost(l.minCap, ms) > l.budget ==> cap == l.minCap)
      && (l.minCap <= c <= l.maxCap && Cost(c, ms) <= l.budget ==> c <= cap)
  {
    var cap := DeriveCap(ms, l);
    FloorFits(l.budget, ms, cap);
    FloorFits(l.budget, ms, l.minCap);
    FloorFits(l.budget, ms, c);
  }

  /** How many of n candidates the model is fed: all when the cap is 0 or large enough; a negative cap
      leaves off that many at the end. */
  function HeadLength(n: nat, cap: int): (h: nat)
    ensures h <= n
  {
    if cap == 0 || n <= cap then n
    else if cap > 0 then cap
    else Max(0, n + cap)
  }

  lemma MoreCostsMore(k: int, m: int, ms: real)
    requires k <= m && ms >= 0.0
    ensures Cost(k, ms) <= Cost(m, ms)
  {
    assert (m - k) as real * ms >= 0.0;
  }

  /** The smallest cap is within the budget, and the derived one sets a limit at all: it is at least one
      because the smallest cap is, or because the largest is and one pair is within the budget. */
  predicate Limiting(ms: real, l: Limits) {
    (l.minCap >= 1 || (l.maxCap >= 1 && ms <= l.budget)) && Cost(l.minCap, ms) <= l.budget
  }

  lemma CapIsPositiveIff(ms: real, l: Limits)
    requires ms > 0.0
    ensures DeriveCap(ms, l) >= 1 <==> l.minCap >= 1 || (l.maxCap >= 1 && ms <= l.budget)
  {
    FloorFits(l.budget, ms, 1);
  }

  /** Batches of every size stay within the budget exactly when the settings are limiting ones. */
  lemma BatchesFitIff(ms: real, l: Limits)
    requires ms > 0.0
    ensures (forall n: nat :: Cost(HeadLength(n, DeriveCap(ms, l)), ms) <= l.budget) <==> Limiting(ms, l)
  {
    var cap := DeriveCap(ms, l);
    CapFitsBudgetIff(ms, l, 0);
    CapIsPositiveIff(ms, l);
    if Limiting(ms, l) {
      forall n: nat
        ensures Cost(HeadLength(n, cap), ms) <= l.budget
      {
        MoreCostsMore(HeadLength(n, cap), cap, ms);
      }
    } else if cap >= 1 {
      assert HeadLength(cap, cap) == cap;
    } else {
      var k := Max(0, (l.budget / ms).Floor + 1);
      FloorFits(l.budget, ms, k);
      assert HeadLength(k - cap, cap) == k;
    }
  }

  /** A cap that comes out as 0 or less limits nothing: it leaves off a fixed number of candidates, if any,
      and a batch is within the budget only if what is left happens to be. */
  lemma ZeroCapIsNoCap(n: nat, ms: real, l: Limits)
    requires ms > 0.0 && DeriveCap(ms, l) <= 0
    ensures HeadLength(n, DeriveCap(ms, l)) == Max(0, n + DeriveCap(ms, l))
    ensures Cost(HeadLength(n, DeriveCap(ms, l)), ms) <= l.budget <==>
      Max(0, n + DeriveCap(ms, l)) <= (l.budget / ms).Floor
  {
    FloorFits(l.budget, ms, HeadLength(n, DeriveCap(ms, l)));
  }

  /** At 80 ms a pair and 1500 ms in all, a largest cap of 0 feeds the model all of 100 candidates. */
  lemma LargestCapZero()
    ensures var l := Limits(1500.0, 0, 0);
      && DeriveCap(80.0, l) == 0 && HeadLength(100, DeriveCap(80.0, l)) == 100
      && Cost(HeadLength(100, DeriveCap(80.0, l)), 80.0) == 8000.0 > l.budget
  {
    FloorFits(1500.0, 80.0, 0);
  }

  /** And caps from -5 to -1 feed it all but one. */
  lemma NegativeCaps()
    ensures var l := Limits(1500.0, -5, -1);
      && DeriveCap(80.0, l) == -1 && HeadLength(100, DeriveCap(80.0, l)) == 99
      && Cost(HeadLength(100, DeriveCap(80.0, l)), 80.0) == 7920.0 > l.budget
  {
    FloorFits(1500.0, 80.0, -1);
  }

  // ---- the order --------------------------------------------------------------------------------------

  /** Higher scores first, equal scores in retrieval order. */
  predicate Ahead(a: Scored, b: Scored) {
    a.score > b.score || (a.score == b.score && a.index < b.index)
  }

  ghost predicate Ranked(out: seq<Scored>) {
    forall i, j {:trigger Ahead(out[i], out[j])} :: 0 <= i < j < |out| ==> Ahead(out[i], out[j])
  }

  ghost predicate HasIndex(out: seq<Scored>, k: nat) {
    exists i :: 0 <= i < |out| && out[i].index == k
  }

  /** Every index below n appears in exactly one place. */
  ghost predicate EachOnce(out: seq<Scored>, n: nat) {
    && |out| == n
    && (forall k :: 0 <= k < n ==> HasIndex(out, k))
    && (forall i, j :: 0 <= i < j < |out| ==> out[i].index != out[j].index)
  }

  function Insert(x: Scored, out: seq<Scored>): seq<Scored> {
    if out == [] || out[0].score < x.score then [x] + out else [out[0]] + Insert(x, out[1..])
  }

  /** The stable sort by descending score. */
  function SortDown(scores: seq<real>): seq<Scored> {
    if scores == [] then []
    else
      var n := |scores| - 1;
      Insert(Scored(n, scores[n]), SortDown(scores[..n]))
  }

  function Least(scores: seq<real>): real
    requires scores != []
  {
    var n := |scores| - 1;
    if n == 0 || scores[n] < Least(scores[..n]) then scores[n] else Least(scores[..n])
  }

  /** The score of the j-th of t rows beyond the cap. */
  function TailScore(floor: real, t: nat, j: nat): real
    requires j <= t
  {
    floor * (t - j) as real / (t as real + 1.0)
  }

  /** The rows beyond the cap: retrieval order, scores spread below `floor`. */
  function Tail(h: nat, n: nat, floor: real): seq<Scored>
    requires h <= n
  {
    var t := n - h;
    seq(t, j requires 0 <= j < t => Scored(h + j, TailScore(floor, t, j)))
  }

  function Passthrough(n: nat): seq<Scored> {
    seq(n, i requires 0 <= i < n => Scored(i, 1.0 / (1.0 + i as real)))
  }

  /** `scores`: what the model says of the head, None when it could not be loaded or run. */
  function Reranked(n: nat, cap: int, enabled: bool, scores: Option<seq<real>>): seq<Scored>
    requires scores.Some? ==> |scores.value| == HeadLength(n, cap)
  {
    if n == 0 then []
    else if !enabled || scores.None? then Passthrough(n)
    else
      var s := scores.value;
      if |s| < n then SortDown(s) + Tail(|s|, n, if s == [] then 1.0 else Least(s)) else SortDown(s)
  }

  // ---- sorting ------------------------------------------------------------------------------------------

  lemma {:induction false} InsertIs(x: Scored, out: seq<Scored>)
    requires Ranked(out) && forall i :: 0 <= i < |out| ==> out[i].index < x.index
    ensures Ranked(Insert(x, out)) && |Insert(x, out)| == |out| + 1
    ensures forall y :: y in Insert(x, out) <==> y == x || y in out
  {
    if out != [] && out[0].score >= x.score {
      var rest := out[1..];
      assert Ranked(rest) by {
        forall i, j | 0 <= i < j < |rest|
          ensures Ahead(rest[i], rest[j])
        {
          assert Ahead(out[i + 1], out[j + 1]);
        }
      }
      InsertIs(x, rest);
      var r := Insert(x, rest);
      forall j | 0 <= j < |r|
        ensures Ahead(out[0], r[j])
      {
        assert r[j] in r;
        if r[j] != x {
          var m :| 0 <= m < |rest| && rest[m] == r[j];
          assert Ahead(out[0], out[m + 1]);
        }
      }
      assert Insert(x, out) == [out[0]] + r && out == [out[0]] + rest;
    } else {
      var r := [x] + out;
      forall i, j | 0 <= i < j < |r|
        ensures Ahead(r[i], r[j])
      {
        if i == 0 {
          assert j > 1 ==> Ahead(out[0], out[j - 1]);
        } else {
          assert Ahead(out[i - 1], out[j - 1]);
        }
      }
    }
  }

  lemma {:induction false} SortDownIs(scores: seq<real>)
    ensures Ranked(SortDown(scores)) && |SortDown(scores)| == |scores|
    ensures forall y :: y in SortDown(scores) <==> y.index < |scores| && y.score == scores[y.index]
  {
    if scores != [] {
      var n := |scores| - 1;
      SortDownIs(scores[..n]);
      var out := SortDown(scores[..n]);
      forall i | 0 <= i < |out|
        ensures out[i].index < n
      {
        assert out[i] in out;
      }
      InsertIs(Scored(n, scores[n]), out);
    }
  }

  lemma {:induction false} LeastIs(scores: seq<real>)
    requires scores != []
    ensures Least(scores) in scores && forall s :: s in scores ==> Least(scores) <= s
  {
    var n := |scores| - 1;
    if n > 0 {
      LeastIs(scores[..n]);
      assert scores == scores[..n] + [scores[n]];
    }
  }

  lemma TailScoreShare(floor: real, t: nat, j: nat)
    requires floor > 0.0 && j < t
    ensures 0.0 < TailScore(floor, t, j) < floor
    ensures TailScore(floor, t, j) * (t as real + 1.0) == floor * (t - j) as real
  {
    Share(floor, (t - j) as real, t as real + 1.0);
  }

  lemma TailScoreFalls(floor: real, t: nat, i: nat, j: nat)
    requires floor > 0.0 && i < j <= t
    ensures TailScore(floor, t, i) > TailScore(floor, t, j)
  {
    Spread(floor, (t - i) as real, (t - j) as real, t as real + 1.0);
  }

  /** Below `floor`, and falling. */
  lemma TailIs(h: nat, n: nat, floor: real)
    requires h <= n && floor > 0.0
    ensures var t := Tail(h, n, floor);
      && |t| == n - h && Ranked(t)
      && forall j :: 0 <= j < |t| ==>
           && t[j].index == h + j && 0.0 < t[j].score < floor
           && t[j].score * ((n - h) as real + 1.0) == floor * (n - h - j) as real
  {
    var t := Tail(h, n, floor);
    var m := n - h;
    forall j | 0 <= j < m
      ensures 0.0 < t[j].score < floor && t[j].score * (m as real + 1.0) == floor * (m - j) as real
    {
      TailScoreShare(floor, m, j);
    }
    forall i, j | 0 <= i < j < m
      ensures Ahead(t[i], t[j])
    {
      TailScoreFalls(floor, m, i, j);
    }
  }

  lemma Share(f: real, a: real, b: real)
    requires f > 0.0 && 0.0 < a < b
    ensures 0.0 < f * a / b < f && f * a / b * b == f * a
  {
    assert f * a > 0.0 && f * (b - a) > 0.0;
    assert f * a / b * b == f * a;
  }

  lemma Spread(f: real, x: real, y: real, b: real)
    requires f > 0.0 && b > 0.0 && x > y
    ensures f * x / b > f * y / b
  {
    assert f * (x - y) > 0.0;
    assert f * x / b * b == f * x && f * y / b * b == f * y;
  }

  // ---- the result -----------------------------------------------------------------------------------------

  lemma PassthroughIs(n: nat)
    ensures Ranked(Passthrough(n)) && EachOnce(Passthrough(n), n)
    ensures forall i :: 0 <= i < n ==> Passthrough(n)[i].index == i && Passthrough(n)[i].score > 0.0
    ensures forall i :: 0 <= i < n ==> Passthrough(n)[i].score * (1.0 + i as real) == 1.0
  {
    var out := Passthrough(n);
    forall k | 0 <= k < n
      ensures HasIndex(out, k)
    {
      assert out[k].index == k;
    }
    forall i, j | 0 <= i < j < n
      ensures Ahead(out[i], out[j])
    {
      Falling(1.0 + i as real, 1.0 + j as real);
    }
  }

  lemma Falling(a: real, b: real)
    requires 0.0 < a < b
    ensures 1.0 / a > 1.0 / b
  {
    var x, y := 1.0 / a, 1.0 / b;
    assert x * a == 1.0 && y * b == 1.0 && y > 0.0;
    assert y * (b - a) > 0.0;
  }

  lemma OwnScore(s: seq<real>, i: nat)
    requires i < |SortDown(s)|
    ensures var x := SortDown(s)[i]; x.index < |s| && x.score == s[x.index]
  {
    SortDownIs(s);
    assert SortDown(s)[i] in SortDown(s);
  }

  lemma SortedEachOnce(s: seq<real>)
    ensures EachOnce(SortDown(s), |s|)
  {
    SortDownIs(s);
    var out := SortDown(s);
    forall k | 0 <= k < |s|
      ensures HasIndex(out, k)
    {
      assert Scored(k, s[k]) in out;
    }
    forall i, j | 0 <= i < j < |out|
      ensures out[i].index != out[j].index
    {
      assert Ahead(out[i], out[j]);
      OwnScore(s, i);
      OwnScore(s, j);
    }
  }

  lemma JoinEachOnce(a: seq<Scored>, b: seq<Scored>, n: nat)
    requires EachOnce(a, |a|) && n == |a| + |b| && forall j :: 0 <= j < |b| ==> b[j].index == |a| + j
    requires forall i :: 0 <= i < |a| ==> a[i].index < |a|
    ensures EachOnce(a + b, n)
  {
    var out := a + b;
    forall k | 0 <= k < n
      ensures HasIndex(out, k)
    {
      if k < |a| {
        assert HasIndex(a, k);
        var i :| 0 <= i < |a| && a[i].index == k;
        assert out[i].index == k;
      } else {
        assert out[k].index == k;
      }
    }
  }

  lemma JoinRanked(a: seq<Scored>, b: seq<Scored>, floor: real)
    requires Ranked(a) && Ranked(b)
    requires (forall i :: 0 <= i < |a| ==> a[i].score >= floor) && forall j :: 0 <= j < |b| ==> b[j].score < floor
    ensures Ranked(a + b)
  {
    var out := a + b;
    forall i, j | 0 <= i < j < |out|
      ensures Ahead(out[i], out[j])
    {
      if j < |a| {
        assert Ahead(a[i], a[j]);
      } else if i >= |a| {
        assert Ahead(b[i - |a|], b[j - |a|]);
      }
    }
  }

  /** The scored rows keep the model's scores; the rows beyond the cap come last, in retrieval order,
      strictly below every scored one. */
  ghost predicate TailBelowHead(out: seq<Scored>, s: seq<real>, n: nat) {
    && |s| <= |out| == n
    && (forall i :: 0 <= i < |s| ==> out[i].index < |s| && out[i].score == s[out[i].index])
    && (forall i :: |s| <= i < n ==> out[i].index == i)
    && (forall i, j :: 0 <= i < |s| <= j < n ==> out[j].score < out[i].score)
  }

  /** Whatever the cap, and with or without the model, the reranker returns each index exactly once, best
      first with ties in retrieval order. A positive cap leaves exactly that many candidates with the
      model's own scores, or all if there are no more. */
  lemma RerankIsSound(n: nat, cap: int, enabled: bool, scores: Option<seq<real>>)
    requires scores.Some? ==> |scores.value| == HeadLength(n, cap) && forall s :: s in scores.value ==> s > 0.0
    ensures var out := Reranked(n, cap, enabled, scores);
      && EachOnce(out, n) && Ranked(out)
      && (forall i :: 0 <= i < n ==> out[i].score > 0.0)
      && (enabled && scores.Some? ==>
            && TailBelowHead(out, scores.value, n)
            && (cap > 0 ==> |scores.value| == Min(n, cap)) && (cap == 0 ==> |scores.value| == n))
      && (!enabled || scores.None? ==> forall i :: 0 <= i < n ==> out[i].index == i)
  {
    if enabled && scores.Some? {
      HeadAndTail(n, scores.value);
    } else {
      PassthroughIs(n);
    }
  }

  lemma JoinTail(a: seq<Scored>, b: seq<Scored>, s: seq<real>, n: nat, floor: real)
    requires |a| == |s| && n == |a| + |b| && floor > 0.0
    requires forall i :: 0 <= i < |a| ==> a[i].index < |s| && a[i].score == s[a[i].index] && a[i].score >= floor
    requires forall j :: 0 <= j < |b| ==> b[j].index == |s| + j && 0.0 < b[j].score < floor
    ensures TailBelowHead(a + b, s, n) && forall i :: 0 <= i < n ==> (a + b)[i].score > 0.0
  {
  }

  lemma HeadAndTail(n: nat, s: seq<real>)
    requires |s| <= n && forall x :: x in s ==> x > 0.0
    ensures var out := SortDown(s) + Tail(|s|, n, if s == [] then 1.0 else Least(s));
      && EachOnce(out, n) && Ranked(out) && TailBelowHead(out, s, n)
      && (forall i :: 0 <= i < n ==> out[i].score > 0.0) && (|s| == n ==> out == SortDown(s))
  {
    var floor := if s == [] then 1.0 else Least(s);
    var a, b := SortDown(s), Tail(|s|, n, floor);
    SortDownIs(s);
    SortedEachOnce(s);
    if s != [] {
      LeastIs(s);
    }
    forall i | 0 <= i < |a|
      ensures a[i].index < |s| && a[i].score == s[a[i].index] && a[i].score >= floor
    {
      OwnScore(s, i);
      assert s[a[i].index] in s;
    }
    TailIs(|s|, n, floor);
    JoinEachOnce(a, b, n);
    JoinRanked(a, b, floor);
    JoinTail(a, b, s, n, floor);
  }

  // ---- calibration ------------------------------------------------------------------------------------------

  /** A timing sample is the true cost plus noise, so the smaller of two is still no less than the true
      cost: under limiting settings a cap derived from it keeps every batch within the budget. */
  lemma CalibratedBatchFits(n: nat, trueMs: real, ms1: real, ms2: real, l: Limits)
    requires 0.0 < trueMs <= ms1 && trueMs <= ms2 && Limiting(Lower(ms1, ms2), l)
    ensures Cost(HeadLength(n, DeriveCap(Lower(ms1, ms2), l)), trueMs) <= l.budget
  {
    var ms := Lower(ms1, ms2);
    BatchesFitIff(ms, l);
    SlowerCostsMore(HeadLength(n, DeriveCap(ms, l)), trueMs, ms);
  }

  function Lower(a: real, b: real): real {
    if b < a then b else a
  }

  lemma SlowerCostsMore(k: int, x: real, y: real)
    requires k >= 0 && x <= y
    ensures Cost(k, x) <= Cost(k, y)
  {
    assert k as real * (y - x) >= 0.0;
  }

  class Calibration {
    var measured: Option<real>
    var effective: Option<int>
    var ready: bool

    constructor ()
      ensures measured == None && effective == None && !ready && forall c :: Cap(None, c) == c
    {
      measured, effective, ready := None, None, false;
    }

    /** An operator's cap wins, then the calibrated one; before calibration the smallest is used. */
    function Cap(explicit: Option<int>, minCap: int): int
      reads this
    {
      if explicit.Some? then Max(0, explicit.value)
      else if effective.Some? then effective.value
      else minCap
    }

    /** `cap` is the largest allowed cap within the budget at `ms`, or the smallest if none is. */
    static ghost predicate BestCap(cap: int, ms: real, l: Limits) {
      && l.minCap <= cap && (l.minCap <= l.maxCap ==> cap <= l.maxCap)
      && (if Cost(l.minCap, ms) > l.budget then cap == l.minCap else Cost(cap, ms) <= l.budget)
      && forall c :: l.minCap <= c <= l.maxCap && Cost(c, ms) <= l.budget ==> c <= cap
    }

    /** The background prewarm, which an operator's cap overrides: `samples` are its two timings, None when loading or running the model
        raised. It never leaves the server waiting. After two samples the cap in force is the best one
        for the smaller of them, so under limiting settings no batch of any size outlasts the budget at
        a true cost that neither sample understates. */
    method Prewarm(enabled: bool, samples: Option<(real, real)>, l: Limits)
      modifies this
      ensures ready && forall c, m :: Cap(Some(c), m) == if c >= 0 then c else 0
      ensures !enabled || samples.None? ==> measured == old(measured) && effective == old(effective)
      ensures enabled && samples.Some? ==>
        && measured.Some? && measured.value in {samples.value.0, samples.value.1}
        && measured.value <= samples.value.0 && measured.value <= samples.value.1
        && (measured.value > 0.0 ==> BestCap(Cap(None, l.minCap), measured.value, l))
        && (measured.value <= 0.0 ==> Cap(None, l.minCap) == l.maxCap)
      ensures enabled && samples.Some? && measured.value > 0.0 && Limiting(measured.value, l) ==>
        forall n: nat, trueMs: real :: 0.0 < trueMs <= measured.value ==>
          Cost(HeadLength(n, Cap(None, l.minCap)), trueMs) <= l.budget
    {
      if enabled && samples.Some? {
        var ms := Lower(samples.value.0, samples.value.1);
        measured := Some(ms);
        effective := Some(DeriveCap(ms, l));
        PrewarmedIsBest(ms, l);
        if ms > 0.0 && Limiting(ms, l) {
          forall n: nat, trueMs: real | 0.0 < trueMs <= ms
            ensures Cost(HeadLength(n, DeriveCap(ms, l)), trueMs) <= l.budget
          {
            CalibratedBatchFits(n, trueMs, samples.value.0, samples.value.1, l);
          }
        }
      }
      ready := true;
    }

    static lemma PrewarmedIsBest(ms: real, l: Limits)
      ensures ms > 0.0 ==> BestCap(DeriveCap(ms, l), ms, l)
    {
      if ms > 0.0 {
        CapFitsBudgetIff(ms, l, l.minCap);
        forall c | l.minCap <= c <= l.maxCap && Cost(c, ms) <= l.budget
          ensures c <= DeriveCap(ms, l)
        {
          CapFitsBudgetIff(ms, l, c);
        }
      }
    }
  }
}
