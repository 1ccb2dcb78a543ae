/** How queue names read as strings: the suffixes that mark a claim or a rejection, the pattern the
    sweep looks for, and the order in which sorted names put the items. */
module QueueNames {
  import opened Options
  import opened QueueState

  // ---- decimal numbers ------------------------------------------------------------------

  predicate IsDigit(c: char) {
    '0' <= c <= '9'
  }

  function Digit(d: nat): char
    requires d < 10
  {
    ('0' as int + d) as char
  }

  function Digits(n: nat): (s: string)
    ensures s != [] && forall i :: 0 <= i < |s| ==> IsDigit(s[i])
  {
    if n < 10 then [Digit(n)] else Digits(n / 10) + [Digit(n % 10)]
  }

  function DigitValue(c: char): (d: nat)
    requires IsDigit(c)
    ensures d < 10
  {
    c as int - '0' as int
  }

  function Value(s: string): nat
    requires forall i :: 0 <= i < |s| ==> IsDigit(s[i])
  {
    if s == [] then 0
    else Value(s[..|s| - 1]) * 10 + DigitValue(s[|s| - 1])
  }

  lemma {:induction false} ValueOfDigits(n: nat)
    ensures Value(Digits(n)) == n
  {
    if n >= 10 {
      ValueOfDigits(n / 10);
      assert Digits(n)[..|Digits(n)| - 1] == Digits(n / 10);
    } else {
      assert [Digit(n)][..0] == [];
    }
  }

  lemma SameSplit(q: nat, c: nat, r: nat, d: nat)
    requires q * 10 + c == r * 10 + d && c < 10 && d < 10
    ensures q == r && c == d
  {
  }

  lemma ValueSplits(s: string)
    requires s != [] && forall i :: 0 <= i < |s| ==> IsDigit(s[i])
    ensures Value(s) == Value(s[..|s| - 1]) * 10 + DigitValue(s[|s| - 1])
  {
  }

  /** Digit strings of one length that have the same value are the same. */
  lemma {:induction false} ValueIsInjective(x: string, y: string)
    requires |x| == |y|
    requires (forall i :: 0 <= i < |x| ==> IsDigit(x[i])) && (forall i :: 0 <= i < |y| ==> IsDigit(y[i]))
    requires Value(x) == Value(y)
    ensures x == y
  {
    if x != [] {
      var n := |x| - 1;
      ValueSplits(x);
      ValueSplits(y);
      SameSplit(Value(x[..n]), DigitValue(x[n]), Value(y[..n]), DigitValue(y[n]));
      ValueIsInjective(x[..n], y[..n]);
      assert x[n] == y[n];
      assert x == x[..n] + [x[n]] && y == y[..n] + [y[n]];
    }
  }

  // ---- the three shapes -------------------------------------------------------------------

  const CLAIMING: string := ".claiming-"

  function Text(n: Name): string {
    match n
    case Pending(base) => base
    case Claim(base, pid) => base + CLAIMING + Digits(pid)
    case Rejected(base) => base + ".rejected"
  }

  /** The three shapes of one item's name, spelled out. */
  lemma NamesSpelled()
    ensures Text(Pending("9_me_ab.json")) == "9_me_ab.json"
    ensures Text(Claim("9_me_ab.json", 47)) == "9_me_ab.json.claiming-47"
    ensures Text(Rejected("9_me_ab.json")) == "9_me_ab.json.rejected"
  {
    assert Digits(4) == "4" && Digits(47) == "47";
  }

  /** The scan's filter. */
  predicate IsJson(s: string) {
    |s| >= 5 && s[|s| - 5..] == ".json"
  }

  predicate IsClaimSuffix(s: string) {
    |s| > |CLAIMING| && s[..|CLAIMING|] == CLAIMING && forall i :: |CLAIMING| <= i < |s| ==> IsDigit(s[i])
  }

  /** The sweep's search: the first position from `i` on at which the rest reads as a claim suffix. */
  function ClaimStart(s: string, i: nat): (r: Option<nat>)
    requires i <= |s|
    ensures r.Some? ==> i <= r.value < |s| && IsClaimSuffix(s[r.value..])
    ensures forall j :: i <= j < (if r.Some? then r.value else |s|) ==> !IsClaimSuffix(s[j..])
    decreases |s| - i
  {
    if i == |s| then None
    else if IsClaimSuffix(s[i..]) then Some(i)
    else ClaimStart(s, i + 1)
  }

  /** A claim suffix has its only dot in front. */
  lemma NoSuffixBeforeDot(s: string, j: nat, k: nat)
    requires j < k < |s| && s[k] == '.'
    ensures !IsClaimSuffix(s[j..])
  {
    var t := s[j..];
    assert t[k - j] == '.';
    assert k - j < |t| && (|t| >= |CLAIMING| > k - j ==> t[..|CLAIMING|][k - j] == '.');
  }

  /** The sweep finds the claim suffix exactly where the claim put it, so what it renames back to is
      the item's own name, whatever that name contains. */
  lemma ClaimTextParses(b: Base, p: nat)
    ensures ClaimStart(Text(Claim(b, p)), 0) == Some(|b|)
  {
    var s := Text(Claim(b, p));
    assert s[|b|..] == CLAIMING + Digits(p);
    assert IsClaimSuffix(s[|b|..]);
    var r := ClaimStart(s, 0);
    assert r.Some?;
    if r.value < |b| {
      NoSuffixBeforeDot(s, r.value, |b|);
    }
  }

  lemma JsonEndsInN(s: string)
    ensures IsJson(s) ==> s[|s| - 1] == 'n'
  {
    assert IsJson(s) ==> s[|s| - 1] == s[|s| - 5..][4];
  }

  /** The scan's filter and the sweep's pattern tell the three shapes apart. */
  lemma ShapesAreDistinct(n: Name)
    requires IsJson(n.base)
    ensures IsJson(Text(n)) <==> n.Pending?
    ensures ClaimStart(Text(n), 0).Some? <==> n.Claim?
  {
    var s := Text(n);
    JsonEndsInN(s);
    match n
    case Claim(b, p) =>
      ClaimTextParses(b, p);
    case Pending(b) =>
      NoClaimUnlessDigitLast(s);
    case Rejected(b) =>
      assert s[|s| - 1] == 'd';
      NoClaimUnlessDigitLast(s);
  }

  lemma NoClaimUnlessDigitLast(s: string)
    requires s != [] && !IsDigit(s[|s| - 1])
    ensures ClaimStart(s, 0) == None
  {
  }

  /** Two names read the same only when they are the same, so a directory of strings is a directory
      of names. */
  lemma TextIsInjective(m: Name, n: Name)
    requires IsJson(m.base) && IsJson(n.base) && Text(m) == Text(n)
    ensures m == n
  {
    ShapesAreDistinct(m);
    ShapesAreDistinct(n);
    var s := Text(m);
    if m.Claim? {
      ClaimTextParses(m.base, m.pid);
      ClaimTextParses(n.base, n.pid);
      assert s[..|m.base|] == m.base && s[..|n.base|] == n.base;
      assert s[|m.base| + |CLAIMING|..] == Digits(m.pid) && s[|n.base| + |CLAIMING|..] == Digits(n.pid);
      ValueOfDigits(m.pid);
      ValueOfDigits(n.pid);
    } else if m.Rejected? {
      assert s[..|s| - 9] == m.base && s[..|s| - 9] == n.base;
    }
  }

  // ---- the order of sorted names ------------------------------------------------------------

  /** Comparison of strings by code points. */
  predicate Before(a: string, b: string) {
    b != [] && (a == [] || a[0] < b[0] || (a[0] == b[0] && Before(a[1..], b[1..])))
  }

  lemma {:induction false} BeforePastPrefix(x: string, a: string, b: string)
    ensures Before(x + a, x + b) <==> Before(a, b)
  {
    if x == [] {
      assert x + a == a && x + b == b;
    } else {
      BeforePastPrefix(x[1..], a, b);
      assert (x + a)[1..] == x[1..] + a && (x + b)[1..] == x[1..] + b;
    }
  }

  /** Digit strings of one length compare as their values do, whatever follows them. */
  lemma {:induction false} DigitsCompareByValue(x: string, y: string, a: string, b: string)
    requires |x| == |y|
    requires (forall i :: 0 <= i < |x| ==> IsDigit(x[i])) && (forall i :: 0 <= i < |y| ==> IsDigit(y[i]))
    requires Value(x) < Value(y)
    ensures Before(x + a, y + b) && !Before(y + b, x + a)
  {
    var x0, y0 := x[..|x| - 1], y[..|y| - 1];
    var c, d := x[|x| - 1..], y[|y| - 1..];
    assert x + a == x0 + (c + a) && y + b == y0 + (d + b);
    if Value(x0) < Value(y0) {
      DigitsCompareByValue(x0, y0, c + a, d + b);
    } else {
      ValueIsInjective(x0, y0);
      BeforePastPrefix(x0, c + a, d + b);
      BeforePastPrefix(x0, d + b, c + a);
    }
  }

  /** An item enqueued at epoch-millisecond `ms`. */
  function BaseOf(ms: nat, rest: string): Base {
    Digits(ms) + "_" + rest
  }

  /** The first digits of `ms`, as many as `k`. */
  function Leading(ms: nat, k: nat): nat
    requires k <= |Digits(ms)|
  {
    Value(Digits(ms)[..k])
  }

  /** Digit strings of one length decide the comparison unless they are the same. */
  lemma DigitsOrder(x: string, y: string, a: string, b: string)
    requires |x| == |y|
    requires (forall i :: 0 <= i < |x| ==> IsDigit(x[i])) && (forall i :: 0 <= i < |y| ==> IsDigit(y[i]))
    ensures Before(x + a, y + b) <==> Value(x) < Value(y) || (Value(x) == Value(y) && Before(a, b))
  {
    if Value(x) < Value(y) {
      DigitsCompareByValue(x, y, a, b);
    } else if Value(y) < Value(x) {
      DigitsCompareByValue(y, x, b, a);
    } else {
      ValueIsInjective(x, y);
      BeforePastPrefix(x, a, b);
    }
  }

  /** Of two items, the one with no more digits sorts first exactly when its time is below the same
      number of leading digits of the other's. */
  lemma NameOrder(m1: nat, m2: nat, rest1: string, rest2: string)
    requires |Digits(m1)| <= |Digits(m2)|
    requires |Digits(m1)| == |Digits(m2)| ==> m1 != m2
    ensures Before(BaseOf(m1, rest1), BaseOf(m2, rest2)) <==> m1 < Leading(m2, |Digits(m1)|)
  {
    var x, y := Digits(m1), Digits(m2);
    var k := |x|;
    var c := y[k..] + ("_" + rest2);
    ValueOfDigits(m1);
    ValueOfDigits(m2);
    JoinAt(x, "_", rest1, k);
    JoinAt(y, "_", rest2, k);
    DigitsOrder(x, y[..k], "_" + rest1, c);
    if k < |y| {
      assert c[0] == y[k];
    } else {
      assert y[..k] == y;
    }
  }

  lemma JoinAt(y: string, a: string, b: string, k: nat)
    requires k <= |y|
    ensures y + a + b == y[..k] + (y[k..] + (a + b)) && (k == |y| ==> y + a + b == y + (a + b))
  {
  }

  /** So sorted names are in order of time whenever the times have equally many digits. */
  lemma NamesSortByTime(m1: nat, m2: nat, rest1: string, rest2: string)
    requires |Digits(m1)| == |Digits(m2)| && m1 < m2
    ensures Before(BaseOf(m1, rest1), BaseOf(m2, rest2)) && !Before(BaseOf(m2, rest2), BaseOf(m1, rest1))
  {
    ValueOfDigits(m1);
    ValueOfDigits(m2);
    assert BaseOf(m1, rest1) == Digits(m1) + ("_" + rest1) && BaseOf(m2, rest2) == Digits(m2) + ("_" + rest2);
    DigitsCompareByValue(Digits(m1), Digits(m2), "_" + rest1, "_" + rest2);
  }

  /** With unequal digit counts it can fail: 9 comes after 10. */
  lemma ShortTimesSortLate(rest: string)
    ensures !Before(BaseOf(9, rest), BaseOf(10, rest))
  {
    assert Digits(10) == "10" && Digits(9) == "9";
  }
}
