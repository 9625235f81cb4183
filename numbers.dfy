/** Arithmetic on Python floats, modelled on exact reals: clamping, `round`,
    fixed-point formatting, sums, averages and counts over lists. */
module Numbers {
  import opened Text

  /** `max(lo, min(hi, x))` */
  function Clamp(x: real, lo: real, hi: real): (r: real)
    requires lo <= hi
    ensures lo <= r <= hi
    ensures lo <= x <= hi ==> r == x
    ensures x > hi ==> r == hi
    ensures x < lo ==> r == lo
  {
    if x > hi then hi else if x < lo then lo else x
  }

  function Abs(x: real): (r: real)
    ensures r >= 0.0 && (r == x || r == -x)
  {
    if x < 0.0 then -x else x
  }

  /** The integer nearest to `y`, ties to the even one (Python's rounding). */
  function RoundHalfEven(y: real): (n: int)
    ensures -0.5 <= n as real - y <= 0.5
    ensures y == y.Floor as real ==> n == y.Floor
  {
    var f := y.Floor;
    var frac := y - f as real;
    if frac > 0.5 then f + 1
    else if frac < 0.5 then f
    else if f % 2 == 0 then f else f + 1
  }

  /** `round(x, 1)` on the exact value of `x`. */
  function Round1(x: real): (r: real)
    ensures -0.05 <= r - x <= 0.05
    ensures 0.0 <= x <= 10.0 ==> 0.0 <= r <= 10.0
    ensures (x * 10.0).Floor as real == x * 10.0 ==> r == x
  {
    RoundHalfEven(x * 10.0) as real / 10.0
  }

  function Pow10(d: nat): (p: nat)
    ensures p >= 1
  {
    if d == 0 then 1 else 10 * Pow10(d - 1)
  }

  function ZeroPad(s: string, width: nat): (r: string)
    ensures |r| >= width && |r| >= |s|
    ensures |s| >= width ==> r == s
    ensures |s| < width ==> r[0] == '0'
    decreases width - |s|
  {
    if |s| >= width then s else ZeroPad("0" + s, width)
  }

  /** `f"{x:.{d}f}"`: sign, integer digits, and `d` digits after a point
      (no point when `d == 0`), rounding the exact value half-to-even. */
  function FormatFixed(x: real, d: nat): (r: string)
    ensures |r| >= d + 1
    ensures d > 0 ==> |r| >= d + 2 && r[|r| - d - 1] == '.'
    ensures (r[0] == '-') == (x < 0.0)
  {
    var m := RoundHalfEven(Abs(x) * Pow10(d) as real);
    var digits := ZeroPad(NatToString(if m < 0 then 0 else m), d + 1);
    assert digits[0] != '-' by {
      if |NatToString(if m < 0 then 0 else m)| < d + 1 { assert digits[0] == '0'; }
    }
    var body := if d == 0 then digits else digits[..|digits| - d] + "." + digits[|digits| - d..];
    (if x < 0.0 then "-" else "") + body
  }

  /** `x ** n` for a natural exponent. */
  function Pow(x: real, n: nat): (r: real)
    ensures x > 0.0 ==> r > 0.0
  {
    if n == 0 then 1.0 else x * Pow(x, n - 1)
  }

  /** `sum(s)` */
  function Sum(s: seq<real>): real
  {
    if s == [] then 0.0 else Sum(s[..|s| - 1]) + s[|s| - 1]
  }

  /** `sum(s) / len(s)` */
  function Average(s: seq<real>): real
    requires |s| > 0
  {
    Sum(s) / |s| as real
  }

  /** `sum(1 for x in s if p(x))` */
  function Count<T>(s: seq<T>, p: T -> bool): (n: nat)
    ensures n <= |s|
  {
    if s == [] then 0 else Count(s[..|s| - 1], p) + (if p(s[|s| - 1]) then 1 else 0)
  }

  /** `all(p(x) for x in s)` */
  predicate All<T>(s: seq<T>, p: T -> bool) { forall i :: 0 <= i < |s| ==> p(s[i]) }

  /** Every element satisfies `p` exactly when all of them are counted. */
  lemma {:induction false} CountAll<T>(s: seq<T>, p: T -> bool)
    ensures Count(s, p) == |s| <==> All(s, p)
  {
    if s != [] {
      CountAll(s[..|s| - 1], p);
      if !p(s[|s| - 1]) { assert Count(s[..|s| - 1], p) <= |s| - 1; }
    }
  }

  /** No element satisfies `p` exactly when none is counted. */
  lemma {:induction false} CountNone<T>(s: seq<T>, p: T -> bool)
    ensures Count(s, p) == 0 <==> forall i :: 0 <= i < |s| ==> !p(s[i])
  {
    if s != [] {
      CountNone(s[..|s| - 1], p);
    }
  }

  /** `zip(a, b)`: pairs up to the shorter length. */
  function Zip(a: seq<real>, b: seq<real>): (r: seq<(real, real)>)
    ensures |r| == if |a| < |b| then |a| else |b|
    ensures forall i :: 0 <= i < |r| ==> r[i] == (a[i], b[i])
  {
    if a == [] || b == [] then [] else [(a[0], b[0])] + Zip(a[1..], b[1..])
  }

  /** The neighbouring pairs `(s[i], s[i + 1])`. */
  function Adjacent(s: seq<real>): (r: seq<(real, real)>)
    ensures |r| == if |s| == 0 then 0 else |s| - 1
    ensures forall i :: 0 <= i < |r| ==> r[i] == (s[i], s[i + 1])
  {
    if |s| < 2 then [] else [(s[0], s[1])] + Adjacent(s[1..])
  }

  /** `max(s)` */
  function MaxOf(s: seq<real>): (m: real)
    requires |s| > 0
    ensures m in s && forall i :: 0 <= i < |s| ==> s[i] <= m
  {
    if |s| == 1 then s[0] else var t := MaxOf(s[1..]); if s[0] >= t then s[0] else t
  }

  /** `min(s)` */
  function MinOf(s: seq<real>): (m: real)
    requires |s| > 0
    ensures m in s && forall i :: 0 <= i < |s| ==> m <= s[i]
  {
    if |s| == 1 then s[0] else var t := MinOf(s[1..]); if s[0] <= t then s[0] else t
  }

  lemma SquareNonNegative(x: real)
    ensures x * x >= 0.0
  {
    if x < 0.0 { assert x * x == (-x) * (-x); }
  }

  /** `sum((x - mean) ** 2 for x in s)` */
  function SumSquaredDeviation(s: seq<real>, mean: real): (r: real)
    ensures r >= 0.0
  {
    if s == [] then 0.0
    else
      var dev := s[|s| - 1] - mean;
      SquareNonNegative(dev);
      SumSquaredDeviation(s[..|s| - 1], mean) + dev * dev
  }

  /** Population variance. */
  function Variance(s: seq<real>): (v: real)
    requires |s| > 0
    ensures v >= 0.0
  {
    SumSquaredDeviation(s, Average(s)) / |s| as real
  }

  /** `int(x)`: truncation toward zero. */
  function Trunc(x: real): (n: int)
    ensures x >= 0.0 ==> n == x.Floor
    ensures 0.0 <= x ==> n as real <= x < n as real + 1.0
  {
    if x >= 0.0 then x.Floor else -((-x).Floor)
  }
}
