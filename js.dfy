/**
 * The few pieces of JavaScript semantics the wave loader relies on:
 * numbers that may be NaN or infinite, Math.round, the truncating `%`
 * operator, Math.min/Math.max with NaN propagation, and String.prototype.trim.
 */
module Js {

  datatype Option<T> = None | Some(value: T)

  /** A JavaScript number: finite values are reals, plus the three IEEE specials. */
  datatype Num = Fin(val: real) | NaN | PosInf | NegInf

  /** Math.PI, written out as the decimal of the double it denotes. */
  const PI: real := 3.141592653589793
  const TAU: real := PI * 2.0

  /**
   * Math.sin, taken as an unknown function. The one fact the wave shapes rely
   * on, that its values lie in [-1, 1], is the predicate SineBounded, required
   * by the lemmas that need it.
   */
  type Sine = real -> real

  ghost predicate SineBounded(sin: Sine) {
    forall t :: -1.0 <= sin(t) <= 1.0
  }

  function Abs(x: real): real { if x < 0.0 then -x else x }

  // ---------------------------------------------------------------------------
  // Rounding and remainders

  /** Math.round: nearest integer, halves rounded towards +infinity. */
  function Round(x: real): (r: int)
    ensures x - 0.5 < r as real <= x + 0.5
  {
    (x + 0.5).Floor
  }

  /** Truncation towards zero, as ToIntegerOrInfinity does for finite numbers. */
  function Trunc(x: real): (r: int)
    ensures x >= 0.0 ==> 0 <= r && r as real <= x < r as real + 1.0
    ensures x < 0.0 ==> r <= 0 && r as real - 1.0 < x <= r as real
  {
    if x >= 0.0 then x.Floor else -((-x).Floor)
  }

  /** The `%` operator on finite reals: the remainder takes the sign of the dividend. */
  function Rem(a: real, b: real): (r: real)
    requires b > 0.0
    ensures a >= 0.0 ==> 0.0 <= r < b
    ensures a < 0.0 ==> -b < r <= 0.0
    ensures a - r == b * Trunc(a / b) as real
  {
    var q := Trunc(a / b);
    RemBounds(a, b, q);
    a - b * (q as real)
  }

  lemma RemBounds(a: real, b: real, q: int)
    requires b > 0.0 && q == Trunc(a / b)
    ensures a >= 0.0 ==> 0.0 <= a - b * (q as real) < b
    ensures a < 0.0 ==> -b < a - b * (q as real) <= 0.0
  {
    var y := a / b;
    var qr := q as real;
    assert a == b * y;
    if a >= 0.0 {
      assert qr <= y < qr + 1.0;
      MulStrict(b, y, qr + 1.0);
      assert b * (qr + 1.0) == b * qr + b;
      calc { a; == b * y; < b * qr + b; }
      MulLe(b, qr, y);
      calc { a; == b * y; >= b * qr; }
    } else {
      assert qr - 1.0 < y <= qr;
      MulStrict(b, qr - 1.0, y);
      assert b * (qr - 1.0) == b * qr - b;
      calc { a; == b * y; > b * qr - b; }
      MulLe(b, y, qr);
      calc { a; == b * y; <= b * qr; }
    }
  }

  lemma MulStrict(b: real, x: real, z: real)
    requires b > 0.0 && x < z
    ensures b * x < b * z
  {
    assert b * z - b * x == b * (z - x);
  }

  lemma MulLe(b: real, x: real, z: real)
    requires b >= 0.0 && x <= z
    ensures b * x <= b * z
  {
    assert b * z - b * x == b * (z - x);
  }

  /** MulLe with the factor on the right, for the products u = x * b and v = z * b. */
  lemma MulLeRight(b: real, x: real, z: real, u: real, v: real)
    requires b >= 0.0 && x <= z && u == x * b && v == z * b
    ensures u <= v
  {
    MulLe(b, x, z);
    assert u == b * x && v == b * z;
  }

  /** The `%` operator on integers (truncating, sign of the dividend). */
  function IntRem(a: int, b: int): (r: int)
    requires b > 0
    ensures -b < r < b
    ensures a >= 0 ==> r >= 0
    ensures a <= 0 ==> r <= 0
    ensures (a - r) % b == 0
  {
    if a >= 0 then
      RemDifference(a, b, a / b, a % b);
      a % b
    else
      RemDifference(-a, b, (-a) / b, (-a) % b);
      NegatedMultiple(b, (-a) / b, a + (-a) % b);
      -((-a) % b)
  }

  /** x minus its remainder is the multiple b * q. */
  lemma RemDifference(x: int, b: int, q: int, m: int)
    requires b > 0 && q == x / b && m == x % b
    ensures x - m == b * q && (x - m) % b == 0
  {
    MultipleRem(b, q);
  }

  /** The negation of a multiple is a multiple. */
  lemma NegatedMultiple(b: int, q: int, y: int)
    requires b > 0 && y == -(b * q)
    ensures y % b == 0
  {
    assert y == b * (-q);
    MultipleRem(b, -q);
  }

  /** A multiple of b leaves no remainder. */
  lemma MultipleRem(b: int, k: int)
    requires b > 0
    ensures (b * k) % b == 0
  {
    var x := b * k;
    var q, r := x / b, x % b;
    assert x == b * q + r && 0 <= r < b;
    assert r == b * (k - q);
    if k - q >= 1 {
      IntMulLe(b, 1, k - q);
    } else if k - q <= -1 {
      IntMulLe(b, k - q, -1);
    }
  }

  lemma IntMulLe(b: int, x: int, z: int)
    requires b >= 0 && x <= z
    ensures b * x <= b * z
  {
    assert b * z - b * x == b * (z - x);
  }

  // ---------------------------------------------------------------------------
  // Math.max / Math.min against a finite bound, with NaN propagation

  /** Math.max(lo, a) */
  function MaxNum(lo: real, a: Num): (r: Num)
    ensures r == NaN <==> a == NaN
    ensures r == PosInf <==> a == PosInf
    ensures r != NegInf
    ensures r.Fin? ==> r.val >= lo && (r.val == lo || r == a)
    ensures a.Fin? ==> r.Fin? && r.val >= a.val
  {
    match a
    case Fin(x) => Fin(if x > lo then x else lo)
    case NaN => NaN
    case PosInf => PosInf
    case NegInf => Fin(lo)
  }

  /** Math.min(hi, a) */
  function MinNum(hi: real, a: Num): (r: Num)
    ensures r == NaN <==> a == NaN
    ensures r == NegInf <==> a == NegInf
    ensures r != PosInf
    ensures r.Fin? ==> r.val <= hi && (r.val == hi || r == a)
    ensures a.Fin? ==> r.Fin? && r.val <= a.val
  {
    match a
    case Fin(x) => Fin(if x < hi then x else hi)
    case NaN => NaN
    case PosInf => Fin(hi)
    case NegInf => NegInf
  }

  /** Math.min(hi, Math.max(lo, a)) */
  function ClampNum(lo: real, hi: real, a: Num): (r: Num)
    requires lo <= hi
    ensures r == NaN <==> a == NaN
    ensures r != NaN ==> r.Fin? && lo <= r.val <= hi
    ensures a.Fin? && lo <= a.val <= hi ==> r == a
    ensures a.Fin? && a.val < lo ==> r == Fin(lo)
    ensures a.Fin? && a.val > hi ==> r == Fin(hi)
    ensures a == NegInf ==> r == Fin(lo)
    ensures a == PosInf ==> r == Fin(hi)
  {
    MinNum(hi, MaxNum(lo, a))
  }

  /** a + d for a finite d */
  function AddNum(a: Num, d: real): (r: Num)
    ensures a.Fin? <==> r.Fin?
    ensures a.Fin? ==> r.val - a.val == d
    ensures !a.Fin? ==> r == a
  {
    match a
    case Fin(x) => Fin(x + d)
    case _ => a
  }

  // ---------------------------------------------------------------------------
  // String.prototype.trim

  /** ECMAScript WhiteSpace and LineTerminator code points. */
  predicate IsWhitespace(c: char) {
    c == '\t' || c == '\n' || c == '\U{000B}' || c == '\U{000C}' || c == '\r' || c == ' '
    || c == '\U{00A0}' || c == '\U{1680}' || ('\U{2000}' <= c <= '\U{200A}')
    || c == '\U{2028}' || c == '\U{2029}' || c == '\U{202F}' || c == '\U{205F}'
    || c == '\U{3000}' || c == '\U{FEFF}'
  }

  /** The number of whitespace characters s starts with. */
  function LeadingSpace(s: string): (n: nat)
    ensures n <= |s|
  {
    if s != [] && IsWhitespace(s[0]) then 1 + LeadingSpace(s[1..]) else 0
  }

  /** The number of whitespace characters s ends with. */
  function TrailingSpace(s: string): (n: nat)
    ensures n <= |s|
  {
    if s != [] && IsWhitespace(s[|s| - 1]) then 1 + TrailingSpace(s[..|s| - 1]) else 0
  }

  function TrimStart(s: string): string { s[LeadingSpace(s)..] }
  function TrimEnd(s: string): string { s[..|s| - TrailingSpace(s)] }
  function Trim(s: string): string { TrimEnd(TrimStart(s)) }

  lemma {:induction false} LeadingSpaceIsSpace(s: string)
    ensures forall k :: 0 <= k < LeadingSpace(s) ==> IsWhitespace(s[k])
    ensures LeadingSpace(s) < |s| ==> !IsWhitespace(s[LeadingSpace(s)])
    decreases |s|
  {
    if s != [] && IsWhitespace(s[0]) {
      LeadingSpaceIsSpace(s[1..]);
      forall k | 1 <= k < LeadingSpace(s)
        ensures IsWhitespace(s[k])
      {
        assert s[k] == s[1..][k - 1];
      }
      if LeadingSpace(s) < |s| {
        assert s[LeadingSpace(s)] == s[1..][LeadingSpace(s[1..])];
      }
    }
  }

  lemma {:induction false} TrailingSpaceIsSpace(s: string)
    ensures forall k :: |s| - TrailingSpace(s) <= k < |s| ==> IsWhitespace(s[k])
    ensures TrailingSpace(s) < |s| ==> !IsWhitespace(s[|s| - TrailingSpace(s) - 1])
    decreases |s|
  {
    if s != [] && IsWhitespace(s[|s| - 1]) {
      var p := s[..|s| - 1];
      TrailingSpaceIsSpace(p);
      forall k | |s| - TrailingSpace(s) <= k < |s| - 1
        ensures IsWhitespace(s[k])
      {
        assert s[k] == p[k];
      }
      if TrailingSpace(s) < |s| {
        assert s[|s| - TrailingSpace(s) - 1] == p[|p| - TrailingSpace(p) - 1];
      }
    }
  }

  /** The trimmed string is the slice of s that starts after its leading whitespace. */
  lemma TrimSlice(s: string)
    ensures var i := LeadingSpace(s); var r := Trim(s);
      i + |r| <= |s| && r == s[i..i + |r|]
  {
    var i := LeadingSpace(s);
    var t := s[i..];
    assert Trim(s) == t[..|t| - TrailingSpace(t)];
  }

  /** What trimming drops on either side of that slice is whitespace. */
  lemma TrimDropsWhitespace(s: string)
    ensures var i := LeadingSpace(s); var r := Trim(s);
      && (forall k :: 0 <= k < i ==> IsWhitespace(s[k]))
      && (forall k :: i + |r| <= k < |s| ==> IsWhitespace(s[k]))
  {
    var i := LeadingSpace(s);
    var t := s[i..];
    var n := |s| - TrailingSpace(t);
    assert i + |Trim(s)| == n;
    LeadingSpaceIsSpace(s);
    SuffixSpace(s, i, t);
  }

  lemma SuffixSpace(s: string, i: nat, t: string)
    requires i <= |s| && t == s[i..]
    ensures forall k :: |s| - TrailingSpace(t) <= k < |s| ==> IsWhitespace(s[k])
  {
    TrailingSpaceIsSpace(t);
    forall k | |s| - TrailingSpace(t) <= k < |s|
      ensures IsWhitespace(s[k])
    {
      assert s[k] == t[k - i];
    }
  }

  /** Neither end of a trimmed string is whitespace. */
  lemma TrimEnds(s: string)
    ensures var r := Trim(s); r != [] ==> !IsWhitespace(r[0]) && !IsWhitespace(r[|r| - 1])
  {
    var i := LeadingSpace(s);
    var t := s[i..];
    LeadingSpaceIsSpace(s);
    TrailingSpaceIsSpace(t);
    var r := Trim(s);
    assert r == t[..|t| - TrailingSpace(t)];
    if r != [] {
      assert r[0] == s[i];
      assert r[|r| - 1] == t[|t| - TrailingSpace(t) - 1];
    }
  }

  /** Trimming twice is trimming once. */
  lemma TrimIdempotent(s: string)
    ensures Trim(Trim(s)) == Trim(s)
  {
    var r := Trim(s);
    TrimEnds(s);
    assert LeadingSpace(r) == 0;
    assert TrimStart(r) == r;
    assert TrailingSpace(r) == 0;
  }

  /** A string trims to nothing exactly when every character is whitespace. */
  lemma TrimEmptyIff(s: string)
    ensures Trim(s) == [] <==> forall k :: 0 <= k < |s| ==> IsWhitespace(s[k])
  {
    TrimSlice(s);
    TrimDropsWhitespace(s);
    TrimEnds(s);
    if Trim(s) != [] {
      assert Trim(s)[0] == s[LeadingSpace(s)];
    }
  }
}
