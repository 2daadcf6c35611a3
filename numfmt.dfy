/** Decimal formatting and parsing of numbers: Python's `format(x, '.1f')`
    / `'+.1f'`, JavaScript `toFixed(1)`, Python `float(s)` and JavaScript
    `parseFloat(s)` on the plain decimal forms `[+-]digits[.digits]`. */
module NumFmt {
  import opened Strs
  import opened Wrappers

  /** Nearest integer to `t`, ties to the even neighbour. */
  function RoundHalfEven(t: real): (n: int)
    ensures t - 1.0 / 2.0 <= n as real <= t + 1.0 / 2.0
    ensures t - t.Floor as real == 1.0 / 2.0 ==> n % 2 == 0
  {
    var f := t.Floor;
    var d := t - f as real;
    if d < 1.0 / 2.0 then f
    else if d > 1.0 / 2.0 then f + 1
    else if f % 2 == 0 then f else f + 1
  }

  /** `max(lo, min(hi, x))`. */
  function Clamp(lo: real, hi: real, x: real): (r: real)
    requires lo <= hi
    ensures lo <= r <= hi
    ensures lo <= x <= hi ==> r == x
    ensures x < lo ==> r == lo
    ensures x > hi ==> r == hi
  {
    if x < lo then lo else if x > hi then hi else x
  }

  function Abs(x: real): real { if x < 0.0 then -x else x }

  /** Number of tenths `x` is rounded to, in magnitude. */
  function Tenths(x: real): (n: nat)
  {
    var t := RoundHalfEven(Abs(x) * 10.0);
    if t < 0 then 0 else t
  }

  /** One-decimal fixed-point rendering of `x`; with `plus` a non-negative
      value carries a leading '+' (the `+` format flag). The sign follows
      the value, so a small negative number renders as "-0.0". */
  function Fixed1(x: real, plus: bool): (r: string)
    ensures |r| >= 3 && r[|r| - 2] == '.' && '0' <= r[|r| - 1] <= '9'
    ensures x < 0.0 ==> r[0] == '-'
    ensures plus && x >= 0.0 ==> r[0] == '+'
    ensures !plus && x >= 0.0 ==> IsDigit(r[0])
  {
    RenderTenths(if x < 0.0 then "-" else if plus then "+" else "", Tenths(x))
  }

  /** Number of tenths JavaScript's `toFixed(1)` rounds `x` to, in
      magnitude: ties go to the larger magnitude. */
  function TenthsHalfUp(x: real): (n: nat)
    ensures n as real - 1.0 / 2.0 <= Abs(x) * 10.0 < n as real + 1.0 / 2.0
  {
    (Abs(x) * 10.0 + 1.0 / 2.0).Floor
  }

  /** JavaScript `x.toFixed(1)`: the magnitude rounded half up, after a '-'
      for a negative value (so a small negative number renders as "-0.0"). */
  function JsFixed1(x: real): (r: string)
    ensures |r| >= 3 && r[|r| - 2] == '.' && '0' <= r[|r| - 1] <= '9'
    ensures x < 0.0 <==> r[0] == '-'
  {
    RenderTenths(if x < 0.0 then "-" else "", TenthsHalfUp(x))
  }

  /** `sign`, the whole part of `n` tenths, a dot and the tenths digit. */
  function RenderTenths(sign: string, n: nat): (r: string)
    ensures |r| >= |sign| + 3 && r[|r| - 2] == '.' && '0' <= r[|r| - 1] <= '9'
    ensures r[..|sign|] == sign
  {
    sign + NatToString(n / 10) + "." + [DigitChar(n % 10)]
  }

  predicate IsDigit(c: char) { '0' <= c <= '9' }

  /** After its sign, a rendering holds only digits and the dot. */
  lemma RenderTenthsChars(sign: string, n: nat)
    ensures var r := RenderTenths(sign, n);
      forall k :: |sign| <= k < |r| ==> IsDigit(r[k]) || r[k] == '.'
  {
    var w := NatToString(n / 10);
    var r := RenderTenths(sign, n);
    assert r == sign + w + "." + [DigitChar(n % 10)];
    forall k | |sign| <= k < |r|
      ensures IsDigit(r[k]) || r[k] == '.'
    {
      if k < |sign| + |w| {
        assert r[k] == w[k - |sign|];
      }
    }
  }

  /** Length of the longest all-digit prefix of `s`. */
  function DigitPrefixLen(s: string): (n: nat)
    ensures n <= |s|
    ensures forall i :: 0 <= i < n ==> IsDigit(s[i])
    ensures n < |s| ==> !IsDigit(s[n])
  {
    if s != [] && IsDigit(s[0]) then 1 + DigitPrefixLen(s[1..]) else 0
  }

  /** Value of a string of decimal digits (most significant first). */
  function DigitsValue(s: string): nat
    requires forall i :: 0 <= i < |s| ==> IsDigit(s[i])
  {
    if s == [] then 0
    else
      var c := s[|s| - 1];
      assert IsDigit(c);
      10 * DigitsValue(s[..|s| - 1]) + (c as int - '0' as int)
  }

  function Pow10(k: nat): (p: nat)
    ensures p >= 1
  {
    if k == 0 then 1 else 10 * Pow10(k - 1)
  }

  /** The unsigned number `int[.frac]` at the start of `s`, with how many
      characters it spans; None when no digit is present. */
  function ParseUnsigned(s: string): (r: Option<(real, nat)>)
    ensures r.Some? ==> 0 < r.value.1 <= |s|
  {
    var n1 := DigitPrefixLen(s);
    var hasDot := n1 < |s| && s[n1] == '.';
    var n2 := if hasDot then DigitPrefixLen(s[n1 + 1..]) else 0;
    if n1 + n2 == 0 then None
    else
      var frac := if hasDot then DigitsValue(s[n1 + 1..n1 + 1 + n2]) as real / Pow10(n2) as real else 0.0;
      Some((DigitsValue(s[..n1]) as real + frac, n1 + (if hasDot then 1 + n2 else 0)))
  }

  /** The number `[+-]int[.frac]` at the start of `s`, with how many
      characters it spans; None when no digit is present (NaN). */
  function ParsePrefix(s: string): (r: Option<(real, nat)>)
    ensures r.Some? ==> 0 < r.value.1 <= |s|
  {
    var signed := |s| > 0 && (s[0] == '-' || s[0] == '+');
    var i := if signed then 1 else 0;
    match ParseUnsigned(s[i..])
    case None => None
    case Some(p) => Some((if |s| > 0 && s[0] == '-' then -p.0 else p.0, i + p.1))
  }

  /** JavaScript `parseFloat`: the longest numeric prefix, trailing text
      ignored; None stands for NaN. */
  function JsParseFloat(s: string): (r: Option<real>)
    ensures r.Some? <==> ParsePrefix(s).Some?
    ensures PyFloat(s).Some? ==> r == PyFloat(s)
  {
    match ParsePrefix(s)
    case None => None
    case Some(p) => Some(p.0)
  }

  /** Python `float(s)` on an already stripped string: the whole string must
      be the number, otherwise `ValueError` (None). */
  function PyFloat(s: string): (r: Option<real>)
    ensures r.Some? ==> ParsePrefix(s).Some? && ParsePrefix(s).value.1 == |s|
  {
    match ParsePrefix(s)
    case Some(p) => if p.1 == |s| then Some(p.0) else None
    case None => None
  }

  lemma {:induction false} DigitsValueOfNat(n: nat)
    ensures forall i :: 0 <= i < |NatToString(n)| ==> IsDigit(NatToString(n)[i])
    ensures DigitsValue(NatToString(n)) == n
    decreases n
  {
    if n >= 10 {
      DigitsValueOfNat(n / 10);
      var s := NatToString(n);
      assert s[..|s| - 1] == NatToString(n / 10);
    }
  }

  lemma {:induction false} DigitPrefixOfDigits(a: string, b: string)
    requires forall i :: 0 <= i < |a| ==> IsDigit(a[i])
    requires b == [] || !IsDigit(b[0])
    ensures DigitPrefixLen(a + b) == |a|
    decreases |a|
  {
    if a != [] {
      assert (a + b)[1..] == a[1..] + b;
      DigitPrefixOfDigits(a[1..], b);
    } else {
      assert a + b == b;
    }
  }

  /** The unsigned part `w.d` of a rendering splits at its dot. */
  lemma {:induction false} SplitAtDot(w: string, c: char)
    requires forall i :: 0 <= i < |w| ==> IsDigit(w[i])
    requires IsDigit(c)
    ensures DigitPrefixLen(w + "." + [c]) == |w|
    ensures (w + "." + [c])[..|w|] == w
    ensures (w + "." + [c])[|w|] == '.'
    ensures (w + "." + [c])[|w| + 1..] == [c]
  {
    assert w + "." + [c] == w + ("." + [c]);
    DigitPrefixOfDigits(w, "." + [c]);
  }

  /** `w.d` parses to `w + d/10` and spans the whole string. */
  lemma {:induction false} ParseUnsignedFixed(w: string, c: char)
    requires forall i :: 0 <= i < |w| ==> IsDigit(w[i])
    requires IsDigit(c)
    ensures ParseUnsigned(w + "." + [c]) == Some((DigitsValue(w) as real + DigitsValue([c]) as real / 10.0, |w| + 2))
  {
    var rest := w + "." + [c];
    SplitAtDot(w, c);
    var n1 := DigitPrefixLen(rest);
    assert n1 < |rest| && rest[n1] == '.';
    assert DigitPrefixLen([c]) == 1 by {
      assert [c][1..] == [];
    }
    var n2 := DigitPrefixLen(rest[n1 + 1..]);
    assert n2 == 1;
    assert rest[n1 + 1..n1 + 1 + n2] == [c];
    assert Pow10(1) == 10;
    var frac := DigitsValue(rest[n1 + 1..n1 + 1 + n2]) as real / Pow10(n2) as real;
    assert frac == DigitsValue([c]) as real / 10.0;
    assert DigitsValue(rest[..n1]) == DigitsValue(w);
  }

  /** A sign in front of an unsigned number that starts with a digit
      negates it for '-' and widens the span by one. */
  lemma ParseSigned(sign: string, rest: string)
    requires sign == "" || sign == "+" || sign == "-"
    requires rest != [] && IsDigit(rest[0]) && ParseUnsigned(rest).Some?
    ensures var u := ParseUnsigned(rest).value;
      ParsePrefix(sign + rest).Some?
      && ParsePrefix(sign + rest).value.0 == (if sign == "-" then -u.0 else u.0)
      && ParsePrefix(sign + rest).value.1 == |sign| + u.1
  {
    var s := sign + rest;
    if sign == "" {
      assert s == rest;
      assert !(s[0] == '-' || s[0] == '+');
    } else {
      assert s[0] == sign[0] && s[1..] == rest;
    }
  }

  /** A sign followed by `w.d` parses to the signed value `w + d/10`. */
  lemma {:induction false} ParseSignedFixed(sign: string, w: string, c: char)
    requires sign == "" || sign == "+" || sign == "-"
    requires w != [] && forall i :: 0 <= i < |w| ==> IsDigit(w[i])
    requires IsDigit(c)
    ensures var mag := DigitsValue(w) as real + DigitsValue([c]) as real / 10.0;
      ParsePrefix(sign + w + "." + [c]) == Some((if sign == "-" then -mag else mag, |sign + w + "." + [c]|))
  {
    var rest := w + "." + [c];
    var mag := DigitsValue(w) as real + DigitsValue([c]) as real / 10.0;
    assert sign + w + "." + [c] == sign + rest;
    ParseUnsignedFixed(w, c);
    assert rest[0] == w[0];
    ParseSigned(sign, rest);
    assert |sign + rest| == |sign| + |rest|;
  }

  /** Parsing what `RenderTenths` printed gives back `n / 10`. */
  lemma RenderTenthsParses(sign: string, n: nat)
    requires sign == "" || sign == "+" || sign == "-"
    ensures PyFloat(RenderTenths(sign, n)) == Some(if sign == "-" then -(n as real / 10.0) else n as real / 10.0)
  {
    var w := NatToString(n / 10);
    var c := DigitChar(n % 10);
    DigitsValueOfNat(n / 10);
    ParseSignedFixed(sign, w, c);
    assert DigitsValue([c]) == n % 10;
    assert (n / 10) as real + (n % 10) as real / 10.0 == n as real / 10.0;
  }

  /** Parsing what `Fixed1` printed gives back the rounded value: the
      formatter and the parser agree on every number. */
  lemma ParseFixed1(x: real, plus: bool)
    ensures PyFloat(Fixed1(x, plus)) == Some(if x < 0.0 then -(Tenths(x) as real / 10.0) else Tenths(x) as real / 10.0)
  {
    var t := Tenths(x);
    if x < 0.0 {
      assert Fixed1(x, plus) == RenderTenths("-", t);
      RenderTenthsParses("-", t);
    } else if plus {
      assert Fixed1(x, plus) == RenderTenths("+", t);
      RenderTenthsParses("+", t);
    } else {
      assert Fixed1(x, plus) == RenderTenths("", t);
      RenderTenthsParses("", t);
    }
  }

  /** `parseFloat` reads back what `toFixed(1)` printed. */
  lemma ParseJsFixed1(x: real)
    ensures JsParseFloat(JsFixed1(x))
      == Some(if x < 0.0 then -(TenthsHalfUp(x) as real / 10.0) else TenthsHalfUp(x) as real / 10.0)
  {
    RenderTenthsParses(if x < 0.0 then "-" else "", TenthsHalfUp(x));
  }
}
