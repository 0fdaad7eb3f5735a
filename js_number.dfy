/**
 * JavaScript numbers and the two string-to-number conversions the code uses:
 * `parseFloat` (longest numeric prefix) and `Number(string)` (whole string).
 * Values are exact reals: the rounding of IEEE doubles is not modelled.
 */
module JsNumber {
  import opened Wrappers
  import opened Text

  /** A JavaScript number: a finite value, an infinity or NaN. */
  datatype Num = Finite(value: real) | PosInf | NegInf | NaN

  /** `Number.isFinite`. */
  predicate IsFinite(n: Num)
  {
    n.Finite?
  }

  /** JavaScript `a < b`: false whenever NaN is involved. */
  predicate Less(a: Num, b: Num)
  {
    match (a, b)
    case (Finite(x), Finite(y)) => x < y
    case (NegInf, Finite(_)) => true
    case (NegInf, PosInf) => true
    case (Finite(_), PosInf) => true
    case _ => false
  }

  predicate IsDigit(c: char)
  {
    '0' <= c <= '9'
  }

  /** End of the run of decimal digits of `s` that starts at `i`. */
  function DigitRunEnd(s: string, i: nat): (j: nat)
    requires i <= |s|
    ensures i <= j <= |s|
    ensures forall k :: i <= k < j ==> IsDigit(s[k])
    ensures j == |s| || !IsDigit(s[j])
    decreases |s| - i
  {
    if i < |s| && IsDigit(s[i]) then DigitRunEnd(s, i + 1) else i
  }

  /** Value of a string of decimal digits. */
  function DigitsValue(d: string): nat
    requires forall k :: 0 <= k < |d| ==> IsDigit(d[k])
  {
    if d == [] then 0 else 10 * DigitsValue(d[..|d| - 1]) + DigitValue(d[|d| - 1])
  }

  function DigitValue(c: char): nat
    requires IsDigit(c)
  {
    c as int - '0' as int
  }

  /** `x / 10^n`, one digit position at a time. */
  function Shift(x: real, n: nat): real
  {
    if n == 0 then x else Shift(x, n - 1) / 10.0
  }

  /** A numeric prefix: its value and the index just after it. */
  datatype Scanned = Scanned(value: Num, end: nat)

  /** The optional exponent part `e[+-]digits` starting at `k`: its value and the
      index after it (an `e` without digits is not part of the number). */
  function ScanExponent(s: string, k: nat): (r: (int, nat))
    requires k <= |s|
    ensures k <= r.1 <= |s|
  {
    if k < |s| && (s[k] == 'e' || s[k] == 'E') then
      var signed := k + 1 < |s| && (s[k + 1] == '+' || s[k + 1] == '-');
      var e0 := if signed then k + 2 else k + 1;
      var e1 := DigitRunEnd(s, e0);
      if e1 == e0 then (0, k)
      else
        var magnitude: int := DigitsValue(s[e0..e1]);
        (if signed && s[k + 1] == '-' then -magnitude else magnitude, e1)
    else (0, k)
  }

  /** The longest prefix of `s` that is a decimal literal
      (`[+-]? (Infinity | digits [. digits] [exponent] | . digits [exponent])`),
      or None when there is none. */
  function ScanDecimal(s: string): (r: Option<Scanned>)
    ensures r.Some? ==> r.value.end <= |s|
  {
    var negative := |s| > 0 && s[0] == '-';
    var i0 := if |s| > 0 && (s[0] == '-' || s[0] == '+') then 1 else 0;
    if StartsWith(s[i0..], "Infinity") then
      Some(Scanned(if negative then NegInf else PosInf, i0 + 8))
    else
      ScanUnsigned(s, i0, negative)
  }

  /** The digits, optional fraction and optional exponent starting at `i0`. */
  function ScanUnsigned(s: string, i0: nat, negative: bool): (r: Option<Scanned>)
    requires i0 <= |s|
    ensures r.Some? ==> r.value.end <= |s|
  {
    var j := DigitRunEnd(s, i0);
    var k := FractionEnd(s, j);
    if j == i0 && k <= j + 1 then None
    else
      var (exponent, end) := ScanExponent(s, k);
      var magnitude := Scale(Mantissa(s, i0, j, k), exponent);
      Some(Scanned(Finite(if negative then -magnitude else magnitude), end))
  }

  /** End of the optional `.digits` part that starts at `j`. */
  function FractionEnd(s: string, j: nat): (k: nat)
    requires j <= |s|
    ensures j <= k <= |s|
    ensures k > j ==> s[j] == '.' && forall i :: j < i < k ==> IsDigit(s[i])
  {
    if j < |s| && s[j] == '.' then DigitRunEnd(s, j + 1) else j
  }

  /** Value of the integer digits `s[i0..j]` and the fraction digits `s[j+1..k]`. */
  function Mantissa(s: string, i0: nat, j: nat, k: nat): real
    requires i0 <= j <= k <= |s|
    requires forall i :: i0 <= i < j ==> IsDigit(s[i])
    requires k > j ==> forall i :: j < i < k ==> IsDigit(s[i])
  {
    DigitsValue(s[i0..j]) as real
    + (if k > j then Shift(DigitsValue(s[j + 1..k]) as real, k - j - 1) else 0.0)
  }

  /** `m * 10^e`. */
  function Scale(m: real, e: int): real
    decreases if e >= 0 then e else -e
  {
    if e == 0 then m else if e > 0 then 10.0 * Scale(m, e - 1) else Scale(m, e + 1) / 10.0
  }

  /** `parseFloat(s)`: skip leading white space, read the longest numeric prefix,
      NaN when there is none. */
  function ParseFloat(s: string): (n: Num)
    ensures ScanDecimal(TrimStart(s)).None? <==> n == NaN
  {
    match ScanDecimal(TrimStart(s))
    case None => NaN
    case Some(sc) => sc.value
  }

  predicate IsDigits(d: string)
  {
    d != [] && forall k :: 0 <= k < |d| ==> IsDigit(d[k])
  }

  lemma DigitsAreNotInfinity(d: string)
    requires IsDigits(d)
    ensures ScanDecimal(d) == ScanUnsigned(d, 0, false)
  {
    if |d| >= 8 { assert d[..8][0] == d[0]; }
    assert d[0..] == d;
  }

  /** A digit string is its own mantissa, with no fraction. */
  lemma MantissaOfDigits(d: string)
    requires IsDigits(d)
    ensures Mantissa(d, 0, |d|, |d|) == DigitsValue(d) as real
  {
    assert d[0..|d|] == d;
  }

  lemma DigitsScan(d: string)
    requires IsDigits(d)
    ensures ScanUnsigned(d, 0, false) == Some(Scanned(Finite(DigitsValue(d) as real), |d|))
  {
    var n := |d|;
    assert DigitRunEnd(d, 0) == n;
    assert FractionEnd(d, n) == n;
    assert ScanExponent(d, n) == (0, n);
    MantissaOfDigits(d);
  }

  /** `parseFloat` of a plain string of decimal digits is its value. */
  lemma ParseFloatDigits(d: string)
    requires IsDigits(d)
    ensures ParseFloat(d) == Finite(DigitsValue(d) as real)
  {
    assert !IsSpace(d[0]);
    assert TrimStart(d) == d;
    DigitsAreNotInfinity(d);
    DigitsScan(d);
  }

  /** `Number(s)` for a string: the empty (or all-space) string is 0, otherwise the
      whole trimmed string must be a decimal literal. */
  function StringToNumber(s: string): (n: Num)
    ensures Trim(s) == "" ==> n == Finite(0.0)
  {
    var t := Trim(s);
    if t == "" then Finite(0.0)
    else
      match ScanDecimal(t)
      case Some(sc) => if sc.end == |t| then sc.value else NaN
      case None => NaN
  }
}
