/** The few pieces of JavaScript string behaviour the screens rely on:
    `String.prototype.trim` with its truthiness test, `Number.prototype.toString`
    on integral values, `padStart`, and the remainder operator `%`. */
module JsText {

  /** The code points ECMAScript classes as WhiteSpace or LineTerminator;
      `trim` strips exactly these from both ends. */
  predicate IsWhiteSpace(c: char) {
    || c == '\t' || c == '\n' || c == '\U{B}' || c == '\U{C}' || c == '\r'
    || c == ' ' || c == '\U{A0}' || c == '\U{1680}'
    || ('\U{2000}' <= c <= '\U{200A}')
    || c == '\U{2028}' || c == '\U{2029}' || c == '\U{202F}' || c == '\U{205F}'
    || c == '\U{3000}' || c == '\U{FEFF}'
  }

  /** A string with nothing but whitespace in it (the empty string included). */
  predicate IsBlank(s: string) {
    forall i | 0 <= i < |s| :: IsWhiteSpace(s[i])
  }

  /** `trimStart`: the longest suffix of `s` that does not start with whitespace. */
  function TrimStart(s: string): (r: string)
    ensures |r| <= |s| && r == s[|s| - |r|..]
    ensures forall i | 0 <= i < |s| - |r| :: IsWhiteSpace(s[i])
    ensures r == [] || !IsWhiteSpace(r[0])
  {
    if |s| > 0 && IsWhiteSpace(s[0]) then TrimStart(s[1..]) else s
  }

  /** `trimEnd`: the longest prefix of `s` that does not end with whitespace. */
  function TrimEnd(s: string): (r: string)
    ensures |r| <= |s| && r == s[..|r|]
    ensures forall i | |r| <= i < |s| :: IsWhiteSpace(s[i])
    ensures r == [] || !IsWhiteSpace(r[|r| - 1])
  {
    if |s| > 0 && IsWhiteSpace(s[|s| - 1]) then TrimEnd(s[..|s| - 1]) else s
  }

  /** `trim`: `s` with its leading and trailing whitespace removed. The result is
      the slice of `s` between the first and the last non-whitespace code point. */
  function Trim(s: string): (r: string)
    ensures Lead(s) + |r| <= |s|
    ensures r == s[Lead(s)..Lead(s) + |r|]
    ensures forall i | 0 <= i < Lead(s) :: IsWhiteSpace(s[i])
    ensures forall i | Lead(s) + |r| <= i < |s| :: IsWhiteSpace(s[i])
    ensures r == [] || (!IsWhiteSpace(r[0]) && !IsWhiteSpace(r[|r| - 1]))
  {
    TrimEnd(TrimStart(s))
  }

  /** How many code points `trimStart` removes. */
  function Lead(s: string): nat {
    |s| - |TrimStart(s)|
  }

  /** `trim` leaves nothing exactly when the string is blank. */
  lemma TrimEmptyIffBlank(s: string)
    ensures Trim(s) == [] <==> IsBlank(s)
  {
    if Trim(s) == [] {
      forall i | 0 <= i < |s| ensures IsWhiteSpace(s[i]) {
        if i >= Lead(s) {
          assert IsWhiteSpace(s[i]);
        }
      }
    }
  }

  /** JavaScript truthiness of `s.trim()`: the guard every text field uses. */
  predicate HasText(s: string)
    ensures HasText(s) <==> !IsBlank(s)
  {
    TrimEmptyIffBlank(s);
    Trim(s) != ""
  }

  /** Trimming twice is trimming once. */
  lemma TrimIdempotent(s: string)
    ensures Trim(Trim(s)) == Trim(s)
  {
    var r := Trim(s);
    assert TrimStart(r) == r;
    assert TrimEnd(r) == r;
  }

  predicate IsDigit(c: char) {
    '0' <= c <= '9'
  }

  /** A string made of decimal digits only. */
  predicate AllDigits(s: string) {
    forall i | 0 <= i < |s| :: IsDigit(s[i])
  }

  function DigitChar(d: nat): (c: char)
    requires d < 10
    ensures IsDigit(c) && DigitValue(c) == d
  {
    (48 + d) as char
  }

  function DigitValue(c: char): int {
    c as int - 48
  }

  /** `Number.prototype.toString` on a non-negative integer: decimal digits,
      most significant first, with no leading zero. */
  function NatToDecimal(n: nat): (r: string)
    ensures |r| >= 1
    ensures AllDigits(r)
    ensures r[0] == '0' ==> n == 0
    ensures n < 10 <==> |r| == 1
  {
    if n < 10 then [DigitChar(n)] else NatToDecimal(n / 10) + [DigitChar(n % 10)]
  }

  /** `Number.prototype.toString` on an integer: a minus sign before the digits
      of a negative value. It starts with a minus sign exactly for negative
      values, and `ParseInt` reads it back. */
  function IntToString(n: int): (r: string)
    ensures |r| >= 1 && (r[0] == '-' <==> n < 0)
    ensures ParseInt(r) == n
  {
    if n < 0 then
      var d := NatToDecimal(-n);
      DecimalRoundTrip(-n);
      assert ("-" + d)[1..] == d;
      "-" + d
    else
      DecimalRoundTrip(n);
      NatToDecimal(n)
  }

  /** The value of an optionally signed string of decimal digits. */
  function ParseInt(s: string): int {
    if |s| > 0 && s[0] == '-' then -ParseDecimal(s[1..]) else ParseDecimal(s)
  }

  /** The value of a string of decimal digits (the inverse of `NatToDecimal`). */
  function ParseDecimal(s: string): int {
    if s == [] then 0 else ParseDecimal(s[..|s| - 1]) * 10 + DigitValue(s[|s| - 1])
  }

  /** Reading back the decimal rendering of `n` gives `n`. */
  lemma {:induction false} DecimalRoundTrip(n: nat)
    ensures ParseDecimal(NatToDecimal(n)) == n
  {
    var r := NatToDecimal(n);
    if n >= 10 {
      assert r[..|r| - 1] == NatToDecimal(n / 10);
      DecimalRoundTrip(n / 10);
    }
  }

  /** `s.padStart(target, fill)` with a one-character fill: `fill` repeated in
      front of `s` until it is `target` long; `s` itself when already that long. */
  function PadStart(s: string, target: nat, fill: char): (r: string)
    ensures |s| >= target ==> r == s
    ensures |s| < target ==> |r| == target
    ensures |r| >= |s| && r[|r| - |s|..] == s
    ensures forall i | 0 <= i < |r| - |s| :: r[i] == fill
    decreases target
  {
    if |s| >= target then s else [fill] + PadStart(s, target - 1, fill)
  }

  /** JavaScript's `%`: the remainder of truncating division, carrying the sign
      of the dividend (unlike Dafny's `%`, which is never negative). The result
      differs from the dividend by a multiple of the divisor, is smaller than
      the divisor in magnitude and has the dividend's sign, which together fix it. */
  function JsRem(a: int, b: int): (r: int)
    requires b > 0
    ensures (a - r) % b == 0
    ensures a >= 0 ==> 0 <= r < b
    ensures a < 0 ==> -b < r <= 0
  {
    RemCongruence(a, b);
    if a >= 0 then a % b else -((-a) % b)
  }

  /** Taking away the remainder, or adding the remainder of the negation,
      leaves a multiple of the divisor. */
  lemma RemCongruence(a: int, b: int)
    requires b > 0
    ensures (a - a % b) % b == 0
    ensures (a + (-a) % b) % b == 0
  {
    var q, p := a / b, (-a) / b;
    assert a - a % b == q * b;
    MultipleRem(q, b);
    assert a + (-a) % b == (-p) * b;
    MultipleRem(-p, b);
  }

  /** A multiple of `b` leaves no remainder. */
  lemma MultipleRem(q: int, b: int)
    requires b > 0
    ensures (q * b) % b == 0
  {
    var x := q * b;
    var d := q - x / b;
    assert d * b == x % b;
    assert d == 0 by {
      if d > 0 {
        PositiveMultiple(d, b);
      }
    }
  }

  /** A positive multiple of `b` is at least `b`. */
  lemma {:induction false} PositiveMultiple(d: nat, b: int)
    requires b > 0 && d > 0
    ensures d * b >= b
  {
    if d > 1 {
      PositiveMultiple(d - 1, b);
      assert d * b == (d - 1) * b + b;
    }
  }
}
