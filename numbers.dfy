/** Number conversions the directives use on their `key:value` options:
    `parseInt(text)`, `parseFloat(text)` and the decimal text a template
    literal gives an integer (`${n}`). Results are exact: `None` stands for a
    value that is not a finite number (NaN, or the text `Infinity`). */
module Numbers {
  import opened Wrappers
  import opened Text

  predicate IsDigit(c: char) { '0' <= c <= '9' }

  predicate IsHexDigit(c: char) { IsDigit(c) || ('a' <= c <= 'f') || ('A' <= c <= 'F') }

  predicate IsRadixDigit(c: char, hex: bool) { if hex then IsHexDigit(c) else IsDigit(c) }

  predicate AllRadixDigits(s: String, hex: bool) {
    forall k :: 0 <= k < |s| ==> IsRadixDigit(s[k], hex)
  }

  function Radix(hex: bool): nat { if hex then 16 else 10 }

  function DigitValue(c: char): (d: nat)
    requires IsHexDigit(c)
    ensures d < 16 && (IsDigit(c) ==> d < 10)
  {
    if IsDigit(c) then c as int - '0' as int
    else if 'a' <= c <= 'f' then c as int - 'a' as int + 10
    else c as int - 'A' as int + 10
  }

  function DigitChar(d: nat): (c: char)
    requires d < 10
    ensures IsDigit(c) && DigitValue(c) == d
  {
    ('0' as int + d) as char
  }

  /** Length of the run of digits `s` starts with. */
  function DigitRun(s: String, hex: bool): (n: nat)
    ensures n <= |s| && AllRadixDigits(s[..n], hex)
    ensures n < |s| ==> !IsRadixDigit(s[n], hex)
  {
    if s != [] && IsRadixDigit(s[0], hex) then
      var n := 1 + DigitRun(s[1..], hex);
      assert s[..n] == [s[0]] + s[1..][..n - 1];
      n
    else 0
  }

  /** The value of a digit string, most significant digit first. */
  function DigitsValue(ds: String, hex: bool): nat
    requires AllRadixDigits(ds, hex)
  {
    if ds == [] then 0
    else DigitsValue(ds[..|ds| - 1], hex) * Radix(hex) + DigitValue(ds[|ds| - 1])
  }

  /** Decimal digits of a natural number, without leading zeros. */
  function NatToString(n: nat): (r: String)
    ensures r != [] && AllRadixDigits(r, false)
    ensures |r| > 1 ==> r[0] != '0'
  {
    if n < 10 then [DigitChar(n)] else NatToString(n / 10) + [DigitChar(n % 10)]
  }

  /** What a template literal prints for an integer (within the range where
      JavaScript does not switch to exponent notation). */
  function IntToString(n: int): (r: String)
  {
    if n < 0 then "-" + NatToString(-n) else NatToString(n)
  }

  /** `${parseInt(...)}`: the number's text, or `NaN`. */
  function NumberText(v: Option<int>): String
  {
    match v
    case Some(n) => IntToString(n)
    case None => "NaN"
  }

  /** The optional sign both readers accept: whether it is a minus, and the
      text after it. */
  function Sign(t: String): (bool, String)
  {
    if t != [] && (t[0] == '-' || t[0] == '+') then (t[0] == '-', t[1..]) else (false, t)
  }

  /** `parseInt(s)` with no radix: leading whitespace is skipped, one sign is
      read, and the rest is read by `ParseDigits`. */
  function ParseInt(s: String): Option<int>
  {
    var (neg, u) := Sign(TrimStart(s));
    match ParseDigits(u)
    case None => None
    case Some(m) => Some(if neg then -(m as int) else m as int)
  }

  /** The unsigned part of `parseInt`: a `0x`/`0X` prefix switches to base 16,
      and the longest run of digits after that is the value; no digit at all
      is NaN. */
  function ParseDigits(u: String): Option<nat>
  {
    var hex := |u| >= 2 && u[0] == '0' && (u[1] == 'x' || u[1] == 'X');
    var v := if hex then u[2..] else u;
    var n := DigitRun(v, hex);
    if n == 0 then None else Some(DigitsValue(v[..n], hex))
  }

  function Pow10(n: nat): (r: real)
    ensures r >= 1.0
  {
    if n == 0 then 1.0 else 10.0 * Pow10(n - 1)
  }

  /** `10^e` for an integer exponent. */
  function Scale10(e: int): real
  {
    if e >= 0 then Pow10(e) else 1.0 / Pow10(-e)
  }

  /** The exponent part `e[+-]digits` a decimal literal may end with; an
      incomplete one (`e`, `e+`) is not part of the number and counts as 0. */
  function Exponent(s: String): int
  {
    if |s| >= 2 && (s[0] == 'e' || s[0] == 'E') then
      var t := s[1..];
      var v := if t[0] == '-' || t[0] == '+' then t[1..] else t;
      var n := DigitRun(v, false);
      if n == 0 then 0
      else if t[0] == '-' then -(DigitsValue(v[..n], false) as int)
      else DigitsValue(v[..n], false)
    else 0
  }

  /** `parseFloat(s)` on decimal text: leading whitespace skipped, one sign,
      and the rest read by `ParseDecimal`. */
  function ParseFloat(s: String): Option<real>
  {
    var (neg, u) := Sign(TrimStart(s));
    match ParseDecimal(u)
    case None => None
    case Some(v) => Some(if neg then -v else v)
  }

  /** The unsigned part of `parseFloat`: the longest prefix of the form
      `digits[.digits][e[+-]digits]` or `.digits[e[+-]digits]`; no digit
      before the exponent is NaN. */
  function ParseDecimal(u: String): Option<real>
  {
    var a := DigitRun(u, false);
    var afterInt := u[a..];
    var hasDot := afterInt != [] && afterInt[0] == '.';
    var frac := if hasDot then afterInt[1..] else [];
    var b := DigitRun(frac, false);
    if a + b == 0 then None
    else
      var rest := if hasDot then frac[b..] else afterInt;
      var mantissa := DigitsValue(u[..a], false) as real + DigitsValue(frac[..b], false) as real / Pow10(b);
      Some(mantissa * Scale10(Exponent(rest)))
  }

  /** The digits of a number read back as that number. */
  lemma {:induction false} DigitsOfNat(n: nat)
    ensures DigitsValue(NatToString(n), false) == n
  {
    var r := NatToString(n);
    if n >= 10 {
      DigitsOfNat(n / 10);
      assert r[..|r| - 1] == NatToString(n / 10);
    }
  }

  /** A number's text starts with a sign or a digit, never with whitespace,
      and its digits are all of it. */
  lemma IntTextShape(n: int)
    ensures var r := IntToString(n);
      && TrimStart(r) == r
      && (n < 0 ==> r[0] == '-' && r[1..] == NatToString(-n))
      && (n >= 0 ==> r == NatToString(n))
  {
    var r := IntToString(n);
    if n < 0 {
      assert r[1..] == NatToString(-n);
    }
    assert !IsSpace(r[0]);
  }

  /** A run of digits is read whole. */
  lemma {:induction false} DigitRunOfDigits(u: String, hex: bool)
    requires AllRadixDigits(u, hex)
    ensures DigitRun(u, hex) == |u|
  {
    if u != [] {
      DigitRunOfDigits(u[1..], hex);
    }
  }

  /** The unsigned readers take a natural number's digits back to it. */
  lemma ParseDigitsOfNat(m: nat)
    ensures ParseDigits(NatToString(m)) == Some(m)
  {
    var u := NatToString(m);
    DigitsOfNat(m);
    DigitRunOfDigits(u, false);
    assert |u| >= 2 ==> IsDigit(u[1]);
    assert u[..|u|] == u;
  }

  lemma ParseDecimalOfNat(m: nat)
    ensures ParseDecimal(NatToString(m)) == Some(m as real)
  {
    var u := NatToString(m);
    DigitsOfNat(m);
    DigitRunOfDigits(u, false);
    assert u[..|u|] == u;
    assert u[|u|..] == [];
  }

  /** `parseInt` reads back the text printed for any integer. */
  lemma ParseIntOfText(n: int)
    ensures ParseInt(IntToString(n)) == Some(n)
  {
    var m := SignOfText(n);
    ParseDigitsOfNat(m);
  }

  /** What the sign reader sees in a number's text: the sign and the digits
      of the magnitude. */
  lemma SignOfText(n: int) returns (m: nat)
    ensures m == if n < 0 then -n else n
    ensures Sign(TrimStart(IntToString(n))) == (n < 0, NatToString(m))
  {
    IntTextShape(n);
    m := if n < 0 then -n else n;
  }

  /** `parseFloat` reads back the text printed for any integer. */
  lemma ParseFloatOfText(n: int)
    ensures ParseFloat(IntToString(n)) == Some(n as real)
  {
    var m := SignOfText(n);
    ParseDecimalOfNat(m);
  }

  /** `parseFloat` is NaN for a text whose first character after the leading
      whitespace cannot begin a number: not a digit, a sign or a dot. */
  lemma ParseFloatNaN(s: String)
    requires var u := TrimStart(s); u == [] || (!IsDigit(u[0]) && u[0] != '+' && u[0] != '-' && u[0] != '.')
    ensures ParseFloat(s).None?
  {
    var u := TrimStart(s);
    assert Sign(u) == (false, u);
    assert DigitRun(u, false) == 0;
  }
}
