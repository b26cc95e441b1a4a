/**
 * The two JavaScript number conversions the logo size goes through:
 * `parseInt(s, 10)` when a size is read (App.tsx:52, App.tsx:73) and
 * `Number.prototype.toString()` when it is written (App.tsx:75).
 * A number is an exact integer or NaN: `parseInt` yields nothing else.
 */
module JsNumber {

  datatype Number = Int(i: int) | NaN

  predicate IsDigit(c: char) {
    '0' <= c <= '9'
  }

  predicate AllDigits(s: string) {
    forall i :: 0 <= i < |s| ==> IsDigit(s[i])
  }

  function DigitValue(c: char): (d: nat)
    requires IsDigit(c)
    ensures d < 10
  {
    (c as int) - ('0' as int)
  }

  function DigitChar(d: nat): (c: char)
    requires d < 10
    ensures IsDigit(c) && DigitValue(c) == d
  {
    (('0' as int) + d) as char
  }

  /** White space and line terminators that ECMAScript's TrimString removes before parsing. */
  predicate IsJsSpace(c: char) {
    var n := c as int;
    n == 0x09 || n == 0x0A || n == 0x0B || n == 0x0C || n == 0x0D || n == 0x20
    || n == 0xA0 || n == 0x1680 || (0x2000 <= n <= 0x200A) || n == 0x2028 || n == 0x2029
    || n == 0x202F || n == 0x205F || n == 0x3000 || n == 0xFEFF
  }

  /** The string without its leading white space. */
  function TrimStart(s: string): (t: string)
    ensures |t| <= |s| && t == s[|s| - |t|..]
    ensures t == [] || !IsJsSpace(t[0])
    ensures forall i :: 0 <= i < |s| - |t| ==> IsJsSpace(s[i])
  {
    if s != [] && IsJsSpace(s[0]) then TrimStart(s[1..]) else s
  }

  /** The length of the longest prefix made of decimal digits. */
  function DigitRun(s: string): (n: nat)
    ensures n <= |s| && AllDigits(s[..n])
    ensures n < |s| ==> !IsDigit(s[n])
  {
    if s != [] && IsDigit(s[0]) then 1 + DigitRun(s[1..]) else 0
  }

  /** The value of a string of decimal digits, most significant first. */
  function DigitsValue(s: string): nat
    requires AllDigits(s)
  {
    if s == [] then 0 else 10 * DigitsValue(s[..|s| - 1]) + DigitValue(s[|s| - 1])
  }

  /**
   * `parseInt(s, 10)`: skip leading white space, take an optional sign, then the longest run of
   * decimal digits; NaN when that run is empty. Everything after the run is ignored.
   */
  function ParseInt(s: string): (n: Number)
    ensures TrimStart(s) == [] ==> n.NaN?
    ensures n.Int? && n.i < 0 ==> TrimStart(s) != [] && TrimStart(s)[0] == '-'
  {
    var t := TrimStart(s);
    var negative := t != [] && t[0] == '-';
    var u := if t != [] && (t[0] == '-' || t[0] == '+') then t[1..] else t;
    var k := DigitRun(u);
    if k == 0 then NaN
    else if negative then Int(0 - DigitsValue(u[..k]))
    else Int(DigitsValue(u[..k]))
  }

  /** The decimal numeral of a natural number, without leading zeros. */
  function Decimal(n: nat): (s: string)
    ensures s != [] && AllDigits(s)
    ensures |s| > 1 ==> s[0] != '0'
  {
    if n < 10 then [DigitChar(n)] else Decimal(n / 10) + [DigitChar(n % 10)]
  }

  /** `toString()` on the numbers above: the decimal numeral, signed when negative, or "NaN". */
  function ToString(x: Number): (s: string)
    ensures s != []
  {
    match x
    case NaN => "NaN"
    case Int(i) => if i < 0 then "-" + Decimal(-i) else Decimal(i)
  }

  /** Reading a printed numeral back gives the number that was printed. */
  lemma {:induction false} DecimalValue(n: nat)
    ensures DigitsValue(Decimal(n)) == n
  {
    if n >= 10 {
      DecimalValue(n / 10);
      var s := Decimal(n);
      assert s[..|s| - 1] == Decimal(n / 10);
    }
  }

  /** `parseInt` stops at the first character that is not a digit: "32px" reads as 32. */
  lemma ParseIntStopsAtNonDigit(n: nat, rest: string)
    requires rest == [] || !IsDigit(rest[0])
    ensures ParseInt(Decimal(n) + rest) == Int(n)
  {
    ParseIntOfDigits(Decimal(n), rest);
    DecimalValue(n);
  }

  /** A run of digits followed by anything but a digit reads as the run's value. */
  lemma ParseIntOfDigits(d: string, rest: string)
    requires d != [] && AllDigits(d)
    requires rest == [] || !IsDigit(rest[0])
    ensures ParseInt(d + rest) == Int(DigitsValue(d))
  {
    var s := d + rest;
    assert s[0] == d[0];
    assert !IsJsSpace(s[0]) && s[0] != '-' && s[0] != '+';
    assert TrimStart(s) == s;
    DigitRunOfNumeral(d, rest);
    assert s[..|d|] == d;
  }

  lemma {:induction false} DigitRunOfNumeral(d: string, rest: string)
    requires AllDigits(d)
    requires rest == [] || !IsDigit(rest[0])
    ensures DigitRun(d + rest) == |d|
  {
    if d != [] {
      assert (d + rest)[1..] == d[1..] + rest;
      DigitRunOfNumeral(d[1..], rest);
    }
  }

  /** A numeral with a leading minus sign reads as the negated number. */
  lemma ParseIntNegative(n: nat)
    ensures ParseInt("-" + Decimal(n)) == Int(0 - n)
  {
    var d := Decimal(n);
    var s := "-" + d;
    assert s[0] == '-' && !IsJsSpace(s[0]);
    assert TrimStart(s) == s;
    assert s[1..] == d + [];
    DigitRunOfNumeral(d, []);
    assert d[..|d|] == d;
    DecimalValue(n);
  }

  /** `parseInt(x.toString(), 10)` is `x` again, NaN included. */
  lemma ParseIntToString(x: Number)
    ensures ParseInt(ToString(x)) == x
  {
    match x
    case NaN =>
      ParseIntNaN();
    case Int(i) =>
      if i < 0 {
        var n: nat := -i;
        var s := ToString(x);
        assert s == "-" + Decimal(n);
        ParseIntNegative(n);
      } else {
        assert ToString(x) == Decimal(i) + [];
        ParseIntStopsAtNonDigit(i, []);
      }
  }

  /** "NaN" has no digits to read. */
  lemma ParseIntNaN()
    ensures ParseInt("NaN") == NaN
  {
    var s := "NaN";
    assert s[0] == 'N' && !IsJsSpace(s[0]);
    assert TrimStart(s) == s;
    assert DigitRun(s) == 0;
  }
}
