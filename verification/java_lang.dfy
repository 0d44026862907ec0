/**
 * The parts of java.lang the secret client relies on: the 32-bit `int`,
 * decimal rendering of integers (`Integer.toString`, `Long.toString`,
 * `String.format("%d")`), `Integer.parseInt` and the rendering of a
 * possibly-null `String` by concatenation (`"" + s` gives "null" for null).
 */
module JavaLang {
  import opened Wrappers

  const MinInt: int := -0x8000_0000
  const MaxInt: int := 0x7fff_ffff

  /** Java's `int`. */
  type Int32 = i: int | -0x8000_0000 <= i <= 0x7fff_ffff

  predicate InInt32Range(i: int) {
    MinInt <= i <= MaxInt
  }

  predicate IsDigit(c: char) {
    '0' <= c <= '9'
  }

  predicate AllDigits(s: string) {
    forall i :: 0 <= i < |s| ==> IsDigit(s[i])
  }

  function DigitValue(c: char): (d: nat)
    requires IsDigit(c)
    ensures d < 10
  {
    c as int - '0' as int
  }

  function DigitChar(d: nat): (c: char)
    requires d < 10
    ensures IsDigit(c) && DigitValue(c) == d
  {
    ('0' as int + d) as char
  }

  /** The number a string of decimal digits denotes, most significant digit first. */
  function DigitsValue(s: string): nat
    requires AllDigits(s)
  {
    if s == [] then 0 else DigitsValue(s[..|s| - 1]) * 10 + DigitValue(s[|s| - 1])
  }

  /** The decimal digits of a natural number, without leading zeros. */
  function NatToDecimal(n: nat): (r: string)
    ensures |r| > 0 && AllDigits(r)
    ensures n > 0 ==> r[0] != '0'
  {
    if n < 10 then [DigitChar(n)] else NatToDecimal(n / 10) + [DigitChar(n % 10)]
  }

  /** `Integer.toString(i)` / `Long.toString(i)`: a minus sign for negatives, then the digits. */
  function IntToDecimal(i: int): (r: string)
    ensures |r| > 0 && (r[0] == '-' <==> i < 0)
    ensures AllDigits(if i < 0 then r[1..] else r)
    ensures i > 0 ==> r[0] != '0'
    ensures i < 0 ==> |r| > 1 && r[1] != '0'
  {
    if i < 0 then
      var d := NatToDecimal(-i);
      assert ("-" + d)[1] == d[0];
      "-" + d
    else NatToDecimal(i)
  }

  /**
   * `Integer.parseInt(s)`: an optional `+` or `-`, then one or more decimal
   * digits, whose value must fit in an `int`; anything else is a
   * NumberFormatException, modelled as `None`. Only ASCII digits are accepted.
   */
  function ParseInt(s: string): (r: Option<Int32>)
    ensures r.Some? ==> |s| > 0 && (IsDigit(s[0]) || s[0] == '-' || s[0] == '+')
    ensures r.Some? && r.value < 0 ==> s[0] == '-'
  {
    if |s| == 0 then None
    else
      var negative := s[0] == '-';
      var digits := if s[0] == '-' || s[0] == '+' then s[1..] else s;
      if |digits| == 0 || !AllDigits(digits) then None
      else
        var magnitude: int := DigitsValue(digits);
        var value: int := if negative then -magnitude else magnitude;
        if InInt32Range(value) then Some(value) else None
  }

  /** Java's rendering of a possibly-null String in a concatenation or `%s`. */
  function ShowString(s: Option<string>): string {
    match s
    case None => "null"
    case Some(t) => t
  }

  /** Java's rendering of a possibly-null Integer in a concatenation. */
  function ShowInteger(i: Option<Int32>): string {
    match i
    case None => "null"
    case Some(n) => IntToDecimal(n)
  }

  /** Reading back the digits of a number gives the number. */
  lemma {:induction false} DigitsValueOfDecimal(n: nat)
    ensures DigitsValue(NatToDecimal(n)) == n
  {
    if n >= 10 {
      var r := NatToDecimal(n);
      assert r[..|r| - 1] == NatToDecimal(n / 10);
      DigitsValueOfDecimal(n / 10);
    }
  }

  /**
   * `Integer.parseInt(Integer.toString(i))` gives back `i` exactly when `i`
   * is a Java `int`; the decimal text of any wider integer is rejected.
   */
  lemma ParseIntOfDecimal(i: int)
    ensures ParseInt(IntToDecimal(i)) == if InInt32Range(i) then Some(i) else None
  {
    var s := IntToDecimal(i);
    if i < 0 {
      assert s[1..] == NatToDecimal(-i);
      DigitsValueOfDecimal(-i);
    } else {
      DigitsValueOfDecimal(i);
    }
  }

  /** Leading zeros and an explicit plus sign are accepted, as `Integer.parseInt` does. */
  lemma ParseIntAcceptsSignAndLeadingZeros()
    ensures ParseInt("+5433") == Some(5433)
    ensures ParseInt("007") == Some(7)
    ensures ParseInt("-0") == Some(0)
  {
    assert "+5433"[1..] == "5433";
    assert DigitsValue("5433") == 5433 by {
      assert "5433"[..3] == "543" && "543"[..2] == "54" && "54"[..1] == "5";
    }
    assert DigitsValue("007") == 7 by {
      assert "007"[..2] == "00" && "00"[..1] == "0";
    }
    assert "-0"[1..] == "0";
    assert DigitsValue("0") == 0 by {
      assert "0"[..0] == [];
    }
  }

  /** A lone sign, an empty string, blanks and non-digits are rejected. */
  lemma ParseIntRejectsMalformed()
    ensures ParseInt("") == None
    ensures ParseInt("-") == None
    ensures ParseInt("+") == None
    ensures ParseInt(" 5433") == None
    ensures ParseInt("not-a-number") == None
    ensures ParseInt("5432.0") == None
  {
  }
}
