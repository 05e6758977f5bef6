/**
 * The number conversions of the JavaScript runtime that the core relies on:
 * decimal rendering of integers (`String(n)`), `parseInt` with and without a
 * radix, the `Number(s)` conversion of a string holding an integer, and the
 * `x || d` fallback applied to a parse.
 *
 * JavaScript numbers are IEEE doubles; every value the core computes with is
 * an integer (hours, milliseconds, lengths), so they are `int` here.
 */
module JsNumbers {
  import opened JsStrings

  /** The value of a character read as a digit of base 36 or below. */
  function DigitValue(c: char): (d: Option<nat>)
    ensures d.Some? ==> d.value < 36
    ensures '0' <= c <= '9' <==> d.Some? && d.value < 10
  {
    if '0' <= c <= '9' then Some(c as int - '0' as int)
    else if 'a' <= c <= 'z' then Some(c as int - 'a' as int + 10)
    else if 'A' <= c <= 'Z' then Some(c as int - 'A' as int + 10)
    else None
  }

  predicate IsDigitIn(c: char, radix: nat) {
    DigitValue(c).Some? && DigitValue(c).value < radix
  }

  predicate AllDigitsIn(s: string, radix: nat) {
    forall i :: 0 <= i < |s| ==> IsDigitIn(s[i], radix)
  }

  /** The length of the longest prefix made of digits of the radix. */
  function DigitRun(s: string, radix: nat): (r: nat)
    ensures r <= |s|
    ensures AllDigitsIn(s[..r], radix)
    ensures r < |s| ==> !IsDigitIn(s[r], radix)
  {
    if s != [] && IsDigitIn(s[0], radix) then
      var r := DigitRun(s[1..], radix);
      assert s[..r + 1] == [s[0]] + s[1..][..r];
      r + 1
    else 0
  }

  /** The value of a digit string, most significant digit first. */
  function DigitsValue(s: string, radix: nat): nat
    requires AllDigitsIn(s, radix)
  {
    if s == [] then 0
    else DigitsValue(s[..|s| - 1], radix) * radix + DigitValue(s[|s| - 1]).value
  }

  function DecimalDigit(d: nat): (c: char)
    requires d < 10
    ensures DigitValue(c) == Some(d)
  {
    ('0' as int + d) as char
  }

  /** `String(n)` for a non-negative integer. */
  function NatToDecimal(n: nat): (s: string)
    ensures |s| >= 1 && AllDigitsIn(s, 10)
  {
    if n < 10 then [DecimalDigit(n)] else NatToDecimal(n / 10) + [DecimalDigit(n % 10)]
  }

  /** `String(i)` for an integer. */
  function IntToDecimal(i: int): string {
    if i < 0 then "-" + NatToDecimal(-i) else NatToDecimal(i)
  }

  /** Reading the decimal rendering back as digits gives the number again. */
  lemma {:induction false} DecimalValue(n: nat)
    ensures DigitsValue(NatToDecimal(n), 10) == n
  {
    if n >= 10 {
      var s := NatToDecimal(n);
      assert s[..|s| - 1] == NatToDecimal(n / 10);
      DecimalValue(n / 10);
    }
  }

  /** Different numbers have different decimal renderings, so they are different property keys. */
  lemma NatToDecimalInjective()
    ensures forall a: nat, b: nat :: NatToDecimal(a) == NatToDecimal(b) ==> a == b
  {
    forall a: nat, b: nat | NatToDecimal(a) == NatToDecimal(b)
      ensures a == b
    {
      DecimalValue(a);
      DecimalValue(b);
    }
  }

  /**
   * `parseInt(input, radix)`, radix 0 standing for an absent radix: skip
   * leading whitespace, read an optional sign, then read the digits; no digits
   * is NaN (None).
   */
  function ParseInt(input: string, radix: int): Option<int> {
    var s := TrimStart(input);
    var negative := s != [] && s[0] == '-';
    var unsigned := if s != [] && (s[0] == '-' || s[0] == '+') then s[1..] else s;
    if radix != 0 && (radix < 2 || radix > 36) then None
    else
      match ParseDigits(unsigned, radix)
      case None => None
      case Some(v) => Some(if negative then -(v as int) else v as int)
  }

  /**
   * The unsigned part of `parseInt`: drop a `0x`/`0X` prefix when the radix is
   * absent or 16 (and read base 16 then), otherwise read base 10 when no radix
   * is given; the value is that of the longest run of digits.
   */
  function ParseDigits(unsigned: string, radix: int): Option<nat>
    requires radix == 0 || 2 <= radix <= 36
  {
    var hex := (radix == 0 || radix == 16) && |unsigned| >= 2 && unsigned[0] == '0'
               && (unsigned[1] == 'x' || unsigned[1] == 'X');
    var digits := if hex then unsigned[2..] else unsigned;
    var base := if hex then 16 else if radix == 0 then 10 else radix;
    var end := DigitRun(digits, base);
    if end == 0 then None else Some(DigitsValue(digits[..end], base))
  }

  /** A decimal rendering is read back whole by the unsigned part of `parseInt`. */
  lemma ParseDigitsOfDecimal(n: nat, radix: int)
    requires radix == 0 || radix == 10
    ensures ParseDigits(NatToDecimal(n), radix) == Some(n)
  {
    var d := NatToDecimal(n);
    var hex := (radix == 0 || radix == 16) && |d| >= 2 && d[0] == '0' && (d[1] == 'x' || d[1] == 'X');
    assert !hex by {
      if |d| >= 2 { assert IsDigitIn(d[1], 10); }
    }
    DigitRunAll(d, 10);
    assert d[..|d|] == d;
    DecimalValue(n);
    assert ParseDigits(d, radix) == (if DigitRun(d, 10) == 0 then None else Some(DigitsValue(d[..DigitRun(d, 10)], 10)));
  }

  /** `parseInt` inverts `String` on integers, with no radix or with radix 10. */
  lemma ParseIntOfDecimal(i: int, radix: int)
    requires radix == 0 || radix == 10
    ensures ParseInt(IntToDecimal(i), radix) == Some(i)
  {
    var n: nat := if i < 0 then -i else i;
    var d := NatToDecimal(n);
    var s := IntToDecimal(i);
    assert IsDigitIn(d[0], 10);
    assert !IsWhiteSpace(s[0]) by {
      if i < 0 { assert s[0] == '-'; } else { assert s[0] == d[0]; }
    }
    assert TrimStart(s) == s;
    var unsigned := if s[0] == '-' || s[0] == '+' then s[1..] else s;
    assert unsigned == d by {
      if i < 0 { assert s[1..] == d; } else { assert s == d; }
    }
    ParseDigitsOfDecimal(n, radix);
    assert ParseInt(s, radix) == (match ParseDigits(unsigned, radix)
      case None => None
      case Some(v) => Some(if s[0] == '-' then -(v as int) else v as int));
  }

  lemma {:induction false} DigitRunAll(s: string, radix: nat)
    requires AllDigitsIn(s, radix)
    ensures DigitRun(s, radix) == |s|
  {
    if s != [] {
      assert AllDigitsIn(s[1..], radix) by {
        forall i | 0 <= i < |s[1..]| ensures IsDigitIn(s[1..][i], radix) {
          assert s[1..][i] == s[i + 1];
        }
      }
      DigitRunAll(s[1..], radix);
    }
  }

  /**
   * `Number(s)` for a string: surrounding whitespace is ignored, the empty
   * string is 0, an optionally signed run of decimal digits is its value, and
   * everything else is NaN (None).
   */
  function StringToNumber(input: string): (r: Option<int>)
    ensures Trim(input) == "" ==> r == Some(0)
  {
    TrimmedToNumber(Trim(input))
  }

  /** `Number` on text already trimmed. */
  function TrimmedToNumber(s: string): Option<int> {
    if s == "" then Some(0)
    else
      var sign := if s[0] == '-' then -1 else 1;
      var digits := if s[0] == '-' || s[0] == '+' then s[1..] else s;
      if digits != "" && AllDigitsIn(digits, 10) then Some(sign * DigitsValue(digits, 10)) else None
  }

  /** `Number(String(i)) == i` for every integer, with whitespace around it or not. */
  lemma StringToNumberOfDecimal(i: int, pad: string)
    requires AllWhiteSpace(pad)
    ensures StringToNumber(pad + IntToDecimal(i) + pad) == Some(i)
  {
    var n: nat := if i < 0 then -i else i;
    var s := IntToDecimal(i);
    DecimalEnds(i);
    TrimOfPadded(pad, s);
    assert StringToNumber(pad + s + pad) == TrimmedToNumber(s);
    DecimalValue(n);
    TrimmedToNumberOfSigned(s, NatToDecimal(n), i < 0);
  }

  /** `String(i)` neither starts nor ends with whitespace. */
  lemma DecimalEnds(i: int)
    ensures var s := IntToDecimal(i);
      s != [] && !IsWhiteSpace(s[0]) && !IsWhiteSpace(s[|s| - 1])
  {
    var n: nat := if i < 0 then -i else i;
    var d := NatToDecimal(n);
    var s := IntToDecimal(i);
    assert IsDigitIn(d[0], 10) && IsDigitIn(d[|d| - 1], 10);
    assert s[|s| - 1] == d[|d| - 1];
    assert s[0] == (if i < 0 then '-' else d[0]);
  }

  /** `Number` on an optionally negative run of decimal digits is its value. */
  lemma TrimmedToNumberOfSigned(s: string, d: string, negative: bool)
    requires d != [] && AllDigitsIn(d, 10) && s == (if negative then "-" + d else d)
    ensures TrimmedToNumber(s) == Some(if negative then -(DigitsValue(d, 10) as int) else DigitsValue(d, 10))
  {
    assert IsDigitIn(d[0], 10);
    if negative {
      assert s[1..] == d;
    }
  }

  /**
   * `parse || d`, the fallback the core applies after `parseInt`: NaN and 0 are
   * both falsy, so either gives the default.
   */
  function OrElse(parse: Option<int>, d: int): (r: int)
    ensures parse == None || parse == Some(0) ==> r == d
    ensures parse.Some? && parse.value != 0 ==> r == parse.value
  {
    if parse.None? || parse.value == 0 then d else parse.value
  }
}
