/** The optional value used throughout the model. */
module Options {
  datatype Option<T> = None | Some(value: T)
}

/**
 * The ECMAScript string built-ins the façade relies on: `String.prototype.trim`,
 * the number-to-string conversion of integers and the global `parseInt` with
 * radix 10 (ECMA-262, 2021 edition, sections 22.1.3.29, 7.1.12.1 and 19.2.5).
 * Strings are sequences of characters; UTF-16 code units are not modelled.
 */
module JsStrings {
  import opened Options

  /** WhiteSpace (section 12.2) and LineTerminator (section 12.3): the characters `trim` removes. */
  predicate IsJsSpace(c: char) {
    || c == '\t' || c == '\U{000B}' || c == '\U{000C}' || c == ' ' || c == '\U{00A0}'
    || c == '\U{FEFF}' || c == '\U{1680}' || ('\U{2000}' <= c <= '\U{200A}')
    || c == '\U{202F}' || c == '\U{205F}' || c == '\U{3000}'
    || c == '\n' || c == '\r' || c == '\U{2028}' || c == '\U{2029}'
  }

  /** The leading white space removed: the longest all-space prefix is dropped. */
  function TrimStart(s: string): (r: string)
    ensures |r| <= |s| && r == s[|s| - |r|..]
    ensures r == [] || !IsJsSpace(r[0])
  {
    if s != [] && IsJsSpace(s[0]) then TrimStart(s[1..]) else s
  }

  /** The trailing white space removed: the longest all-space suffix is dropped. */
  function TrimEnd(s: string): (r: string)
    ensures |r| <= |s| && r == s[..|r|]
    ensures r == [] || !IsJsSpace(r[|r| - 1])
  {
    if s != [] && IsJsSpace(s[|s| - 1]) then TrimEnd(s[..|s| - 1]) else s
  }

  /** Every character of `u` is white space or a line terminator. */
  predicate AllSpace(u: string) {
    forall k :: 0 <= k < |u| ==> IsJsSpace(u[k])
  }

  /** Everything `TrimStart` drops is white space. */
  lemma {:induction false} TrimStartDropsSpaces(s: string)
    ensures AllSpace(s[..|s| - |TrimStart(s)|])
  {
    if s != [] && IsJsSpace(s[0]) {
      var n := |s| - |TrimStart(s)|;
      TrimStartDropsSpaces(s[1..]);
      assert s[..n] == [s[0]] + s[1..][..n - 1];
    }
  }

  /** Everything `TrimEnd` drops is white space. */
  lemma {:induction false} TrimEndDropsSpaces(s: string)
    ensures AllSpace(s[|TrimEnd(s)|..])
  {
    if s != [] && IsJsSpace(s[|s| - 1]) {
      var p := s[..|s| - 1];
      TrimEndDropsSpaces(p);
      assert s[|TrimEnd(s)|..] == p[|TrimEnd(p)|..] + [s[|s| - 1]];
    }
  }

  /**
   * `String.prototype.trim`: a piece of `s` with no space at either end;
   * `TrimIsSlice` shows it is contiguous, and `TrimStartDropsSpaces` and
   * `TrimEndDropsSpaces` that all that is cut is space.
   */
  function Trim(s: string): (r: string)
    ensures r == [] || (!IsJsSpace(r[0]) && !IsJsSpace(r[|r| - 1]))
    ensures forall c :: c in r ==> c in s
  {
    var t := TrimStart(s);
    SliceMembers(s, |s| - |t|, |s|);
    var r := TrimEnd(t);
    SliceMembers(t, 0, |r|);
    r
  }

  /**
   * `trim` keeps a contiguous piece of `s`: what lies before it is what
   * `TrimStart` drops, and what lies after it is what `TrimEnd` drops.
   */
  lemma TrimIsSlice(s: string)
    ensures var i := |s| - |TrimStart(s)|; var r := Trim(s);
      i + |r| <= |s| && s == s[..i] + r + s[i + |r|..] && s[i + |r|..] == TrimStart(s)[|r|..]
  {
    var t := TrimStart(s);
    var i := |s| - |t|;
    var r := TrimEnd(t);
    SliceOfSuffix(s, i, |r|);
    SliceJoin(s, i, i + |r|);
  }

  lemma SliceOfSuffix(s: string, i: nat, n: nat)
    requires i + n <= |s|
    ensures s[i..][..n] == s[i..i + n] && s[i..][n..] == s[i + n..]
  {
  }

  lemma SliceJoin(s: string, i: nat, j: nat)
    requires i <= j <= |s|
    ensures s == s[..i] + s[i..j] + s[j..]
  {
  }

  /** A character of a slice is a character of the whole. */
  lemma SliceMembers(s: string, i: nat, j: nat)
    requires i <= j <= |s|
    ensures forall c :: c in s[i..j] ==> c in s
  {
    forall c | c in s[i..j]
      ensures c in s
    {
      var k :| 0 <= k < j - i && s[i..j][k] == c;
      assert s[i + k] == c;
    }
  }

  /** Trimming is idempotent. */
  lemma TrimIdempotent(s: string)
    ensures Trim(Trim(s)) == Trim(s)
  {
    var r := Trim(s);
    if r != [] {
      TrimStartOfNonSpace(r);
      TrimEndOfNonSpace(r);
    }
  }

  /** Text that ends with a character other than white space is not trimmed. */
  lemma TrimEndOfNonSpace(s: string)
    requires s != [] && !IsJsSpace(s[|s| - 1])
    ensures TrimEnd(s) == s
  {
  }

  predicate IsDecimalDigit(c: char) {
    '0' <= c <= '9'
  }

  predicate AllDigits(s: string) {
    forall k :: 0 <= k < |s| ==> IsDecimalDigit(s[k])
  }

  function DigitValue(c: char): (d: nat)
    requires IsDecimalDigit(c)
    ensures d < 10
  {
    (c as int) - ('0' as int)
  }

  function DigitChar(d: nat): (c: char)
    requires d < 10
    ensures IsDecimalDigit(c) && DigitValue(c) == d
  {
    (('0' as int) + d) as char
  }

  /** The number a string of decimal digits denotes, most significant digit first. */
  function DigitsValue(s: string): nat
    requires AllDigits(s)
  {
    if s == [] then 0 else DigitsValue(s[..|s| - 1]) * 10 + DigitValue(s[|s| - 1])
  }

  /** The canonical decimal numeral of a natural number: no leading zero except in "0". */
  function NatToDecimal(n: nat): (r: string)
    ensures r != [] && AllDigits(r)
    ensures |r| > 1 ==> r[0] != '0'
  {
    if n < 10 then [DigitChar(n)] else NatToDecimal(n / 10) + [DigitChar(n % 10)]
  }

  /**
   * Number::toString on an integral Number (section 6.1.6.1.20), as it is for
   * magnitudes below 10^21; from 10^21 on the ECMAScript form is exponential
   * (`1e+21`), which this function does not produce.
   */
  function IntToDecimal(i: int): (r: string)
    ensures r != [] && (r[0] == '-' || IsDecimalDigit(r[0]))
  {
    if i < 0 then "-" + NatToDecimal(-i) else NatToDecimal(i)
  }

  /** Reading a numeral back gives the number it was written from. */
  lemma {:induction false} DigitsValueOfDecimal(n: nat)
    ensures DigitsValue(NatToDecimal(n)) == n
  {
    if n >= 10 {
      var d := NatToDecimal(n / 10);
      var s := d + [DigitChar(n % 10)];
      assert s[..|s| - 1] == d;
      DigitsValueOfDecimal(n / 10);
    }
  }

  /** A canonical numeral is the numeral of the number it denotes. */
  lemma {:induction false} DecimalOfDigitsValue(s: string)
    requires s != [] && AllDigits(s)
    requires |s| > 1 ==> s[0] != '0'
    ensures NatToDecimal(DigitsValue(s)) == s
  {
    if |s| > 1 {
      var p := s[..|s| - 1];
      DigitsValuePositive(p);
      DecimalOfDigitsValue(p);
      var n := DigitsValue(s);
      assert n / 10 == DigitsValue(p) && n % 10 == DigitValue(s[|s| - 1]);
      assert s == p + [s[|s| - 1]];
    }
  }

  lemma {:induction false} DigitsValuePositive(s: string)
    requires s != [] && AllDigits(s) && s[0] != '0'
    ensures DigitsValue(s) >= 1
  {
    if |s| > 1 {
      DigitsValuePositive(s[..|s| - 1]);
    }
  }

  /** The longest prefix of `s` made of decimal digits. */
  function LeadingDigits(s: string): (r: string)
    ensures |r| <= |s| && r == s[..|r|] && AllDigits(r)
    ensures |r| == |s| || !IsDecimalDigit(s[|r|])
  {
    if s != [] && IsDecimalDigit(s[0]) then [s[0]] + LeadingDigits(s[1..]) else []
  }

  lemma {:induction false} LeadingDigitsOfJoin(d: string, rest: string)
    requires AllDigits(d)
    requires rest == [] || !IsDecimalDigit(rest[0])
    ensures LeadingDigits(d + rest) == d
  {
    if d != [] {
      assert (d + rest)[1..] == d[1..] + rest;
      LeadingDigitsOfJoin(d[1..], rest);
    }
  }

  /**
   * `parseInt(s, 10)` (section 19.2.5): skip leading white space, read one
   * optional sign, then the longest run of decimal digits. `None` stands for
   * NaN. The conversion of the mathematical value to a Number (rounding of very
   * long numerals, the sign of zero) is not modelled: the result is exact.
   */
  function ParseIntString(s: string): Option<int>
  {
    ParseSigned(TrimStart(s))
  }

  /** One optional sign, then the digits; a minus sign negates their value. */
  function ParseSigned(t: string): Option<int>
  {
    if t != [] && (t[0] == '+' || t[0] == '-') then WithSign(t[0] == '-', ParseDigits(t[1..]))
    else WithSign(false, ParseDigits(t))
  }

  /** The value of the longest run of leading decimal digits; `None` when there is none. */
  function ParseDigits(u: string): (r: Option<nat>)
    ensures r.None? <==> u == [] || !IsDecimalDigit(u[0])
  {
    var z := LeadingDigits(u);
    if z == [] then None else Some(DigitsValue(z))
  }

  function WithSign(negative: bool, magnitude: Option<nat>): (r: Option<int>)
    ensures r.None? <==> magnitude.None?
  {
    match magnitude
    case None => None
    case Some(m) => Some(if negative then -(m as int) else m as int)
  }

  /** `parseInt` reads back any integer numeral, whatever non-digit text follows it. */
  lemma ParseIntOfDecimal(i: int, rest: string)
    requires rest == [] || !IsDecimalDigit(rest[0])
    ensures ParseIntString(IntToDecimal(i) + rest) == Some(i)
  {
    if i < 0 {
      ParseIntOfNegative(i, rest);
    } else {
      ParseIntOfNatural(i, rest);
    }
  }

  lemma ParseIntOfNatural(n: nat, rest: string)
    requires rest == [] || !IsDecimalDigit(rest[0])
    ensures ParseIntString(NatToDecimal(n) + rest) == Some(n)
  {
    DigitsValueOfDecimal(n);
    ParseIntOfDigits(NatToDecimal(n), rest, n);
  }

  lemma ParseIntOfNegative(i: int, rest: string)
    requires i < 0
    requires rest == [] || !IsDecimalDigit(rest[0])
    ensures ParseIntString(IntToDecimal(i) + rest) == Some(i)
  {
    var n: nat := -i;
    NegativeDecimalJoin(i, rest);
    DigitsValueOfDecimal(n);
    ParseIntOfMinusDigits(IntToDecimal(i) + rest, NatToDecimal(n), rest, n);
  }

  /** The numeral of a negative integer is a minus sign before the numeral of its magnitude. */
  lemma NegativeDecimalJoin(i: int, rest: string)
    requires i < 0
    ensures IntToDecimal(i) + rest == ['-'] + (NatToDecimal(-i) + rest)
  {
  }

  /** Digits, then text that does not start with a digit: the value of the digits. */
  lemma ParseIntOfDigits(d: string, rest: string, m: nat)
    requires d != [] && AllDigits(d) && DigitsValue(d) == m
    requires rest == [] || !IsDecimalDigit(rest[0])
    ensures ParseIntString(d + rest) == Some(m)
  {
    var s := d + rest;
    assert s[0] == d[0];
    DigitIsNotSpace(s[0]);
    TrimStartOfNonSpace(s);
    ParseDigitsOfJoin(d, rest, m);
    calc {
      ParseIntString(s);
      ParseSigned(s);
      WithSign(false, ParseDigits(s));
    }
  }

  /** A minus sign, digits, then text that does not start with a digit: the negated value of the digits. */
  lemma ParseIntOfMinusDigits(s: string, d: string, rest: string, m: nat)
    requires s == ['-'] + (d + rest)
    requires d != [] && AllDigits(d) && DigitsValue(d) == m
    requires rest == [] || !IsDecimalDigit(rest[0])
    ensures ParseIntString(s) == Some(-(m as int))
  {
    assert s[0] == '-' && s[1..] == d + rest;
    TrimStartOfNonSpace(s);
    ParseDigitsOfJoin(d, rest, m);
    calc {
      ParseIntString(s);
      ParseSigned(s);
      WithSign(true, ParseDigits(d + rest));
    }
  }

  lemma DigitIsNotSpace(c: char)
    requires IsDecimalDigit(c)
    ensures !IsJsSpace(c)
  {
  }

  /** Digits, then text that does not start with a digit: the value of the digits. */
  lemma ParseDigitsOfJoin(d: string, rest: string, m: nat)
    requires d != [] && AllDigits(d) && DigitsValue(d) == m
    requires rest == [] || !IsDecimalDigit(rest[0])
    ensures ParseDigits(d + rest) == Some(m)
  {
    LeadingDigitsOfJoin(d, rest);
  }

  /** Text that starts with a character other than white space is not trimmed. */
  lemma TrimStartOfNonSpace(s: string)
    requires s != [] && !IsJsSpace(s[0])
    ensures TrimStart(s) == s
  {
  }

  /** Text that starts with a letter parses as NaN. */
  lemma ParseIntOfWord(s: string)
    requires s != [] && 'a' <= s[0] <= 'z'
    ensures ParseIntString(s) == None
  {
    TrimStartOfNonSpace(s);
  }

  /** `parseInt` gives NaN exactly when no digit follows the leading space and sign. */
  lemma ParseIntNaN(s: string)
    ensures ParseIntString(s).None? <==>
      (var t := TrimStart(s);
       var u := if t != [] && (t[0] == '+' || t[0] == '-') then t[1..] else t;
       u == [] || !IsDecimalDigit(u[0]))
  {
  }

  /** The index of the first occurrence of `c` in `s`, if any. */
  function FirstIndex(s: string, c: char): (r: Option<nat>)
    ensures r.Some? ==> r.value < |s| && s[r.value] == c && c !in s[..r.value]
    ensures r.None? ==> c !in s
  {
    if s == [] then None
    else if s[0] == c then Some(0)
    else match FirstIndex(s[1..], c)
      case None => None
      case Some(i) => Some(i + 1)
  }

  /** The first occurrence of `c` is found wherever it is. */
  lemma {:induction false} FirstIndexAt(s: string, c: char, i: nat)
    requires i < |s| && s[i] == c && c !in s[..i]
    ensures FirstIndex(s, c) == Some(i)
  {
    if i > 0 {
      assert s[0] in s[..i];
      assert s[1..][..i - 1] == s[..i][1..];
      FirstIndexAt(s[1..], c, i - 1);
    }
  }

  lemma FirstIndexOfJoin(a: string, c: char, b: string)
    requires c !in a
    ensures FirstIndex(a + [c] + b, c) == Some(|a|)
  {
    assert (a + [c] + b)[..|a|] == a;
    FirstIndexAt(a + [c] + b, c, |a|);
  }
}
