/**
 * The ECMAScript values that flow through the façade: what the render engine
 * returns, what the tests pass in as expected values, and what reaches the
 * assertion engine. Numbers are integral or NaN; other numbers are not modelled.
 */
module JsValues {
  import opened Options
  import opened JsStrings

  datatype Value =
    | Undef
    | Null
    | Bool(b: bool)
    | Int(i: int)                      // a Number whose value is an integer
    | NaN
    | Str(s: string)
    | Obj(props: map<string, Value>)   // an object: a DebugElement, a native element, an option
    | Arr(items: seq<Value>)           // an array: a `queryAll` result, an option list

  /** The outcome of a call that may throw. The façade's only exception is a TypeError. */
  datatype Outcome<T> = Normal(value: T) | Threw

  /** ToBoolean (ECMA-262 section 7.1.2): the values an `if` or `?:` treats as true. */
  predicate Truthy(v: Value) {
    match v
    case Undef => false
    case Null => false
    case Bool(b) => b
    case Int(i) => i != 0
    case NaN => false
    case Str(s) => s != ""
    case Obj(_) => true
    case Arr(_) => true
  }

  /** `undefined` or `null`: reading a property of these throws. */
  predicate Nullish(v: Value) {
    v.Undef? || v.Null?
  }

  /** The falsy values are exactly undefined, null, false, 0, NaN and the empty string. */
  lemma FalsyValues(v: Value)
    ensures !Truthy(v) <==> v in {Undef, Null, Bool(false), Int(0), NaN, Str("")}
  {
  }

  /** ToString (section 7.1.17); an array is joined with commas, its nullish items as "". */
  function ToJsString(v: Value): string
  {
    match v
    case Undef => "undefined"
    case Null => "null"
    case Bool(b) => if b then "true" else "false"
    case Int(i) => IntToDecimal(i)
    case NaN => "NaN"
    case Str(s) => s
    case Obj(_) => "[object Object]"
    case Arr(items) =>
      JoinWithCommas(seq(|items|, k requires 0 <= k < |items| =>
        if Nullish(items[k]) then "" else ToJsString(items[k])))
  }

  function JoinWithCommas(parts: seq<string>): string
  {
    if parts == [] then ""
    else if |parts| == 1 then parts[0]
    else parts[0] + "," + JoinWithCommas(parts[1..])
  }

  /** `parseInt(v, 10)`: ToString, then the radix-10 parse; the result is an integer or NaN. */
  function ParseInt(v: Value): (r: Value)
    ensures r.Int? || r.NaN?
  {
    match ParseIntString(ToJsString(v))
    case None => NaN
    case Some(n) => Int(n)
  }

  /**
   * `parseInt` undoes the printing of an integer, for integers below 10^21 in
   * magnitude: from 10^21 on, Number::toString switches to exponent form.
   */
  lemma ParseIntOfInt(i: int)
    requires -1_000_000_000_000_000_000_000 < i < 1_000_000_000_000_000_000_000
    ensures ParseInt(Int(i)) == Int(i)
  {
    var s := IntToDecimal(i);
    assert s + [] == s;
    ParseIntOfDecimal(i, []);
  }

  /** `parseInt` reads an integer numeral at the start of a string, whatever non-digit text follows. */
  lemma ParseIntOfNumeral(i: int, rest: string)
    requires rest == [] || !IsDecimalDigit(rest[0])
    ensures ParseInt(Str(IntToDecimal(i) + rest)) == Int(i)
  {
    ParseIntOfDecimal(i, rest);
    ParseIntOfParsed(IntToDecimal(i) + rest, i);
  }

  lemma ParseIntOfParsed(s: string, n: int)
    requires ParseIntString(s) == Some(n)
    ensures ParseInt(Str(s)) == Int(n)
  {
    assert ToJsString(Str(s)) == s;
  }

  /** `parseInt` of undefined reads the text "undefined" and gives NaN. */
  lemma ParseIntOfUndefined()
    ensures ParseInt(Undef) == NaN
  {
    var s := ToJsString(Undef);
    assert s[0] == 'u';
    ParseIntOfWord(s);
  }
}
