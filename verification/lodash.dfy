/**
 * The two lodash helpers the façade imports (simple-test.ts:7-8): `isString`,
 * which is `Value.Str?`, and `get`, a nested property lookup that yields
 * `undefined` instead of throwing when a segment is missing. Paths are split on
 * dots; lodash's bracket and quote syntax is not modelled.
 */
module Lodash {
  import opened Options
  import opened JsStrings
  import opened JsValues

  /** The segments of a dotted path, in order. */
  function Split(s: string, sep: char): (parts: seq<string>)
    ensures |parts| >= 1
    ensures forall k :: 0 <= k < |parts| ==> sep !in parts[k]
    decreases |s|
  {
    match FirstIndex(s, sep)
    case None => [s]
    case Some(i) => [s[..i]] + Split(s[i + 1..], sep)
  }

  function Join(parts: seq<string>, sep: char): string
  {
    if parts == [] then ""
    else if |parts| == 1 then parts[0]
    else parts[0] + [sep] + Join(parts[1..], sep)
  }

  /** Splitting loses nothing: joining the segments gives the path back. */
  lemma {:induction false} JoinSplit(s: string, sep: char)
    ensures Join(Split(s, sep), sep) == s
    decreases |s|
  {
    match FirstIndex(s, sep)
    case None =>
    case Some(i) =>
      var rest := Split(s[i + 1..], sep);
      JoinSplit(s[i + 1..], sep);
      assert Split(s, sep) == [s[..i]] + rest;
      assert s == s[..i] + [sep] + s[i + 1..];
  }

  /** A path made of two dot-free segments splits into exactly those segments. */
  lemma SplitTwo(a: string, b: string, sep: char)
    requires sep !in a && sep !in b
    ensures Split(a + [sep] + b, sep) == [a, b]
  {
    var s := a + [sep] + b;
    FirstIndexOfJoin(a, sep, b);
    assert s[..|a|] == a;
    assert s[|a| + 1..] == b;
  }

  /** A path without a dot is a single segment. */
  lemma SplitOne(a: string, sep: char)
    requires sep !in a
    ensures Split(a, sep) == [a]
  {
  }

  /**
   * CanonicalNumericIndexString restricted to array indices: the key names
   * element `n` exactly when it is the canonical numeral of `n`.
   */
  function ArrayIndex(key: string): Option<nat>
  {
    if key != [] && AllDigits(key) && (|key| == 1 || key[0] != '0') then Some(DigitsValue(key))
    else None
  }

  /** An array key and an index determine each other. */
  lemma ArrayIndexIsCanonical(key: string, n: nat)
    ensures ArrayIndex(key) == Some(n) <==> key == NatToDecimal(n)
  {
    if ArrayIndex(key) == Some(n) {
      DecimalOfDigitsValue(key);
    }
    if key == NatToDecimal(n) {
      DigitsValueOfDecimal(n);
    }
  }

  /** A numeral is not the key "length". */
  lemma NumeralIsNotLength(n: nat)
    ensures NatToDecimal(n) != "length"
  {
    var key := NatToDecimal(n);
    assert IsDecimalDigit(key[0]);
  }

  /** Element `n` of an array is read with the numeral of `n` as key; past the end it is undefined. */
  lemma PropOfIndex(items: seq<Value>, n: nat)
    ensures Prop(Arr(items), NatToDecimal(n)) == if n < |items| then items[n] else Undef
  {
    NumeralIsNotLength(n);
    ArrayIndexIsCanonical(NatToDecimal(n), n);
  }

  /**
   * The member access `v[key]` on a value that is not undefined or null. An
   * object answers its own properties only (its prototype chain is not
   * modelled); arrays and strings answer `length` and their indices.
   */
  function Prop(v: Value, key: string): Value
  {
    match v
    case Obj(props) => if key in props then props[key] else Undef
    case Arr(items) =>
      if key == "length" then Int(|items|)
      else (match ArrayIndex(key)
            case Some(k) => if k < |items| then items[k] else Undef
            case None => Undef)
    case Str(s) =>
      if key == "length" then Int(|s|)
      else (match ArrayIndex(key)
            case Some(k) => if k < |s| then Str([s[k]]) else Undef
            case None => Undef)
    case _ => Undef
  }

  /** lodash `baseGet`: follow the segments while the value is not nullish. */
  function GetPath(v: Value, path: seq<string>): Value
    decreases path
  {
    if path == [] then v
    else if Nullish(v) then Undef
    else GetPath(Prop(v, path[0]), path[1..])
  }

  /** lodash `get(v, path)` with the default value `undefined`. */
  function Get(v: Value, path: string): (r: Value)
    ensures Nullish(v) ==> r == Undef
  {
    GetPath(v, Split(path, '.'))
  }

  /** Following a path is following its first part, then the rest from where that ended. */
  lemma {:induction false} GetPathAppend(v: Value, p: seq<string>, q: seq<string>)
    ensures GetPath(v, p + q) == GetPath(GetPath(v, p), q)
    decreases p
  {
    if p == [] {
      assert p + q == q;
    } else if Nullish(v) {
      assert GetPath(Undef, q) == Undef;
    } else {
      assert (p + q)[1..] == p[1..] + q;
      GetPathAppend(Prop(v, p[0]), p[1..], q);
    }
  }

  /** A segment that is missing makes the whole lookup undefined, without a fault. */
  lemma {:induction false} GetPathMissing(v: Value, p: seq<string>, key: string, q: seq<string>)
    requires !Nullish(GetPath(v, p))
    requires Prop(GetPath(v, p), key) == Undef
    ensures GetPath(v, p + [key] + q) == Undef
  {
    GetPathAppend(v, p, [key] + q);
    assert p + [key] + q == p + ([key] + q);
    assert ([key] + q)[1..] == q;
    assert GetPath(Undef, q) == Undef;
  }

  /** Looking up `a.b` for dot-free `a` and `b` reads `a`, then `b` of it. */
  lemma GetTwo(v: Value, a: string, b: string)
    requires '.' !in a && '.' !in b
    ensures Get(v, a + "." + b) == GetPath(v, [a, b])
  {
    SplitTwo(a, b, '.');
  }

  /** A two-segment path through values that are not nullish is two property reads. */
  lemma GetPathTwo(v: Value, a: string, b: string)
    requires !Nullish(v) && !Nullish(Prop(v, a))
    ensures GetPath(v, [a, b]) == Prop(Prop(v, a), b)
  {
    assert [a, b][1..] == [b];
    assert GetPath(v, [a, b]) == GetPath(Prop(v, a), [b]);
    assert [b][1..] == [];
    assert GetPath(Prop(v, a), [b]) == GetPath(Prop(Prop(v, a), b), []);
  }

  /** The path the façade reads text from: `nativeElement.textContent`. */
  lemma TextContentPath(v: Value)
    ensures Get(v, "nativeElement.textContent") == GetPath(v, ["nativeElement", "textContent"])
  {
    assert "nativeElement.textContent" == "nativeElement" + "." + "textContent";
    GetTwo(v, "nativeElement", "textContent");
  }

  /** The path of a native element's value: `nativeElement.value`. */
  lemma ValuePath(v: Value)
    ensures Get(v, "nativeElement.value") == GetPath(v, ["nativeElement", "value"])
  {
    assert "nativeElement.value" == "nativeElement" + "." + "value";
    GetTwo(v, "nativeElement", "value");
  }

  /** The path the façade reads the native element from: `nativeElement`. */
  lemma NativeElementPath(v: Value)
    ensures Get(v, "nativeElement") == GetPath(v, ["nativeElement"])
  {
    SplitOne("nativeElement", '.');
  }
}
