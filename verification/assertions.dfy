/**
 * What `doExpect` (simple-test.ts:575-604) hands to the assertion engine, as
 * a function of the context, its four parameters and the rest arguments. The
 * engine itself is outside the model: an `Expectation` records the call
 * `expect(actual)[matcher](...args)` that the façade makes on it.
 */
module Assertions {
  import opened Options
  import opened JsStrings
  import opened JsValues
  import opened Transforms
  import opened Resolver
  import opened Extraction

  datatype Expectation =
    | Expect(actual: Value, matcher: string, args: seq<Value>)
    | ExpectSpy(component: Value, methodName: string, matcher: string, args: seq<Value>)

  /**
   * The `for…in` rewrite of `args`: with `stripTags`, every argument is
   * replaced by `stripHtmlTags` of itself, in index order, and the first one
   * that is neither a string nor an integer throws.
   */
  function StripArgs(args: seq<Value>, stripTags: bool): (r: Outcome<seq<Value>>)
    ensures !stripTags ==> r == Normal(args)
    ensures stripTags ==> (r.Threw? <==> exists k :: 0 <= k < |args| && !Strippable(args[k]))
    ensures r.Normal? ==> |r.value| == |args|
    ensures stripTags && r.Normal? ==>
      forall k :: 0 <= k < |args| ==> Strippable(args[k]) && r.value[k] == StripHtmlTags(args[k])
    decreases |args|
  {
    if !stripTags || args == [] then Normal(args)
    else if !Strippable(args[0]) then Threw
    else match StripArgs(args[1..], true)
      case Threw => Threw
      case Normal(rest) =>
        assert forall k :: 1 <= k < |args| ==> args[k] == args[1..][k - 1];
        Normal([StripHtmlTags(args[0])] + rest)
  }

  /** An argument that is neither a string nor an integer makes the stripping throw. */
  lemma StripArgsThrows(args: seq<Value>, k: nat)
    requires k < |args| && !Strippable(args[k])
    ensures StripArgs(args, true) == Threw
  {
  }

  /** Arguments stripped one by one, or kept as they are, are what `StripArgs` gives. */
  lemma StripArgsOfStripped(args: seq<Value>, out: seq<Value>, stripTags: bool)
    requires |out| == |args|
    requires stripTags ==> forall k :: 0 <= k < |args| ==> Strippable(args[k]) && out[k] == StripHtmlTags(args[k])
    requires !stripTags ==> forall k :: 0 <= k < |args| ==> out[k] == args[k]
    ensures StripArgs(args, stripTags) == Normal(out)
  {
    var r := StripArgs(args, stripTags);
    assert r.Normal?;
    assert forall k :: 0 <= k < |args| ==> out[k] == r.value[k];
    assert out == r.value;
  }

  /** A single string or integer argument is stripped on its own. */
  lemma StripArgsSingle(v: Value)
    requires Strippable(v)
    ensures StripArgs([v], true) == Normal([StripHtmlTags(v)])
  {
    assert [v][1..] == [];
    assert [StripHtmlTags(v)] + [] == [StripHtmlTags(v)];
  }

  /** Stripping the arguments a second time changes nothing. */
  lemma {:induction false} StripArgsIdempotent(args: seq<Value>)
    requires StripArgs(args, true).Normal?
    ensures StripArgs(StripArgs(args, true).value, true) == StripArgs(args, true)
    decreases |args|
  {
    if args != [] {
      var r := StripArgs(args, true).value;
      StripArgsIdempotent(args[1..]);
      StripHtmlTagsIdempotent(args[0]);
      assert r[1..] == StripArgs(args[1..], true).value;
      assert StripArgs(r, true) == Normal([StripHtmlTags(r[0])] + StripArgs(r[1..], true).value);
    }
  }

  /**
   * `getExpected`: a truthy `expected` is the actual value, stripped when
   * `stripTags`; a falsy one (false, 0, NaN, "", undefined) falls back to
   * `getValue(stripTags)`, the element's text.
   */
  function Actual(ctx: Context, expected: Value, stripTags: bool): (r: Outcome<Value>)
    ensures !stripTags ==> r.Normal?
    ensures r.Threw? <==>
      stripTags && (if Truthy(expected) then !Strippable(expected) else ctx.Some? && !Strippable(Content(ctx.value)))
    ensures Truthy(expected) && r.Normal? ==> r.value == if stripTags then StripHtmlTags(expected) else expected
    ensures !Truthy(expected) ==> r == ValueOf(ctx, stripTags, false)
  {
    if Truthy(expected) then (if stripTags then StripOrThrow(expected) else Normal(expected))
    else ValueOf(ctx, stripTags, false)
  }

  /** `typeof args[0] !== 'undefined'`. */
  predicate FirstArgDefined(args: seq<Value>) {
    |args| > 0 && !args[0].Undef?
  }

  /**
   * `doExpect(funcName, expected, stripTags, fakeTest, ...args)`. With a
   * defined first argument the named matcher is called with the (stripped)
   * arguments. Otherwise a fake test asserts `true` is `true`, and anything
   * else calls `toBe` with the arguments as they are.
   */
  function Dispatch(ctx: Context, funcName: string, expected: Value, stripTags: bool, fakeTest: bool,
                    args: seq<Value>): (r: Outcome<Expectation>)
    ensures r.Normal? ==> r.value.Expect?
    ensures FirstArgDefined(args) && r.Normal? ==>
      r.value.matcher == funcName && StripArgs(args, stripTags) == Normal(r.value.args) &&
      Actual(ctx, expected, stripTags) == Normal(r.value.actual)
    ensures FirstArgDefined(args) ==>
      (r.Threw? <==> StripArgs(args, stripTags).Threw? || Actual(ctx, expected, stripTags).Threw?)
    ensures !FirstArgDefined(args) && fakeTest ==> r == Normal(Expect(Bool(true), "toBe", [Bool(true)]))
    ensures !FirstArgDefined(args) && !fakeTest ==>
      (r.Threw? <==> Actual(ctx, expected, stripTags).Threw?) &&
      (r.Normal? ==> r.value == Expect(Actual(ctx, expected, stripTags).value, "toBe", args))
  {
    if FirstArgDefined(args) then
      match StripArgs(args, stripTags)
      case Threw => Threw
      case Normal(stripped) =>
        match Actual(ctx, expected, stripTags)
        case Threw => Threw
        case Normal(actual) => Normal(Expect(actual, funcName, stripped))
    else if fakeTest then Normal(Expect(Bool(true), "toBe", [Bool(true)]))
    else match Actual(ctx, expected, stripTags)
      case Threw => Threw
      case Normal(actual) => Normal(Expect(actual, "toBe", args))
  }

  /** A fake test passes whatever the page holds: the context plays no part. */
  lemma FakeTestIgnoresContext(ctx: Context, other: Context, funcName: string, expected: Value,
                               stripTags: bool, args: seq<Value>)
    requires !FirstArgDefined(args)
    ensures Dispatch(ctx, funcName, expected, stripTags, true, args) ==
            Dispatch(other, funcName, expected, stripTags, true, args)
  {
  }

  /**
   * `toContain(a, true)` and `toMatch(a, true)`: both the element's text and
   * the expected string are stripped of tags before they are compared.
   */
  lemma StrippedComparison(ctx: Context, text: string, funcName: string, a: string, fakeTest: bool)
    requires HasText(ctx, text)
    ensures Dispatch(ctx, funcName, Bool(false), true, fakeTest, [Str(a)]) ==
            Normal(Expect(StripHtmlTags(Str(text)), funcName, [StripHtmlTags(Str(a))]))
  {
    StripArgsSingle(Str(a));
    ValueOfElement(ctx, text, true, false);
  }

  /**
   * The matchers without arguments (`toBeNaN`, `toBeNull`, `toBeDefined`,
   * `toBeTrue`, …) never call the matcher they are named after: they reach
   * `toBe()` with no argument on the element's raw text.
   */
  lemma ZeroArgMatcherCallsToBe(ctx: Context, text: string, name: string)
    requires HasText(ctx, text)
    ensures Dispatch(ctx, name, Undef, false, false, []) == Normal(Expect(Str(text), "toBe", []))
  {
    ValueOfElement(ctx, text, false, false);
  }

  /** A first argument that is undefined also falls back to `toBe`, with all arguments kept. */
  lemma UndefinedFirstArgCallsToBe(ctx: Context, text: string, funcName: string, rest: seq<Value>)
    requires HasText(ctx, text)
    ensures Dispatch(ctx, funcName, Bool(false), false, false, [Undef] + rest) ==
            Normal(Expect(Str(text), "toBe", [Undef] + rest))
  {
    ValueOfElement(ctx, text, false, false);
  }

  /**
   * `lengthToBe(n)` on a `queryAll` result with matches compares the count:
   * the count is truthy, and stripping an integer changes nothing.
   */
  lemma LengthToBeCounts(nodes: seq<Node>, n: int, fakeTest: bool)
    requires |nodes| > 0
    ensures Dispatch(Some(All(nodes)), "toBe", LengthOrUndefined(Some(All(nodes))), fakeTest, false, [Int(n)]) ==
            Normal(Expect(Int(|nodes|), "toBe", [Int(n)]))
  {
    StripArgsSingle(Int(n));
  }

  /**
   * `lengthToBe(n)` on a `queryAll` result without matches: the count 0 is
   * falsy, so the actual value falls back to `getValue(fakeTest)`, and with
   * the default `fakeTest = true` that strips the undefined text and throws.
   */
  lemma LengthToBeEmptyThrows(n: int)
    ensures Dispatch(Some(All([])), "toBe", LengthOrUndefined(Some(All([]))), true, false, [Int(n)]) == Threw
  {
    ValueOfMany([], true, false);
    StripArgsSingle(Int(n));
  }

  /** With `fakeTest = false` the empty `queryAll` result compares undefined instead. */
  lemma LengthToBeEmptyUnfaked(n: int)
    ensures Dispatch(Some(All([])), "toBe", LengthOrUndefined(Some(All([]))), false, false, [Int(n)]) ==
            Normal(Expect(Undef, "toBe", [Int(n)]))
  {
    ValueOfMany([], false, false);
  }

  /** Without a context, `lengthToBe(n)` compares undefined with `n`. */
  lemma LengthToBeNoContext(n: int, fakeTest: bool)
    ensures Dispatch(None, "toBe", LengthOrUndefined(None), fakeTest, false, [Int(n)]) ==
            Normal(Expect(Undef, "toBe", [Int(n)]))
  {
    StripArgsSingle(Int(n));
  }

  /**
   * `toBeGreaterThan`, `toBeGreaterThanOrEqual` and `toBeCloseTo` pass the
   * parsed text as `expected`: an element whose text starts with a non-zero
   * numeral is compared as that integer.
   */
  lemma OrderingComparesParsedText(ctx: Context, i: int, rest: string, funcName: string, args: seq<Value>)
    requires HasText(ctx, IntToDecimal(i) + rest)
    requires rest == [] || !IsDecimalDigit(rest[0])
    requires i != 0 && FirstArgDefined(args)
    ensures Dispatch(ctx, funcName, ValueOf(ctx, false, true).value, false, false, args) ==
            Normal(Expect(Int(i), funcName, args))
  {
    ValueOfNumericText(ctx, i, rest);
  }

  /**
   * When the parse gives 0 or NaN, both falsy, `getExpected` falls back to
   * the raw text, and the ordering matcher receives a string.
   */
  lemma OrderingFallsBackToText(ctx: Context, text: string, funcName: string, args: seq<Value>)
    requires HasText(ctx, text)
    requires !Truthy(ParseInt(Str(text))) && FirstArgDefined(args)
    ensures Dispatch(ctx, funcName, ValueOf(ctx, false, true).value, false, false, args) ==
            Normal(Expect(Str(text), funcName, args))
  {
    ValueOfElement(ctx, text, false, true);
    ValueOfElement(ctx, text, false, false);
  }

  /**
   * `toBeLessThan`, `toBeLessThanOrEqual` and `toBeInstanceOf` pass `false`
   * as `expected`, so the matcher receives the element's raw text.
   */
  lemma LessThanComparesRawText(ctx: Context, text: string, funcName: string, args: seq<Value>)
    requires HasText(ctx, text) && FirstArgDefined(args)
    ensures Dispatch(ctx, funcName, Bool(false), false, false, args) ==
            Normal(Expect(Str(text), funcName, args))
  {
    ValueOfElement(ctx, text, false, false);
  }

  /**
   * The spy assertion (simple-test.ts:71-77): `toHaveBeenCalledWith(...args)`
   * when arguments were given and `toHaveBeenCalled()` when none were.
   */
  function SpyExpectation(component: Value, methodName: string, args: seq<Value>): (r: Expectation)
    ensures r.ExpectSpy? && r.component == component && r.methodName == methodName && r.args == args
    ensures r.matcher == "toHaveBeenCalledWith" <==> |args| > 0
    ensures r.matcher == "toHaveBeenCalled" <==> args == []
  {
    ExpectSpy(component, methodName, if |args| > 0 then "toHaveBeenCalledWith" else "toHaveBeenCalled", args)
  }
}
