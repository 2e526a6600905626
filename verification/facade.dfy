/**
 * The fluent test façade `SimpleTest` (simple-test.ts:13-659). Its one piece
 * of mutable page state is `el`, the result of the last query; every query
 * first re-renders the fixture. The render engine is given as two functions
 * of the render generation and the selector, so a query sees the tree as the
 * last `detectChanges` left it. The calls the façade makes on the assertion
 * engine, the spy and the page are recorded, in order, in two logs.
 */
module Facade {
  import opened Options
  import opened JsValues
  import opened Transforms
  import opened Selectors
  import opened Resolver
  import opened Extraction
  import opened Assertions

  /** A side effect on the component under test or on the page. */
  datatype Interaction =
    | SpyInstalled(component: Value, methodName: string)              // spy(component, method).and.callThrough()
    | Invoked(component: Value, methodName: string, args: seq<Value>)  // component[method](...args)
    | ValueAssigned(v: Value)                                          // el.value = v
    | ChangeDispatched                                                 // el.dispatchEvent(new Event('change'))

  /**
   * The `for…in` loop of `doExpect`: each entry of `args`, in index order,
   * is replaced by its tag-stripped self when `stripTags` (and by itself
   * otherwise). `ok` is false when an entry made the stripping throw.
   */
  method StripArgsInPlace(args: array<Value>, stripTags: bool) returns (ok: bool)
    modifies args
    ensures ok <==> StripArgs(old(args[..]), stripTags).Normal?
    ensures ok ==> args[..] == StripArgs(old(args[..]), stripTags).value
  {
    ghost var original := args[..];
    var i := 0;
    while i < args.Length
      invariant 0 <= i <= args.Length
      invariant forall k :: i <= k < args.Length ==> args[k] == original[k]
      invariant stripTags ==> forall k :: 0 <= k < i ==> Strippable(original[k]) && args[k] == StripHtmlTags(original[k])
      invariant !stripTags ==> forall k :: 0 <= k < i ==> args[k] == original[k]
    {
      if stripTags {
        if !Strippable(args[i]) {
          StripArgsThrows(original, i);
          return false;
        }
        args[i] := StripHtmlTags(args[i]);
      } else {
        args[i] := args[i];
      }
      i := i + 1;
    }
    StripArgsOfStripped(original, args[..], stripTags);
    return true;
  }

  class SimpleTest {
    /** `de.query(By.css(selector))` against the tree of a render generation. */
    const queryOne: (nat, string) -> Option<Node>
    /** `de.queryAll(By.css(selector))` against the tree of a render generation. */
    const queryAll: (nat, string) -> seq<Node>
    /** The result of the last query; `None` before the first one and after a miss. */
    var el: Context
    /** How many times `fixture.detectChanges()` has run: the current render generation. */
    var renders: nat
    /** The calls made on the assertion engine, oldest first. */
    var expectations: seq<Expectation>
    /** The calls made on the spy, the component and the native element, oldest first. */
    var interactions: seq<Interaction>

    /** The constructor renders once; nothing has been queried yet. */
    constructor (queryOne: (nat, string) -> Option<Node>, queryAll: (nat, string) -> seq<Node>)
      ensures this.queryOne == queryOne && this.queryAll == queryAll
      ensures el == None && renders == 1 && expectations == [] && interactions == []
    {
      this.queryOne := queryOne;
      this.queryAll := queryAll;
      el := None;
      renders := 0;
      expectations := [];
      interactions := [];
      new;
      DetectChanges();
    }

    /** `detectChanges`: one more render; the context is not re-queried. */
    method DetectChanges()
      modifies this
      ensures renders == old(renders) + 1
      ensures el == old(el) && expectations == old(expectations) && interactions == old(interactions)
    {
      renders := renders + 1;
    }

    /**
     * `getDomElement`: render first, then overwrite `el` with what the query
     * finds in the new tree, even when it finds nothing.
     */
    method GetDomElement(stringPath: string, neededData: Value, isSingle: bool) returns (r: Reply)
      modifies this
      ensures renders == old(renders) + 1
      ensures el == Resolve(queryOne, queryAll, renders, stringPath, isSingle)
      ensures r == DomReply(el, neededData)
      ensures expectations == old(expectations) && interactions == old(interactions)
    {
      DetectChanges();
      el := Resolve(queryOne, queryAll, renders, stringPath, isSingle);
      r := DomReply(el, neededData);
    }

    /** `getByClassName(className, neededData = false, tag = '', isSingle = true)`. */
    method GetByClassName(className: string, neededData: Value := Bool(false), tag: Value := Str(""), isSingle: bool := true) returns (r: Reply)
      modifies this
      ensures renders == old(renders) + 1
      ensures el == Resolve(queryOne, queryAll, renders, ClassSelector(className, tag), isSingle)
      ensures r == DomReply(el, neededData)
      ensures expectations == old(expectations) && interactions == old(interactions)
    {
      var domElement := GetDomElement(ClassSelector(className, tag), neededData, isSingle);
      OuterTestIsRedundant(el, neededData);
      r := if Truthy(neededData) then domElement else Facade;
    }

    /** `getById(idEl, neededData = false, tag = '', isSingle = true)`. */
    method GetById(id: string, neededData: Value := Bool(false), tag: Value := Str(""), isSingle: bool := true) returns (r: Reply)
      modifies this
      ensures renders == old(renders) + 1
      ensures el == Resolve(queryOne, queryAll, renders, IdSelector(id, tag), isSingle)
      ensures r == DomReply(el, neededData)
      ensures expectations == old(expectations) && interactions == old(interactions)
    {
      var domElement := GetDomElement(IdSelector(id, tag), neededData, isSingle);
      OuterTestIsRedundant(el, neededData);
      r := if Truthy(neededData) then domElement else Facade;
    }

    /** `getByTag(tag, neededData = false, isSingle = true)`: the tag is the selector. */
    method GetByTag(tag: string, neededData: Value := Bool(false), isSingle: bool := true) returns (r: Reply)
      modifies this
      ensures renders == old(renders) + 1
      ensures el == Resolve(queryOne, queryAll, renders, tag, isSingle)
      ensures r == DomReply(el, neededData)
      ensures expectations == old(expectations) && interactions == old(interactions)
    {
      var domElement := GetDomElement(tag, neededData, isSingle);
      OuterTestIsRedundant(el, neededData);
      r := if Truthy(neededData) then domElement else Facade;
    }

    /** `getByAttr(tag, attrKey, attrValue, neededData = false, isSingle = true)`. */
    method GetByAttr(tag: string, key: string, value: string, neededData: Value := Bool(false), isSingle: bool := true) returns (r: Reply)
      modifies this
      ensures renders == old(renders) + 1
      ensures el == Resolve(queryOne, queryAll, renders, AttrSelector(tag, key, value), isSingle)
      ensures r == DomReply(el, neededData)
      ensures expectations == old(expectations) && interactions == old(interactions)
    {
      var domElement := GetDomElement(AttrSelector(tag, key, value), neededData, isSingle);
      OuterTestIsRedundant(el, neededData);
      r := if Truthy(neededData) then domElement else Facade;
    }

    /** One call of `doExpect` or of the assertion engine happened, and nothing else changed. */
    twostate predicate Records(r: Outcome<Expectation>)
      reads this
    {
      expectations == old(expectations) + (if r.Normal? then [r.value] else []) &&
      el == old(el) && renders == old(renders) && interactions == old(interactions)
    }

    /**
     * `doExpect(funcName, expected, stripTags, fakeTest, ...args)`. With a
     * defined first argument, the `for…in` loop rewrites `args` in place,
     * stripping each entry when `stripTags`; a TypeError from the stripping
     * ends the call. Then one expectation is made, as `Dispatch` says.
     */
    method DoExpect(funcName: string, expected: Value, stripTags: bool, fakeTest: bool, args: array<Value>)
      returns (r: Outcome<Expectation>)
      modifies this, args
      ensures r == Dispatch(el, funcName, expected, stripTags, fakeTest, old(args[..]))
      ensures Records(r)
      ensures r.Normal? && FirstArgDefined(old(args[..])) ==> args[..] == r.value.args
      ensures !FirstArgDefined(old(args[..])) ==> args[..] == old(args[..])
    {
      if args.Length > 0 && !args[0].Undef? {
        var ok := StripArgsInPlace(args, stripTags);
        if !ok {
          return Threw;
        }
        var actual := Actual(el, expected, stripTags);
        if actual.Threw? {
          return Threw;
        }
        r := Normal(Expect(actual.value, funcName, args[..]));
      } else if fakeTest {
        r := Normal(Expect(Bool(true), "toBe", [Bool(true)]));
      } else {
        var actual := Actual(el, expected, stripTags);
        if actual.Threw? {
          return Threw;
        }
        r := Normal(Expect(actual.value, "toBe", args[..]));
      }
      expectations := expectations + [r.value];
    }

    /** `toBeCloseTo(arg, precision)`: the parsed text is passed as `expected`. */
    method ToBeCloseTo(arg: Value, precision: Value) returns (r: Outcome<Expectation>)
      modifies this
      ensures r == Dispatch(el, "toBeCloseTo", ValueOf(el, false, true).value, false, false, [arg, precision])
      ensures Records(r)
    {
      var args := new Value[2][arg, precision];
      assert args[..] == [arg, precision];
      r := DoExpect("toBeCloseTo", ValueOf(el, false, true).value, false, false, args);
    }

    /** `toBeGreaterThan(arg)`: the parsed text is passed as `expected`. */
    method ToBeGreaterThan(arg: Value) returns (r: Outcome<Expectation>)
      modifies this
      ensures r == Dispatch(el, "toBeGreaterThan", ValueOf(el, false, true).value, false, false, [arg])
      ensures Records(r)
    {
      var args := new Value[1][arg];
      assert args[..] == [arg];
      r := DoExpect("toBeGreaterThan", ValueOf(el, false, true).value, false, false, args);
    }

    /** `toBeGreaterThanOrEqual(arg)`: the parsed text is passed as `expected`. */
    method ToBeGreaterThanOrEqual(arg: Value) returns (r: Outcome<Expectation>)
      modifies this
      ensures r == Dispatch(el, "toBeGreaterThanOrEqual", ValueOf(el, false, true).value, false, false, [arg])
      ensures Records(r)
    {
      var args := new Value[1][arg];
      assert args[..] == [arg];
      r := DoExpect("toBeGreaterThanOrEqual", ValueOf(el, false, true).value, false, false, args);
    }

    /** `toBeInstanceOf(arg)`: `false` is passed as `expected`. */
    method ToBeInstanceOf(arg: Value) returns (r: Outcome<Expectation>)
      modifies this
      ensures r == Dispatch(el, "toBeInstanceOf", Bool(false), false, false, [arg])
      ensures Records(r)
    {
      var args := new Value[1][arg];
      assert args[..] == [arg];
      r := DoExpect("toBeInstanceOf", Bool(false), false, false, args);
    }

    /** `toBeLessThan(arg)`: `false` is passed as `expected`. */
    method ToBeLessThan(arg: Value) returns (r: Outcome<Expectation>)
      modifies this
      ensures r == Dispatch(el, "toBeLessThan", Bool(false), false, false, [arg])
      ensures Records(r)
    {
      var args := new Value[1][arg];
      assert args[..] == [arg];
      r := DoExpect("toBeLessThan", Bool(false), false, false, args);
    }

    /** `toBeLessThanOrEqual(arg)`: `false` is passed as `expected`. */
    method ToBeLessThanOrEqual(arg: Value) returns (r: Outcome<Expectation>)
      modifies this
      ensures r == Dispatch(el, "toBeLessThanOrEqual", Bool(false), false, false, [arg])
      ensures Records(r)
    {
      var args := new Value[1][arg];
      assert args[..] == [arg];
      r := DoExpect("toBeLessThanOrEqual", Bool(false), false, false, args);
    }

    /**
     * The matchers without arguments: `doExpect(name)` alone, so `expected`,
     * `stripTags` and `fakeTest` are undefined and `args` is empty.
     */
    method ExpectWithoutArgs(name: string) returns (r: Outcome<Expectation>)
      modifies this
      ensures r == Dispatch(el, name, Undef, false, false, [])
      ensures Records(r)
    {
      var args := new Value[0];
      assert args[..] == [];
      r := DoExpect(name, Undef, false, false, args);
    }

    /** `toBeNaN()`. */
    method ToBeNaN() returns (r: Outcome<Expectation>)
      modifies this
      ensures r == Dispatch(el, "toBeNaN", Undef, false, false, [])
      ensures Records(r)
    {
      r := ExpectWithoutArgs("toBeNaN");
    }

    /** `toBeNegativeInfinity()`. */
    method ToBeNegativeInfinity() returns (r: Outcome<Expectation>)
      modifies this
      ensures r == Dispatch(el, "toBeNegativeInfinity", Undef, false, false, [])
      ensures Records(r)
    {
      r := ExpectWithoutArgs("toBeNegativeInfinity");
    }

    /** `toBeNull()`. */
    method ToBeNull() returns (r: Outcome<Expectation>)
      modifies this
      ensures r == Dispatch(el, "toBeNull", Undef, false, false, [])
      ensures Records(r)
    {
      r := ExpectWithoutArgs("toBeNull");
    }

    /** `toBePositiveInfinity()`. */
    method ToBePositiveInfinity() returns (r: Outcome<Expectation>)
      modifies this
      ensures r == Dispatch(el, "toBePositiveInfinity", Undef, false, false, [])
      ensures Records(r)
    {
      r := ExpectWithoutArgs("toBePositiveInfinity");
    }

    /** `toBeTrue()`. */
    method ToBeTrue() returns (r: Outcome<Expectation>)
      modifies this
      ensures r == Dispatch(el, "toBeTrue", Undef, false, false, [])
      ensures Records(r)
    {
      r := ExpectWithoutArgs("toBeTrue");
    }

    /** `toBeUndefined()`. */
    method ToBeUndefined() returns (r: Outcome<Expectation>)
      modifies this
      ensures r == Dispatch(el, "toBeUndefined", Undef, false, false, [])
      ensures Records(r)
    {
      r := ExpectWithoutArgs("toBeUndefined");
    }

    /** `toBeDefined()`. */
    method ToBeDefined() returns (r: Outcome<Expectation>)
      modifies this
      ensures r == Dispatch(el, "toBeDefined", Undef, false, false, [])
      ensures Records(r)
    {
      r := ExpectWithoutArgs("toBeDefined");
    }

    /** `toContain(arg, stripTags = false)`. */
    method ToContain(arg: Value, stripTags: bool := false) returns (r: Outcome<Expectation>)
      modifies this
      ensures r == Dispatch(el, "toContain", Bool(false), stripTags, false, [arg])
      ensures Records(r)
    {
      var args := new Value[1][arg];
      assert args[..] == [arg];
      r := DoExpect("toContain", Bool(false), stripTags, false, args);
    }

    /** `toMatch(arg, stripTags = false)`. */
    method ToMatch(arg: Value, stripTags: bool := false) returns (r: Outcome<Expectation>)
      modifies this
      ensures r == Dispatch(el, "toMatch", Bool(false), stripTags, false, [arg])
      ensures Records(r)
    {
      var args := new Value[1][arg];
      assert args[..] == [arg];
      r := DoExpect("toMatch", Bool(false), stripTags, false, args);
    }

    /** `toBe(arg, fakeTest = true, stripTags = false)`. */
    method ToBe(arg: Value, fakeTest: bool := true, stripTags: bool := false) returns (r: Outcome<Expectation>)
      modifies this
      ensures r == Dispatch(el, "toBe", Bool(false), stripTags, fakeTest, [arg])
      ensures Records(r)
    {
      var args := new Value[1][arg];
      assert args[..] == [arg];
      r := DoExpect("toBe", Bool(false), stripTags, fakeTest, args);
    }

    /** `toEqual(arg, fakeTest = true)`. */
    method ToEqual(arg: Value, fakeTest: bool := true) returns (r: Outcome<Expectation>)
      modifies this
      ensures r == Dispatch(el, "toEqual", Bool(false), false, fakeTest, [arg])
      ensures Records(r)
    {
      var args := new Value[1][arg];
      assert args[..] == [arg];
      r := DoExpect("toEqual", Bool(false), false, fakeTest, args);
    }

    /**
     * `lengthToBe(value, fakeTest = true)`: the length is `expected`, and `fakeTest`
     * goes into the `stripTags` slot while `false` goes into the `fakeTest` one.
     */
    method LengthToBe(value: Value, fakeTest: bool := true) returns (r: Outcome<Expectation>)
      modifies this
      ensures r == Dispatch(el, "toBe", LengthOrUndefined(el), fakeTest, false, [value])
      ensures Records(r)
    {
      var args := new Value[1][value];
      assert args[..] == [value];
      r := DoExpect("toBe", LengthOrUndefined(el), fakeTest, false, args);
    }

    /** `expect(this.getElement())[matcher](...args)`, without `doExpect`. */
    method ExpectElement(matcher: string, args: seq<Value>) returns (r: Outcome<Expectation>)
      modifies this
      ensures r == Normal(Expect(ElementOf(el), matcher, args))
      ensures Records(r)
    {
      r := Normal(Expect(ElementOf(el), matcher, args));
      expectations := expectations + [r.value];
    }

    /** `toBeTruthy()`: on the native element, not its text. */
    method ToBeTruthy() returns (r: Outcome<Expectation>)
      modifies this
      ensures r == Normal(Expect(ElementOf(el), "toBeTruthy", []))
      ensures Records(r)
    {
      r := ExpectElement("toBeTruthy", []);
    }

    /** `toBeFalsy()`: on the native element. */
    method ToBeFalsy() returns (r: Outcome<Expectation>)
      modifies this
      ensures r == Normal(Expect(ElementOf(el), "toBeFalsy", []))
      ensures Records(r)
    {
      r := ExpectElement("toBeFalsy", []);
    }

    /** `toHaveClass(expected)`: on the native element. */
    method ToHaveClass(expected: string) returns (r: Outcome<Expectation>)
      modifies this
      ensures r == Normal(Expect(ElementOf(el), "toHaveClass", [Str(expected)]))
      ensures Records(r)
    {
      r := ExpectElement("toHaveClass", [Str(expected)]);
    }

    /** `toBeFalse()`: on the native element. */
    method ToBeFalse() returns (r: Outcome<Expectation>)
      modifies this
      ensures r == Normal(Expect(ElementOf(el), "toBeFalse", []))
      ensures Records(r)
    {
      r := ExpectElement("toBeFalse", []);
    }

    /**
     * `spyOn(component, method, ...args)`: install a spy that calls through,
     * call the method with the arguments, then assert the spy saw the call,
     * with the arguments if there were any.
     */
    method SpyOn(component: Value, methodName: string, args: seq<Value>)
      modifies this
      ensures interactions == old(interactions) + [SpyInstalled(component, methodName), Invoked(component, methodName, args)]
      ensures expectations == old(expectations) + [SpyExpectation(component, methodName, args)]
      ensures el == old(el) && renders == old(renders)
    {
      interactions := interactions + [SpyInstalled(component, methodName), Invoked(component, methodName, args)];
      expectations := expectations + [SpyExpectation(component, methodName, args)];
    }

    /**
     * `changeSelectOption(keyIndex)`. Without a context nothing happens and
     * the result is undefined. Otherwise the selected option's value is looked
     * up, assigned to the native element's `value`, a `change` event is
     * dispatched and the fixture re-renders; the result is the assigned value.
     * A failed lookup, or a native element that is not an object, throws
     * before anything changes.
     */
    method ChangeSelectOption(key: Value) returns (r: Outcome<Value>)
      modifies this
      ensures old(el).None? ==> r == Normal(Undef)
      ensures old(el).Some? ==>
        (r.Threw? <==> SelectOption(old(el), key).Threw? || !ElementOf(old(el)).Obj?)
      ensures old(el).None? || r.Threw? ==>
        el == old(el) && renders == old(renders) && interactions == old(interactions)
      ensures old(el).Some? && r.Normal? ==>
        r == SelectOption(old(el), key) &&
        el == AssignValue(old(el), r.value) &&
        interactions == old(interactions) + [ValueAssigned(r.value), ChangeDispatched] &&
        renders == old(renders) + 1
      ensures expectations == old(expectations)
    {
      if el.None? {
        return Normal(Undef);
      }
      var native := ElementOf(el);
      var option := SelectOption(el, key);
      if option.Threw? || !native.Obj? {
        return Threw;
      }
      el := AssignValue(el, option.value);
      interactions := interactions + [ValueAssigned(option.value), ChangeDispatched];
      DetectChanges();
      r := option;
    }
  }
}
