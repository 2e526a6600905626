/**
 * The readers of the current context (simple-test.ts:349-406, 611-623):
 * `getValue`, `getElement`, `getLength` and `getSelectOption`, together with
 * the value assignment `changeSelectOption` makes on the native element.
 * Each is a function of the context `el`; the façade calls them on its field.
 */
module Extraction {
  import opened Options
  import opened JsStrings
  import opened JsValues
  import opened Lodash
  import opened Transforms
  import opened Resolver

  /** `getContent`: the `textContent` of the `nativeElement` of the query result. */
  function Content(r: QueryResult): Value
  {
    GetPath(AsValue(r), ["nativeElement", "textContent"])
  }

  /** `Content` is `get(this.el, 'nativeElement.textContent')`. */
  lemma ContentIsGet(r: QueryResult)
    ensures Content(r) == Get(AsValue(r), "nativeElement.textContent")
  {
    TextContentPath(AsValue(r));
  }

  /**
   * `getValue(stripTags, isInt)`: undefined without a context; otherwise the
   * text content, tag-stripped when `stripTags` (whatever `isInt` says),
   * else parsed as a base-10 integer when `isInt`, else as it is. Only the
   * stripping can throw, on content that is neither a string nor an integer.
   */
  function ValueOf(ctx: Context, stripTags: bool, isInt: bool): (r: Outcome<Value>)
    ensures ctx.None? ==> r == Normal(Undef)
    ensures r.Threw? <==> ctx.Some? && stripTags && !Strippable(Content(ctx.value))
    ensures ctx.Some? && !stripTags && isInt ==> r.Normal? && (r.value.Int? || r.value.NaN?)
    ensures ctx.Some? && stripTags && r.Normal? && r.value.Str? ==> TagFree(r.value.s)
  {
    if ctx.None? then Normal(Undef)
    else if stripTags then
      var c := Content(ctx.value);
      if c.Str? then StripHtmlTagsTagFree(c); StripOrThrow(c)
      else StripOrThrow(c)
    else if isInt then Normal(ParseInt(Content(ctx.value)))
    else Normal(Content(ctx.value))
  }

  /** The context is one element whose native element has the text content `text`. */
  predicate HasText(ctx: Context, text: string) {
    ctx.Some? && ctx.value.One? &&
    var node := ctx.value.node;
    "nativeElement" in node && node["nativeElement"].Obj? &&
    "textContent" in node["nativeElement"].props &&
    node["nativeElement"].props["textContent"] == Str(text)
  }

  lemma ContentOfElement(ctx: Context, text: string)
    requires HasText(ctx, text)
    ensures Content(ctx.value) == Str(text)
  {
    GetPathTwo(AsValue(ctx.value), "nativeElement", "textContent");
  }

  /** On a single element, `getValue` reads its text, stripped or parsed as asked. */
  lemma ValueOfElement(ctx: Context, text: string, stripTags: bool, isInt: bool)
    requires HasText(ctx, text)
    ensures ValueOf(ctx, stripTags, isInt) ==
      if stripTags then Normal(StripHtmlTags(Str(text)))
      else if isInt then Normal(ParseInt(Str(text)))
      else Normal(Str(text))
  {
    ContentOfElement(ctx, text);
  }

  /** An element whose text starts with a numeral reads as that integer with `isInt`. */
  lemma ValueOfNumericText(ctx: Context, i: int, rest: string)
    requires HasText(ctx, IntToDecimal(i) + rest)
    requires rest == [] || !IsDecimalDigit(rest[0])
    ensures ValueOf(ctx, false, true) == Normal(Int(i))
  {
    ValueOfElement(ctx, IntToDecimal(i) + rest, false, true);
    ParseIntOfNumeral(i, rest);
  }

  /** The text "nativeElement" is not an array index, so an array has no such property. */
  lemma NativeElementOfArray(items: seq<Value>)
    ensures Prop(Arr(items), "nativeElement") == Undef
  {
    var key := "nativeElement";
    assert !IsDecimalDigit(key[0]);
  }

  /**
   * An array from `queryAll` has no `nativeElement`, so the text is undefined:
   * `getValue` gives undefined raw, NaN parsed, and throws when stripping.
   */
  lemma ValueOfMany(nodes: seq<Node>, stripTags: bool, isInt: bool)
    ensures ValueOf(Some(All(nodes)), stripTags, isInt) ==
      if stripTags then Threw else if isInt then Normal(NaN) else Normal(Undef)
  {
    var v := AsValue(All(nodes));
    NativeElementOfArray(v.items);
    assert Content(All(nodes)) == GetPath(Undef, ["textContent"]);
    ParseIntOfUndefined();
  }

  /** With `stripTags` set, `isInt` plays no part. */
  lemma StripTagsWins(ctx: Context, a: bool, b: bool)
    ensures ValueOf(ctx, true, a) == ValueOf(ctx, true, b)
  {
  }

  /** `getElement`: the native element of a single element; undefined otherwise. */
  function ElementOf(ctx: Context): (r: Value)
    ensures ctx.None? ==> r == Undef
    ensures ctx.Some? && ctx.value.All? ==> r == Undef
    ensures ctx.Some? && ctx.value.One? ==>
      r == if "nativeElement" in ctx.value.node then ctx.value.node["nativeElement"] else Undef
  {
    if ctx.None? then Undef
    else
      var v := AsValue(ctx.value);
      if v.Arr? then NativeElementOfArray(v.items); GetPath(v, ["nativeElement"])
      else GetPath(v, ["nativeElement"])
  }

  /** `ElementOf` is `this.el ? get(this.el, 'nativeElement', undefined) : undefined`. */
  lemma ElementIsGet(ctx: Context)
    ensures ElementOf(ctx) == if ctx.None? then Undef else Get(AsValue(ctx.value), "nativeElement")
  {
    if ctx.Some? {
      NativeElementPath(AsValue(ctx.value));
    }
  }

  /**
   * `getLength`: 0 without a context, the number of matches for `queryAll`,
   * and the element's own `length` property (normally absent) for one element.
   */
  function LengthOf(ctx: Context): (r: Value)
    ensures ctx.None? ==> r == Int(0)
    ensures ctx.Some? && ctx.value.All? ==> r == Int(|ctx.value.nodes|)
    ensures ctx.Some? && ctx.value.One? ==>
      r == if "length" in ctx.value.node then ctx.value.node["length"] else Undef
  {
    if ctx.None? then Int(0) else Prop(AsValue(ctx.value), "length")
  }

  /** The expected value `lengthToBe` passes: `this.el ? this.el.length : undefined`. */
  function LengthOrUndefined(ctx: Context): (r: Value)
    ensures ctx.None? ==> r == Undef
    ensures ctx.Some? ==> r == LengthOf(ctx)
  {
    if ctx.None? then Undef else Prop(AsValue(ctx.value), "length")
  }

  /**
   * `getSelectOption(key)`: undefined without a context; for a falsy key the
   * native element's `options`; otherwise `options[key].value`. Reading a
   * property of undefined or null throws: a missing native element (always the
   * case for a `queryAll` result), missing options, or a missing option.
   */
  function SelectOption(ctx: Context, key: Value): (r: Outcome<Value>)
    ensures ctx.None? ==> r == Normal(Undef)
    ensures ctx.Some? && Nullish(ElementOf(ctx)) ==> r.Threw?
    ensures ctx.Some? && ctx.value.All? ==> r.Threw?
    ensures ctx.Some? && !Truthy(key) && !Nullish(ElementOf(ctx)) ==>
      r == Normal(Prop(ElementOf(ctx), "options"))
    ensures r.Threw? <==>
      ctx.Some? &&
      (Nullish(ElementOf(ctx)) ||
       (Truthy(key) &&
        (Nullish(Prop(ElementOf(ctx), "options")) ||
         Nullish(Prop(Prop(ElementOf(ctx), "options"), ToJsString(key))))))
    ensures ctx.Some? && Truthy(key) && r.Normal? ==>
      r.value == Prop(Prop(Prop(ElementOf(ctx), "options"), ToJsString(key)), "value")
  {
    if ctx.None? then Normal(Undef)
    else
      var native := ElementOf(ctx);
      if Nullish(native) then Threw
      else
        var options := Prop(native, "options");
        if !Truthy(key) then Normal(options)
        else if Nullish(options) then Threw
        else
          var option := Prop(options, ToJsString(key));
          if Nullish(option) then Threw else Normal(Prop(option, "value"))
  }

  /** The native element of a single element has `options` listed in `opts`. */
  predicate HasOptions(ctx: Context, opts: seq<Value>) {
    ElementOf(ctx).Obj? && "options" in ElementOf(ctx).props &&
    ElementOf(ctx).props["options"] == Arr(opts)
  }

  /** A positive index selects the value of that option. */
  lemma SelectOptionByIndex(ctx: Context, opts: seq<Value>, i: nat)
    requires HasOptions(ctx, opts)
    requires 1 <= i < |opts| && opts[i].Obj?
    ensures SelectOption(ctx, Int(i)) == Normal(Prop(opts[i], "value"))
  {
    assert ToJsString(Int(i)) == NatToDecimal(i);
    PropOfIndex(opts, i);
  }

  /** Index 0 is falsy: it gives the whole option list, not the first option's value. */
  lemma SelectOptionZero(ctx: Context, opts: seq<Value>)
    requires HasOptions(ctx, opts)
    ensures SelectOption(ctx, Int(0)) == Normal(Arr(opts))
  {
    assert ctx.Some?;
    assert Prop(ElementOf(ctx), "options") == Arr(opts);
  }

  /** An index past the last option reads a property of undefined and throws. */
  lemma SelectOptionPastEnd(ctx: Context, opts: seq<Value>, i: nat)
    requires HasOptions(ctx, opts)
    requires 1 <= i && |opts| <= i
    ensures SelectOption(ctx, Int(i)) == Threw
  {
    assert ToJsString(Int(i)) == NatToDecimal(i);
    PropOfIndex(opts, i);
  }

  /**
   * `el.value = …` on the native element of a single element. The element
   * keeps its other properties, and the native element its other properties.
   */
  function AssignValue(ctx: Context, v: Value): (r: Context)
    requires ElementOf(ctx).Obj?
    ensures r.Some? && r.value.One? && ctx.Some? && ctx.value.One?
    ensures ElementOf(r) == Obj(ElementOf(ctx).props["value" := v])
    ensures r.value.node.Keys == ctx.value.node.Keys
    ensures forall k :: k in ctx.value.node && k != "nativeElement" ==> r.value.node[k] == ctx.value.node[k]
  {
    var node := ctx.value.node;
    Some(One(node["nativeElement" := Obj(node["nativeElement"].props["value" := v])]))
  }

  /** The assigned value reads back through `get(el, 'nativeElement.value')`. */
  lemma AssignedValueReadsBack(ctx: Context, v: Value)
    requires ElementOf(ctx).Obj?
    ensures Get(AsValue(AssignValue(ctx, v).value), "nativeElement.value") == v
  {
    AssignedValueAtPath(ctx, v);
    ValuePath(AsValue(AssignValue(ctx, v).value));
  }

  lemma AssignedValueAtPath(ctx: Context, v: Value)
    requires ElementOf(ctx).Obj?
    ensures GetPath(AsValue(AssignValue(ctx, v).value), ["nativeElement", "value"]) == v
  {
    var r := AsValue(AssignValue(ctx, v).value);
    var native := Obj(ElementOf(ctx).props["value" := v]);
    assert Prop(r, "nativeElement") == native;
    assert Prop(native, "value") == v;
    GetPathTwo(r, "nativeElement", "value");
  }
}
