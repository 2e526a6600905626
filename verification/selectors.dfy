/**
 * The selector strings the query methods compose with template literals
 * (simple-test.ts:435, 471, 499, 532), in the syntax of W3C Selectors Level 3:
 * a class selector `tag.c` (section 6.4), an ID selector `tag#id` (section
 * 6.5) and an attribute selector `tag[key=value]` (section 6.3). Nothing is
 * validated: a malformed selector simply matches nothing when it is queried.
 * `getByTag` passes its tag through unchanged and needs no function here.
 */
module Selectors {
  import opened Options
  import opened JsStrings
  import opened JsValues

  /** `isString(tag) ? `${tag}.${className}` : `.${className}``. */
  function ClassSelector(className: string, tag: Value): string
  {
    if tag.Str? then tag.s + "." + className else "." + className
  }

  /** `isString(tag) ? `${tag}#${idEl}` : `#${idEl}``. */
  function IdSelector(id: string, tag: Value): string
  {
    if tag.Str? then tag.s + "#" + id else "#" + id
  }

  /** `${tag}[${attrKey}=${attrValue}]`. */
  function AttrSelector(tag: string, key: string, value: string): string
  {
    tag + "[" + key + "=" + value + "]"
  }

  /**
   * The parts of `s` before and after the first `c`, if `s` has one: with
   * `.` or `#` it reads a class or ID selector back into its qualifying tag
   * and the name after the marker.
   */
  function SplitAtFirst(s: string, c: char): (r: Option<(string, string)>)
    ensures r.Some? ==> c !in r.value.0 && s == r.value.0 + [c] + r.value.1
    ensures r.None? <==> c !in s
  {
    match FirstIndex(s, c)
    case None => None
    case Some(i) =>
      assert s == s[..i] + [c] + s[i + 1..];
      Some((s[..i], s[i + 1..]))
  }

  /** Reads an attribute selector back into its tag, key and value. */
  function ParseAttr(selector: string): Option<(string, string, string)>
  {
    match SplitAtFirst(selector, '[')
    case None => None
    case Some((tag, rest)) =>
      if rest == [] || rest[|rest| - 1] != ']' then None
      else match SplitAtFirst(rest[..|rest| - 1], '=')
        case None => None
        case Some((key, value)) => Some((tag, key, value))
  }

  lemma SplitAtFirstOfJoin(a: string, c: char, b: string)
    requires c !in a
    ensures SplitAtFirst(a + [c] + b, c) == Some((a, b))
  {
    FirstIndexOfJoin(a, c, b);
    var s := a + [c] + b;
    assert s[..|a|] == a && s[|a| + 1..] == b;
  }

  /** With a string tag free of dots, the class selector is exactly tag, dot, class name. */
  lemma ClassSelectorWithTag(tag: string, className: string)
    requires '.' !in tag
    ensures SplitAtFirst(ClassSelector(className, Str(tag)), '.') == Some((tag, className))
  {
    SplitAtFirstOfJoin(tag, '.', className);
  }

  /** A tag that is not a string (such as `false`) qualifies nothing: `.c`, as with the default tag "". */
  lemma ClassSelectorWithoutTag(className: string, tag: Value)
    requires !tag.Str? || tag.s == ""
    ensures ClassSelector(className, tag) == "." + className
    ensures SplitAtFirst(ClassSelector(className, tag), '.') == Some(("", className))
  {
    SplitAtFirstOfJoin("", '.', className);
    assert "" + ['.'] + className == "." + className;
  }

  /** With a string tag free of `#`, the ID selector is exactly tag, `#`, id. */
  lemma IdSelectorWithTag(tag: string, id: string)
    requires '#' !in tag
    ensures SplitAtFirst(IdSelector(id, Str(tag)), '#') == Some((tag, id))
  {
    SplitAtFirstOfJoin(tag, '#', id);
  }

  /** A non-string tag and the default empty tag both give `#id`. */
  lemma IdSelectorWithoutTag(id: string, tag: Value)
    requires !tag.Str? || tag.s == ""
    ensures IdSelector(id, tag) == "#" + id
    ensures SplitAtFirst(IdSelector(id, tag), '#') == Some(("", id))
  {
    SplitAtFirstOfJoin("", '#', id);
    assert "" + ['#'] + id == "#" + id;
  }

  /** An attribute selector reads back into the tag, key and value it was built from. */
  lemma AttrSelectorParts(tag: string, key: string, value: string)
    requires '[' !in tag && '=' !in key
    ensures ParseAttr(AttrSelector(tag, key, value)) == Some((tag, key, value))
  {
    var rest := key + "=" + value + "]";
    assert AttrSelector(tag, key, value) == tag + ['['] + rest;
    SplitAtFirstOfJoin(tag, '[', rest);
    assert rest[..|rest| - 1] == key + ['='] + value;
    SplitAtFirstOfJoin(key, '=', value);
  }
}
