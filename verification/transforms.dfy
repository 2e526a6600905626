/**
 * `stripHtmlTags` and `stripLines` (simple-test.ts:630-643): a global regular
 * expression replacement by the empty string, followed by `trim`. An integer is
 * returned unchanged. Any other input makes `.replace` throw; the functions here
 * exclude it by precondition and `StripOrThrow` models the throw for callers.
 */
module Transforms {
  import opened Options
  import opened JsStrings
  import opened JsValues

  /**
   * The length of the match of `<[^>]+>` that starts at the first character of
   * `s`, if there is one: a `<`, one or more characters other than `>`, then `>`.
   */
  function TagLengthAt(s: string): (r: Option<nat>)
    ensures r.Some? ==> 3 <= r.value <= |s| && s[0] == '<' && s[r.value - 1] == '>'
    ensures r.Some? ==> '>' !in s[1..r.value - 1]
  {
    if s == [] || s[0] != '<' then None
    else match FirstIndex(s[1..], '>')
      case Some(k) => if k >= 1 then (assert s[1..][..k] == s[1..k + 1]; Some(k + 2)) else None
      case None => None
  }

  /**
   * `s.replace(/(<([^>]+)>)/gi, '')`: scanning left to right, each match is
   * dropped and the scan resumes after it; a character where no match starts
   * is kept.
   */
  function RemoveTags(s: string): (r: string)
    ensures |r| <= |s|
    ensures forall c :: c in r ==> c in s
    decreases |s|
  {
    if s == [] then []
    else match TagLengthAt(s)
      case Some(n) => RemoveTags(s[n..])
      case None => [s[0]] + RemoveTags(s[1..])
  }

  /** No match of the tag pattern starts anywhere in `s`. */
  predicate TagFree(s: string)
    decreases |s|
  {
    s == [] || (TagLengthAt(s).None? && TagFree(s[1..]))
  }

  /** `Number.isInteger(v)` or a string: the inputs `stripHtmlTags` and `stripLines` accept. */
  predicate Strippable(v: Value) {
    v.Int? || v.Str?
  }

  /** `stripHtmlTags`. */
  function StripHtmlTags(v: Value): (r: Value)
    requires Strippable(v)
    ensures v.Int? ==> r == v
    ensures v.Str? ==> r.Str?
  {
    if v.Int? then v else Str(Trim(RemoveTags(v.s)))
  }

  /** A stripped string has no white space at either end. */
  lemma StripHtmlTagsTrimmed(v: Value)
    requires v.Str?
    ensures var r := StripHtmlTags(v).s; r == [] || (!IsJsSpace(r[0]) && !IsJsSpace(r[|r| - 1]))
  {
    var t := RemoveTags(v.s);
    assert StripHtmlTags(v).s == Trim(t);
  }

  /** What `stripHtmlTags` returns holds no match of the tag pattern. */
  lemma StripHtmlTagsTagFree(v: Value)
    requires v.Str?
    ensures TagFree(StripHtmlTags(v).s)
  {
    RemoveTagsTagFree(v.s);
    TrimPreservesTagFree(RemoveTags(v.s));
  }

  /** `stripHtmlTags` as its callers meet it: a TypeError for anything but a string or an integer. */
  function StripOrThrow(v: Value): (r: Outcome<Value>)
    ensures r.Threw? <==> !Strippable(v)
  {
    if Strippable(v) then Normal(StripHtmlTags(v)) else Threw
  }

  lemma {:induction false} RemoveTagsOfTagFree(s: string)
    requires TagFree(s)
    ensures RemoveTags(s) == s
    decreases |s|
  {
    if s != [] {
      RemoveTagsOfTagFree(s[1..]);
    }
  }

  /** A character that cannot start a match is kept as the first character. */
  lemma RemoveTagsKeepsFirst(s: string)
    requires s != [] && s[0] != '<'
    ensures RemoveTags(s) != [] && RemoveTags(s)[0] == s[0]
  {
  }

  /** Removing the matches leaves no match behind, though removal joins what was apart. */
  lemma {:induction false} RemoveTagsTagFree(s: string)
    ensures TagFree(RemoveTags(s))
    decreases |s|
  {
    if s != [] {
      match TagLengthAt(s)
      case Some(n) =>
        RemoveTagsTagFree(s[n..]);
      case None =>
        var rest := RemoveTags(s[1..]);
        RemoveTagsTagFree(s[1..]);
        var r := [s[0]] + rest;
        assert r[1..] == rest;
        if s[0] == '<' {
          match FirstIndex(s[1..], '>')
          case None =>
            assert '>' !in rest;
            assert r[1..] == rest;
          case Some(k) =>
            assert k == 0;
            RemoveTagsKeepsFirst(s[1..]);
            FirstIndexAt(r[1..], '>', 0);
        }
    }
  }

  /** A match inside a prefix is a match in the whole string. */
  lemma TagLengthAtOfPrefix(p: string, s: string)
    requires |p| <= |s| && p == s[..|p|] && TagLengthAt(p).Some?
    ensures TagLengthAt(s) == TagLengthAt(p)
  {
    var n := TagLengthAt(p).value;
    assert p[1..][..n - 2] == p[1..n - 1];
    assert s[1..n - 1] == p[1..n - 1] by {
      assert forall k :: 1 <= k < n - 1 ==> s[k] == p[k];
    }
    assert s[1..][..n - 2] == s[1..n - 1];
    FirstIndexAt(s[1..], '>', n - 2);
    FirstIndexAt(p[1..], '>', n - 2);
  }

  lemma {:induction false} TagFreeDropLast(s: string)
    requires s != [] && TagFree(s)
    ensures TagFree(s[..|s| - 1])
    decreases |s|
  {
    var p := s[..|s| - 1];
    if p != [] {
      if TagLengthAt(p).Some? {
        TagLengthAtOfPrefix(p, s);
        assert false;
      }
      TagFreeDropLast(s[1..]);
      assert p[1..] == s[1..][..|s[1..]| - 1];
    }
  }

  lemma {:induction false} TrimStartPreservesTagFree(s: string)
    requires TagFree(s)
    ensures TagFree(TrimStart(s))
    decreases |s|
  {
    if s != [] && IsJsSpace(s[0]) {
      TrimStartPreservesTagFree(s[1..]);
    }
  }

  lemma {:induction false} TrimEndPreservesTagFree(s: string)
    requires TagFree(s)
    ensures TagFree(TrimEnd(s))
    decreases |s|
  {
    if s != [] && IsJsSpace(s[|s| - 1]) {
      TagFreeDropLast(s);
      TrimEndPreservesTagFree(s[..|s| - 1]);
    }
  }

  /** Trimming cannot create a match. */
  lemma TrimPreservesTagFree(s: string)
    requires TagFree(s)
    ensures TagFree(Trim(s))
  {
    TrimStartPreservesTagFree(s);
    TrimEndPreservesTagFree(TrimStart(s));
  }

  /** Stripping tags twice is stripping them once. */
  lemma StripHtmlTagsIdempotent(v: Value)
    requires Strippable(v)
    ensures StripHtmlTags(StripHtmlTags(v)) == StripHtmlTags(v)
  {
    if v.Str? {
      var t := StripHtmlTags(v).s;
      StripHtmlTagsTagFree(v);
      RemoveTagsOfTagFree(t);
      TrimIdempotent(RemoveTags(v.s));
    }
  }

  /** A well-formed tag: `<`, one or more characters other than `>`, then `>`. */
  predicate IsTag(t: string) {
    3 <= |t| && t[0] == '<' && t[|t| - 1] == '>' && '>' !in t[1..|t| - 1]
  }

  /** A tag at the front of `s` is found, with its length. */
  lemma TagLengthAtComplete(s: string, n: nat)
    requires 3 <= n <= |s| && IsTag(s[..n])
    ensures TagLengthAt(s) == Some(n)
  {
    assert s[1..][..n - 2] == s[..n][1..n - 1];
    FirstIndexAt(s[1..], '>', n - 2);
  }

  /** A string with no match of the tag pattern contains no tag anywhere. */
  lemma {:induction false} TagFreeHasNoTag(s: string, i: nat, j: nat)
    requires TagFree(s) && i < j <= |s|
    ensures !IsTag(s[i..j])
    decreases i
  {
    if i == 0 {
      if IsTag(s[..j]) {
        TagLengthAtComplete(s, j);
        assert false;
      }
    } else {
      TagFreeHasNoTag(s[1..], i - 1, j - 1);
      assert s[1..][i - 1..j - 1] == s[i..j];
    }
  }

  /** Markup around plain text is dropped and the text is trimmed. */
  lemma StripHtmlTagsAroundText(open: string, text: string, close: string, tail: string)
    requires IsTag(open) && IsTag(close) && '<' !in text && '<' !in tail
    ensures StripHtmlTags(Str(open + text + close + tail)) == Str(Trim(text + tail))
  {
    RemoveTagsAroundText(open, text, close, tail);
  }

  /** Text between two tags is what remains of them. */
  lemma RemoveTagsAroundText(open: string, text: string, close: string, tail: string)
    requires IsTag(open) && IsTag(close) && '<' !in text && '<' !in tail
    ensures RemoveTags(open + text + close + tail) == text + tail
  {
    assert open + text + close + tail == open + (text + (close + tail));
    RemoveTagsAfterTag(open, text + (close + tail));
    RemoveTagsOfPlain(text, close + tail);
    RemoveTagsAfterTag(close, tail);
    RemoveTagsOfPlain(tail, []);
    assert tail + [] == tail;
  }

  /** `"Hello World "` trims to `"Hello World"`. */
  lemma TrimExample()
    ensures Trim("Hello World ") == "Hello World"
  {
    var s := "Hello World ";
    assert !IsJsSpace(s[0]);
    assert TrimStart(s) == s;
    assert s[..11] == "Hello World";
    assert TrimEnd(s) == TrimEnd(s[..11]);
  }

  /** `stripHtmlTags("<b>Hello</b> World ")` is `"Hello World"`. */
  lemma StripHtmlTagsExample()
    ensures StripHtmlTags(Str("<b>Hello</b> World ")) == Str("Hello World")
  {
    var open, text, close, tail := "<b>", "Hello", "</b>", " World ";
    assert IsTag(open) && IsTag(close);
    assert '<' !in text && '<' !in tail;
    assert open + text + close + tail == "<b>Hello</b> World ";
    assert text + tail == "Hello World ";
    StripHtmlTagsAroundText(open, text, close, tail);
    TrimExample();
  }

  /** A whole tag at the front is dropped. */
  lemma RemoveTagsAfterTag(tag: string, rest: string)
    requires IsTag(tag)
    ensures RemoveTags(tag + rest) == RemoveTags(rest)
  {
    var s := tag + rest;
    assert s[1..][..|tag| - 2] == tag[1..|tag| - 1];
    FirstIndexAt(s[1..], '>', |tag| - 2);
    assert s[|tag|..] == rest;
  }

  /** Text without `<` is kept as it is. */
  lemma {:induction false} RemoveTagsOfPlain(text: string, rest: string)
    requires '<' !in text
    ensures RemoveTags(text + rest) == text + RemoveTags(rest)
    decreases |text|
  {
    if text != [] {
      var s := text + rest;
      assert s[1..] == text[1..] + rest;
      RemoveTagsOfPlain(text[1..], rest);
      assert text == [text[0]] + text[1..];
    } else {
      assert text + rest == rest;
    }
  }

  predicate IsLineBreak(c: char) {
    c == '\r' || c == '\n'
  }

  /** `s.replace(/\r?\n|\r/g, '')`: CR LF pairs, lone LF and lone CR are dropped. */
  function RemoveLineBreaks(s: string): (r: string)
    ensures forall k :: 0 <= k < |r| ==> !IsLineBreak(r[k])
    decreases |s|
  {
    if s == [] then []
    else if |s| >= 2 && s[0] == '\r' && s[1] == '\n' then RemoveLineBreaks(s[2..])
    else if IsLineBreak(s[0]) then RemoveLineBreaks(s[1..])
    else [s[0]] + RemoveLineBreaks(s[1..])
  }

  /** The reference meaning: every character except CR and LF, in order. */
  function WithoutLineBreaks(s: string): string
  {
    if s == [] then [] else (if IsLineBreak(s[0]) then [] else [s[0]]) + WithoutLineBreaks(s[1..])
  }

  /** The regular expression removes exactly the CR and LF characters. */
  lemma {:induction false} RemoveLineBreaksIsFilter(s: string)
    ensures RemoveLineBreaks(s) == WithoutLineBreaks(s)
    decreases |s|
  {
    if s != [] {
      if |s| >= 2 && s[0] == '\r' && s[1] == '\n' {
        RemoveLineBreaksIsFilter(s[2..]);
        assert s[1..][1..] == s[2..];
      } else {
        RemoveLineBreaksIsFilter(s[1..]);
      }
    }
  }

  /** `stripLines`. */
  function StripLines(v: Value): (r: Value)
    requires Strippable(v)
    ensures v.Int? ==> r == v
    ensures v.Str? ==> r.Str? && forall c :: c in r.s ==> !IsLineBreak(c)
    ensures v.Str? ==> r.s == [] || (!IsJsSpace(r.s[0]) && !IsJsSpace(r.s[|r.s| - 1]))
  {
    if v.Int? then v else Str(Trim(RemoveLineBreaks(v.s)))
  }

  lemma {:induction false} RemoveLineBreaksOfPlain(s: string)
    requires forall c :: c in s ==> !IsLineBreak(c)
    ensures RemoveLineBreaks(s) == s
    decreases |s|
  {
    if s != [] {
      assert s[0] in s;
      RemoveLineBreaksOfPlain(s[1..]);
    }
  }

  /** Stripping line breaks twice is stripping them once. */
  lemma StripLinesIdempotent(v: Value)
    requires Strippable(v)
    ensures StripLines(StripLines(v)) == StripLines(v)
  {
    if v.Str? {
      RemoveLineBreaksOfPlain(StripLines(v).s);
      TrimIdempotent(RemoveLineBreaks(v.s));
    }
  }
}
