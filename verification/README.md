# SimpleTest façade: a Dafny model

`SimpleTest` (simple-test.ts) is a fluent façade over an Angular component
fixture and the Jasmine assertion functions. A test resolves a node of the rendered
tree with a CSS selector (`getByClassName`, `getById`, `getByTag`,
`getByAttr`). The result becomes the façade's current context `el`. Later calls
read a value off that context (`getValue`, `getElement`, `getLength`) or hand
it to the assertion engine through `doExpect` and its twenty-odd wrappers
(`toBe`, `toContain`, `toBeGreaterThan`, `lengthToBe`, …). `changeSelectOption`
changes a `<select>` element's value, fires `change` and re-renders.

The model is a set of modules:

- `JsStrings` and `JsValues` hold the ECMAScript values involved and the
  built-ins the façade uses: truthiness, `trim`, integer-to-string and
  `parseInt(…, 10)`.
- `Lodash` models lodash's `get` and its dotted paths.
- `Selectors` builds the selector strings.
- `Transforms` holds the two global regular-expression replacements,
  `stripHtmlTags` and `stripLines`.
- `Resolver` and `Extraction` hold the query and the value readers, as
  functions of the context.
- `Assertions` holds `doExpect` as a function `Dispatch` from the context and
  its parameters to the one assertion call it makes, or to a TypeError.
- `Facade` holds the class `SimpleTest`. Its fields are the context `el`, the
  render count and two logs: the assertion calls made, and the interactions
  with the spy and the page.

Each query re-renders first; the render engine is a pair of functions from
the render generation and the selector to a result. The `for…in` loop of
`doExpect` rewrites its argument array in place, and the model does the
same on an `array`.

The model follows the code as written, including its odd corners:

- `lengthToBe` passes its `fakeTest` flag in the `stripTags` slot, so on a
  `queryAll` result with no match it throws (`LengthToBeEmptyThrows`).
- `toBeLessThan`, `toBeLessThanOrEqual` and `toBeInstanceOf` compare the
  element's raw text.
- `toBeGreaterThan`, `toBeGreaterThanOrEqual` and `toBeCloseTo` compare the
  parsed text, but fall back to the raw text when the parse gives 0 or NaN.
- The matchers without arguments (`toBeNaN`, `toBeNull`, …) all reach `toBe()`
  instead of the matcher they are named after.
- An index of 0 given to `changeSelectOption` selects the whole option list.

Some behaviours a reader of the façade might expect are not what the code
does; the model follows the code:

- One might expect the layer never to throw for missing data. The code
  throws a TypeError when it strips the text of a `queryAll` result, or
  reads the options of a missing element (`ValueOfMany`, `SelectOption`).
- One might expect an integer extraction on an absent match to yield NaN.
  With a single query that matches nothing, `getValue(false, true)`
  returns undefined (`ValueOf`). Only a `queryAll` result gives NaN.
- One might expect an empty argument list to be what leads to the fallback
  `toBe`. The code tests whether the first argument is undefined
  (`UndefinedFirstArgCallsToBe`).
- Only `toBe`, `toContain`, `toMatch` and `lengthToBe` can set tag
  stripping, not every assertion method.
- One might expect only a missing key to return the option list. The code
  does so for every falsy key, index 0 included (`SelectOptionZero`).

## Model

| member | source | states |
|---|---|---|
| JsStrings.TrimStart | simple-test.ts:633 | the result is a suffix of the input that does not start with ECMAScript white space or a line terminator |
| JsStrings.TrimStartDropsSpaces | simple-test.ts:633 | everything `TrimStart` drops is white space or a line terminator |
| JsStrings.TrimEnd | simple-test.ts:633 | the result is a prefix of the input that does not end with white space or a line terminator |
| JsStrings.TrimEndDropsSpaces | simple-test.ts:633 | everything `TrimEnd` drops is white space or a line terminator |
| JsStrings.Trim | simple-test.ts:633 | `trim` gives only characters of its input, with no white space at either end |
| JsStrings.TrimIsSlice | simple-test.ts:633 | the result of `trim` is a contiguous piece of the input, preceded by what `TrimStart` drops and followed by what `TrimEnd` drops |
| JsStrings.TrimIdempotent | simple-test.ts:633 | trimming twice is trimming once |
| JsStrings.NatToDecimal | simple-test.ts:395 | the numeral of a natural number is non-empty, all digits, with no leading zero except in "0" |
| JsStrings.IntToDecimal | simple-test.ts:395 | the numeral of an integer (Number::toString below 10^21) starts with a sign or a digit |
| JsStrings.DigitsValueOfDecimal | simple-test.ts:395 | reading back the numeral of `n` gives `n` |
| JsStrings.DecimalOfDigitsValue | simple-test.ts:395 | a canonical numeral is the numeral of the number it denotes |
| JsStrings.LeadingDigits | simple-test.ts:395 | the longest prefix of decimal digits: a prefix, all digits, and followed by a non-digit or the end |
| JsStrings.LeadingDigitsOfJoin | simple-test.ts:395 | the digit run of digits followed by a non-digit is exactly those digits |
| JsStrings.ParseDigits | simple-test.ts:395 | the digit run of a string has a value exactly when the string starts with a decimal digit |
| JsStrings.ParseIntOfDigits | simple-test.ts:395 | `parseInt` of digits followed by a non-digit gives the value of the digits |
| JsStrings.ParseIntOfMinusDigits | simple-test.ts:395 | `parseInt` of a minus sign, digits and a non-digit gives the negated value of the digits |
| JsStrings.ParseIntOfDecimal | simple-test.ts:395 | `parseInt(…, 10)` of an integer's numeral followed by any text that does not start with a digit gives that integer |
| JsStrings.ParseIntNaN | simple-test.ts:395 | `parseInt` gives NaN exactly when no digit follows the leading white space and optional sign |
| JsStrings.ParseIntString | simple-test.ts:395 | the radix-10 `parseInt` of a string: leading white space, an optional sign, then the longest digit run; `ParseIntOfDecimal` reads every integer's numeral back through it, and `ParseIntNaN` says when it finds no number |
| JsStrings.FirstIndex | simple-test.ts:633 | the first occurrence of a character: at that index, and absent before it; none when the character is absent |
| JsStrings.FirstIndexAt | simple-test.ts:633 | an occurrence with none before it is the first occurrence |
| JsValues.FalsyValues | simple-test.ts:583-587 | the values the façade's `?:` tests treat as false are exactly undefined, null, false, 0, NaN and "" |
| JsValues.Truthy | simple-test.ts:391 | ToBoolean, the test behind the façade's `this.el ? …`, `neededData ? …`, `expected ? …` and `key ? …`; `FalsyValues` shows exactly six values fail it |
| JsValues.ToJsString | simple-test.ts:395 | ToString, which `parseInt` applies first and which turns an option key into a property name; `ParseIntOfNumeral` and `ParseIntOfUndefined` pin its integer and undefined cases |
| JsValues.ParseInt | simple-test.ts:395 | `parseInt` of any value gives an integer or NaN |
| JsValues.ParseIntOfInt | simple-test.ts:395 | `parseInt` of an integer below 10^21 in magnitude gives the integer back |
| JsValues.ParseIntOfNumeral | simple-test.ts:395 | `parseInt` of a string that starts with an integer's numeral, followed by a non-digit or nothing, gives that integer |
| JsValues.ParseIntOfUndefined | simple-test.ts:395 | `parseInt(undefined, 10)` is NaN |
| Lodash.Split | simple-test.ts:388 | a path splits into at least one segment, none containing the dot |
| Lodash.JoinSplit | simple-test.ts:388 | joining the segments of a path with dots gives the path back |
| Lodash.SplitTwo | simple-test.ts:388 | `a.b` with dot-free `a` and `b` splits into `[a, b]` |
| Lodash.ArrayIndexIsCanonical | simple-test.ts:621 | a property key names array element `n` exactly when it is the canonical numeral of `n` |
| Lodash.Get | simple-test.ts:388 | `get` on undefined or null gives undefined |
| Lodash.GetPath | simple-test.ts:388 | lodash `baseGet`: follow the segments while the value is not nullish; `GetPathAppend` and `GetPathMissing` state the walk |
| Lodash.Prop | simple-test.ts:621 | one property read: an object's own key, an array's `length` or canonical index, undefined otherwise; `PropOfIndex` and `ArrayIndexIsCanonical` state the array case |
| Lodash.GetPathAppend | simple-test.ts:388 | following `p + q` is following `p`, then `q` from where it ended |
| Lodash.GetPathMissing | simple-test.ts:388 | a missing segment anywhere on the path makes the lookup undefined, without a fault |
| Lodash.GetTwo | simple-test.ts:388 | `get(v, "a.b")` reads `a`, then `b` of the result |
| Lodash.GetPathTwo | simple-test.ts:388 | a two-segment lookup through non-nullish values is two property reads |
| Lodash.PropOfIndex | simple-test.ts:621 | property `n`, written as a numeral, of an array is its element `n`, or undefined past the end |
| Lodash.TextContentPath | simple-test.ts:388 | `nativeElement.textContent` is the two-segment path `nativeElement`, `textContent` |
| Lodash.ValuePath | simple-test.ts:359 | `nativeElement.value` is the two-segment path `nativeElement`, `value` |
| Lodash.NativeElementPath | simple-test.ts:405 | `nativeElement` is a one-segment path |
| Selectors.SplitAtFirst | simple-test.ts:435 | splitting at the first marker gives the text before it, free of the marker, and the text after it; none exactly when the marker is absent |
| Selectors.ClassSelector | simple-test.ts:435 | `${tag}.${className}` for a string tag and `.${className}` otherwise; `ClassSelectorWithTag` and `ClassSelectorWithoutTag` read it back |
| Selectors.IdSelector | simple-test.ts:471 | `${tag}#${idEl}` for a string tag and `#${idEl}` otherwise; `IdSelectorWithTag` and `IdSelectorWithoutTag` read it back |
| Selectors.AttrSelector | simple-test.ts:532 | `${tag}[${attrKey}=${attrValue}]`; `AttrSelectorParts` reads it back |
| Selectors.ClassSelectorWithTag | simple-test.ts:435 | with a string tag, the class selector reads back as that tag and the class name |
| Selectors.ClassSelectorWithoutTag | simple-test.ts:435 | a non-string tag and the empty tag both give `.className` |
| Selectors.IdSelectorWithTag | simple-test.ts:471 | with a string tag, the ID selector reads back as that tag and the id |
| Selectors.IdSelectorWithoutTag | simple-test.ts:471 | a non-string tag and the empty tag both give `#id` |
| Selectors.AttrSelectorParts | simple-test.ts:532 | `tag[key=value]` reads back into its tag, key and value |
| Transforms.TagLengthAt | simple-test.ts:633 | a match of `<[^>]+>` at the start: `<`, at least one character other than `>`, then `>` |
| Transforms.TagLengthAtComplete | simple-test.ts:633 | a tag at the start is found, with its length: the recogniser misses no match |
| Transforms.IsTag | simple-test.ts:633 | a whole match of `<[^>]+>`: `<`, one or more characters other than `>`, then `>`; `TagLengthAtComplete` and `TagFreeHasNoTag` use it to show no tag is missed |
| Transforms.TagFreeHasNoTag | simple-test.ts:633 | a string with no match at any position contains no tag as any substring |
| Transforms.RemoveTags | simple-test.ts:633 | removing the matches never lengthens the text and adds no character |
| Transforms.RemoveTagsOfTagFree | simple-test.ts:633 | text without a match is left unchanged |
| Transforms.RemoveTagsTagFree | simple-test.ts:633 | no match is left after the replacement, even where removal joins text |
| Transforms.TrimPreservesTagFree | simple-test.ts:633 | trimming cannot create a match |
| Transforms.RemoveTagsAfterTag | simple-test.ts:633 | a whole tag at the front is dropped |
| Transforms.RemoveTagsOfPlain | simple-test.ts:633 | text without `<` is kept as it is |
| Transforms.StripHtmlTags | simple-test.ts:630-634 | an integer is returned unchanged; a string gives a string |
| Transforms.StripHtmlTagsTrimmed | simple-test.ts:630-634 | a stripped string has no white space at either end |
| Transforms.StripHtmlTagsTagFree | simple-test.ts:630-634 | the stripped string contains no tag |
| Transforms.StripOrThrow | simple-test.ts:630-634 | `stripHtmlTags` throws exactly for values that are neither strings nor integers |
| Transforms.StripHtmlTagsIdempotent | simple-test.ts:630-634 | stripping twice is stripping once |
| Transforms.StripHtmlTagsAroundText | simple-test.ts:630-634 | markup around text without `<` is dropped and the text trimmed |
| Transforms.TrimExample | simple-test.ts:633 | `"Hello World "` trims to `"Hello World"` |
| Transforms.StripHtmlTagsExample | simple-test.ts:630-634 | `stripHtmlTags("<b>Hello</b> World ")` is `"Hello World"` |
| Transforms.RemoveLineBreaks | simple-test.ts:642 | no CR or LF is left after the replacement |
| Transforms.RemoveLineBreaksIsFilter | simple-test.ts:642 | the replacement removes exactly the CR and LF characters, keeping all others in order |
| Transforms.StripLines | simple-test.ts:641-643 | an integer is unchanged; a string loses every line break and its outer white space |
| Transforms.StripLinesIdempotent | simple-test.ts:641-643 | stripping lines twice is stripping once |
| Resolver.Resolve | simple-test.ts:557-559 | a single query gives no context exactly when nothing matches, and the match otherwise; `queryAll` gives exactly the engine's array of matches for the selector at the current render |
| Resolver.DomReply | simple-test.ts:561-564 | data comes back exactly when there is a context and `neededData` is a non-empty string, and it is the `get` of that path |
| Resolver.OuterTestIsRedundant | simple-test.ts:441 | the `neededData ? domElement : this` of each `getBy…` returns what the resolution returned |
| Extraction.ValueOf | simple-test.ts:386-398 | `getValue`: undefined without a context; throws exactly when stripping content that is neither string nor integer; parsed values are integers or NaN; stripped strings hold no tag |
| Extraction.ContentIsGet | simple-test.ts:388 | the content read is `get(el, 'nativeElement.textContent')` |
| Extraction.Content | simple-test.ts:387-389 | `getContent`: the `textContent` of the context's `nativeElement`, or undefined when a segment is missing; `ContentIsGet` shows it is the lodash `get` of that path |
| Extraction.ContentOfElement | simple-test.ts:387-389 | the content of a single element is its native element's `textContent` |
| Extraction.ValueOfElement | simple-test.ts:386-398 | on a single element: the text stripped, parsed or raw, stripping taking precedence |
| Extraction.ValueOfNumericText | simple-test.ts:395 | an element whose text starts with a numeral reads as that integer (`42 items` gives 42) |
| Extraction.NativeElementOfArray | simple-test.ts:388 | an array has no `nativeElement` property |
| Extraction.ValueOfMany | simple-test.ts:386-398 | on a `queryAll` result: undefined raw, NaN parsed, and a TypeError when stripping |
| Extraction.StripTagsWins | simple-test.ts:392-395 | with `stripTags` set, `isInt` plays no part |
| Extraction.ElementOf | simple-test.ts:404-406 | `getElement`: the native element of a single element, undefined without a context or for a `queryAll` result |
| Extraction.ElementIsGet | simple-test.ts:404-406 | `ElementOf` is `get(el, 'nativeElement', undefined)` when there is a context and undefined otherwise |
| Extraction.LengthOf | simple-test.ts:376-378 | `getLength`: 0 without a context, the number of matches for `queryAll`, the element's own `length` otherwise |
| Extraction.LengthOrUndefined | simple-test.ts:298 | undefined without a context, `getLength` otherwise |
| Extraction.SelectOption | simple-test.ts:611-623 | `getSelectOption`: undefined without a context; the option list for a falsy key; `options[key].value` for a truthy one; a throw exactly when the native element, its options or the option are missing |
| Extraction.SelectOptionByIndex | simple-test.ts:620-621 | a positive index gives the `value` of that option |
| Extraction.SelectOptionZero | simple-test.ts:620-622 | index 0 is falsy and gives the whole option list |
| Extraction.SelectOptionPastEnd | simple-test.ts:621 | an index past the last option throws |
| Extraction.AssignValue | simple-test.ts:359 | `el.value = v` changes only the native element's `value`, everything else on the element is kept |
| Extraction.AssignedValueAtPath | simple-test.ts:359 | after the assignment, the path `nativeElement`, `value` leads to the assigned value |
| Extraction.AssignedValueReadsBack | simple-test.ts:359 | the assigned value reads back through `get(el, 'nativeElement.value')` |
| Assertions.StripArgs | simple-test.ts:591-595 | the arguments are kept without `stripTags`; with it, each is stripped, and the rewrite throws exactly when some argument is neither a string nor an integer |
| Assertions.StripArgsThrows | simple-test.ts:591-595 | one argument that is neither a string nor an integer makes the rewrite throw |
| Assertions.StripArgsOfStripped | simple-test.ts:591-595 | an argument list rewritten element by element, stripped or kept as `stripTags` says, is what `StripArgs` gives |
| Assertions.StripArgsSingle | simple-test.ts:593 | a single string or integer argument is stripped on its own |
| Assertions.StripArgsIdempotent | simple-test.ts:591-595 | stripping the arguments twice is stripping them once |
| Assertions.Actual | simple-test.ts:582-588 | `getExpected`: a truthy `expected` is used (stripped when asked), a falsy one falls back to the element's text; it throws only when stripping something that is neither string nor integer |
| Assertions.FirstArgDefined | simple-test.ts:590 | `typeof args[0] !== 'undefined'`: a first argument exists and is not undefined; `ZeroArgMatcherCallsToBe` and `UndefinedFirstArgCallsToBe` show what happens otherwise |
| Assertions.Dispatch | simple-test.ts:575-604 | `doExpect`: with a defined first argument, the named matcher on the actual value and the stripped arguments; else a fake `true`/`true` check; else `toBe` with the arguments; throws exactly when stripping or `getExpected` throws |
| Assertions.FakeTestIgnoresContext | simple-test.ts:597-599 | a fake test makes the same call whatever the context |
| Assertions.StrippedComparison | simple-test.ts:582-596 | with `stripTags`, whatever `fakeTest` is, both the element's text and the expected string are stripped before the comparison |
| Assertions.ZeroArgMatcherCallsToBe | simple-test.ts:172-233 | the matchers without arguments call `toBe()` on the raw text, not the matcher they are named after |
| Assertions.UndefinedFirstArgCallsToBe | simple-test.ts:590-601 | an undefined first argument falls back to `toBe` with all the arguments |
| Assertions.LengthToBeCounts | simple-test.ts:295-303 | `lengthToBe(n)` on a `queryAll` result with matches compares their count with `n` |
| Assertions.LengthToBeEmptyThrows | simple-test.ts:295-303 | `lengthToBe(n)` on a `queryAll` result without matches throws, with the default `fakeTest` |
| Assertions.LengthToBeEmptyUnfaked | simple-test.ts:295-303 | with `fakeTest = false` it compares undefined with `n` instead |
| Assertions.LengthToBeNoContext | simple-test.ts:295-303 | without a context `lengthToBe(n)` compares undefined with `n` |
| Assertions.OrderingComparesParsedText | simple-test.ts:87-130 | the ordering matchers compare a text starting with a non-zero numeral as that integer |
| Assertions.OrderingFallsBackToText | simple-test.ts:87-130 | when the parse gives 0 or NaN, they compare the raw text |
| Assertions.LessThanComparesRawText | simple-test.ts:140-164 | `toBeLessThan`, `toBeLessThanOrEqual` and `toBeInstanceOf` compare the raw text |
| Assertions.SpyExpectation | simple-test.ts:71-77 | the spy is checked with `toHaveBeenCalledWith` exactly when arguments were given, and with `toHaveBeenCalled` exactly when none were |
| Facade.StripArgsInPlace | simple-test.ts:591-595 | the in-place loop succeeds exactly when `StripArgs` does, and then leaves the array holding its result |
| Facade.SimpleTest.constructor | simple-test.ts:50-60 | the façade starts after one render, with no context and empty logs |
| Facade.SimpleTest.DetectChanges | simple-test.ts:657-659 | one more render; the context and the logs are kept |
| Facade.SimpleTest.GetDomElement | simple-test.ts:548-565 | one render, then `el` is overwritten with the query's result on the new tree, even when nothing matches, and the reply is `DomReply` of it |
| Facade.SimpleTest.GetByClassName | simple-test.ts:427-442 | one render and a query with the class selector; the reply is `DomReply` of the new context |
| Facade.SimpleTest.GetById | simple-test.ts:463-478 | one render and a query with the ID selector; the reply is `DomReply` of the new context |
| Facade.SimpleTest.GetByTag | simple-test.ts:493-503 | one render and a query with the tag as selector; the reply is `DomReply` of the new context |
| Facade.SimpleTest.GetByAttr | simple-test.ts:523-539 | one render and a query with the attribute selector; the reply is `DomReply` of the new context |
| Facade.SimpleTest.DoExpect | simple-test.ts:575-604 | the call made is `Dispatch` of the context and the original arguments; it is logged, nothing else changes, and the argument array ends holding the stripped arguments; with no defined first argument the array is left as it was |
| Facade.SimpleTest.ToBeCloseTo | simple-test.ts:87-96 | `doExpect` with the parsed text as `expected` and arguments `[arg, precision]` |
| Facade.SimpleTest.ToBeGreaterThan | simple-test.ts:105-113 | `doExpect` with the parsed text as `expected` |
| Facade.SimpleTest.ToBeGreaterThanOrEqual | simple-test.ts:122-130 | `doExpect` with the parsed text as `expected` |
| Facade.SimpleTest.ToBeInstanceOf | simple-test.ts:140-142 | `doExpect` with `false` as `expected` |
| Facade.SimpleTest.ToBeLessThan | simple-test.ts:151-153 | `doExpect` with `false` as `expected` |
| Facade.SimpleTest.ToBeLessThanOrEqual | simple-test.ts:162-164 | `doExpect` with `false` as `expected` |
| Facade.SimpleTest.ExpectWithoutArgs | simple-test.ts:173 | `doExpect(name)` with no other argument |
| Facade.SimpleTest.ToBeNaN | simple-test.ts:172-174 | `doExpect('toBeNaN')` |
| Facade.SimpleTest.ToBeNegativeInfinity | simple-test.ts:182-184 | `doExpect('toBeNegativeInfinity')` |
| Facade.SimpleTest.ToBeNull | simple-test.ts:192-194 | `doExpect('toBeNull')` |
| Facade.SimpleTest.ToBePositiveInfinity | simple-test.ts:202-204 | `doExpect('toBePositiveInfinity')` |
| Facade.SimpleTest.ToBeTrue | simple-test.ts:212-214 | `doExpect('toBeTrue')` |
| Facade.SimpleTest.ToBeUndefined | simple-test.ts:222-224 | `doExpect('toBeUndefined')` |
| Facade.SimpleTest.ToBeDefined | simple-test.ts:231-233 | `doExpect('toBeDefined')` |
| Facade.SimpleTest.ToContain | simple-test.ts:244-246 | `doExpect` with `false` as `expected` and the caller's `stripTags` |
| Facade.SimpleTest.ToMatch | simple-test.ts:257-259 | `doExpect` with `false` as `expected` and the caller's `stripTags` |
| Facade.SimpleTest.ToBe | simple-test.ts:271-273 | `doExpect` with `false` as `expected` and the caller's `stripTags` and `fakeTest` |
| Facade.SimpleTest.ToEqual | simple-test.ts:284-286 | `doExpect` with `false` as `expected` and the caller's `fakeTest` |
| Facade.SimpleTest.LengthToBe | simple-test.ts:295-303 | `doExpect` with the length or undefined as `expected`, `fakeTest` in the `stripTags` slot and `false` as `fakeTest` |
| Facade.SimpleTest.ExpectElement | simple-test.ts:312 | one assertion call on the native element, logged |
| Facade.SimpleTest.ToBeTruthy | simple-test.ts:311-313 | `toBeTruthy()` on the native element, not its text |
| Facade.SimpleTest.ToBeFalsy | simple-test.ts:322-324 | `toBeFalsy()` on the native element |
| Facade.SimpleTest.ToHaveClass | simple-test.ts:331-333 | `toHaveClass(expected)` on the native element |
| Facade.SimpleTest.ToBeFalse | simple-test.ts:340-342 | `toBeFalse()` on the native element |
| Facade.SimpleTest.SpyOn | simple-test.ts:71-77 | the spy is installed, the method called, then the spy assertion made; nothing else changes |
| Facade.SimpleTest.ChangeSelectOption | simple-test.ts:349-370 | without a context: undefined and nothing changes; else it throws exactly when the lookup throws or the native element is not an object, and otherwise assigns the selected value, logs the assignment and the `change` event, renders once more and returns that value |

## Left out

- The render engine is not modelled: its tree, its CSS selector matching and
  its change detection. A query is a given function of the render generation
  and the selector.
- Facade.SimpleTest.DetectChanges, Facade.SimpleTest.ChangeSelectOption: `el`
  holds a copy of what the last query found, taken at that query's render.
  In the source it is a live DebugElement, whose `nativeElement` shows later
  renders. So between a re-render (`detectChanges`, or the one at the end of
  `changeSelectOption`) and the next query, `getValue` and the assertions
  read the tree of the query's render in the model, not the re-rendered DOM.
- The assertion engine is not modelled: no matcher is evaluated, and pass or
  fail is not decided. The model records which call the façade makes, and a
  matcher name the engine lacks is not detected.
- The spy and the spied method are not modelled. Their installation and the
  call are recorded, not their behaviour or their failures.
- `fakeTest()` (simple-test.ts:650-652) is not modelled. The constructor's
  wiring of the fixture, `expect` and `spyOn` is left out as well; the
  constructor only renders once.
- `getValue`, `getElement` and `getLength` are public methods of the class.
  They are modelled by `ValueOf`, `ElementOf` and `LengthOf` applied to `el`.
- Only integral numbers and NaN are modelled. Fractions, infinities and
  negative zero are floating point, so `parseInt`'s rounding of very long
  numerals and its sign of zero are left out.
- JsValues.ParseIntOfInt, JsStrings.IntToDecimal: the numeral is plain
  digits for every integer, so it matches Number::toString only below 10^21
  in magnitude, where the exponent form (`1e+21`) starts; `ParseIntOfInt` is
  stated for that range. `Int` also admits integers beyond 2^53, which no
  Number holds exactly. The façade reads text, not numbers, so neither
  reaches its behaviour.
- Strings are sequences of characters, not UTF-16 code units.
- Lodash paths are split on dots only; the bracket and quote syntax is left
  out. The named-import form of the lodash helpers is not modelled: `get` and
  `isString` are taken to be lodash's own functions.
- Only an object's own properties are modelled, not its prototype chain.
  Options are an array of option objects.
- `Transforms.StripHtmlTags` and `Transforms.StripLines` take only strings
  and integers, by precondition. Where the façade calls `stripHtmlTags` on
  other values, `StripOrThrow` models the TypeError. No caller reaches
  `stripLines` with another value.
- Facade.SimpleTest.ChangeSelectOption: assumes that an object native element
  has `dispatchEvent` and a plain `value` property. A select element's
  coercion of the assigned value is not modelled. For an array native
  element, the source assigns and then throws on `dispatchEvent`; the model
  throws before assigning. Later queries see the assignment only when the
  render engine's tree for the new generation holds it.
