# The API masher's resolver logic, in Dafny

The gateway composes three GraphQL data sources — xkcd comics, numbers
trivia and a mock fruit basket — into one graph. Most of the repository is
wiring: server start-up, REST connectors and a generated binding. This
project models the logic the repository itself contains:

- `mergeObjects` (`utils.dfy`, module `Utils`): the `_.defaults` clone that
  fills a target object in place from a list of sources. The first source to
  give a key a value wins. Keys the target owns with a defined value are never
  replaced, and the merge is shallow. The target is a `PlainObject` class whose
  `props` map the merge reassigns. `MergeObjects` loops over the sources and
  `FillFromSource` loops over one source's keys. Both are proved against the
  fold `Defaults`. `DefaultsIsRef` proves that fold equal to a key-by-key
  reference, `DefaultsRef`, and the remaining properties are stated about it.
- The JavaScript semantics the resolvers rely on (`js_value.dfy`, module
  `JsValue`): a value datatype with an explicit `Undefined`, truthiness, `||`,
  property reads that fall back to the Object.prototype members, reads of
  `null`/`undefined` that throw a TypeError, `String(v)` of primitives and
  arrays as template literals apply it, and the keys `for...in` enumerates on
  objects, arrays and strings of code points (see "## Left out").
- The union type resolver of `MixedFruit`. The gateway (`gateway.dfy`) and the
  mock source (`mock_resolvers.dfy`) each define it, and the two agree.
- The field-defaulting resolvers: the xkcd `link` fallback
  (`xkcd_resolvers.dfy`) and the numbers `date`/`year` `|| null`
  (`numbers_resolvers.dfy`).
- The delegating resolvers. The xkcd and numbers sources' `Query` resolvers
  are a map from field name to the request they make of their REST model. The
  mock source's `Query` resolvers return the basket its `getData` builds, as
  the program writes it. The
  gateway's own resolvers (`comicAndTrivia`, `triviaAndFruit` and the basket
  fields) call the composed graph through the binding; `legend` answers a
  constant object without calling anything. The binding
  is a parameter here: a function from a `Call` (field and arguments) to a
  value or a rejection. Each resolver returns a `Run`: the calls it made, in
  order, and its result. That makes "which query was called with which
  arguments" and "a rejection is passed on unchanged" statable.
- The mock model's `getData` (`mock_model.dfy`), both as written and
  corrected (see "## Findings"). Its random basket length and random picks
  are a parameter, `draws`.

Randomness becomes parameters. `Math.random()` in `getData` becomes `draws`,
and the trivia number in `triviaAndFruit` becomes `number`. The REST models
(`getLatestComic`, `getComicById`, `getNumbers`) are left out. The resolvers
that call them return the request they make instead.

The union resolver defaults to `"GreenApple"` for every value without a truthy
`cherry`, including an object with neither attribute. Nothing raises.

## Model

| member | source | states |
|---|---|---|
| Utils.MergeObjects | src/utils.ts:6-21 | mutates the target given and returns that same object (a fresh empty one for a null or undefined target); its properties afterwards are `Defaults` of the old ones and the sources, left to right |
| Utils.FillFromSource | src/utils.ts:8-19 | one `forEach` step: the loop over the source's enumerable keys leaves the target equal to `FillFrom` of its old properties and the source |
| Utils.WritableIffNotDefined | src/utils.ts:13-14 | the guard (value `undefined`, or the inherited Object.prototype member and not own) holds exactly when the target does not own a defined value for the key |
| Utils.FillStep | src/utils.ts:11-16 | visiting one more key writes the source's value exactly when the guard holds on the current target, and changes nothing else |
| Utils.FillFromAt | src/utils.ts:11-16 | one source, key by key: keys are the target's plus the source's; a defined own value stays; an undefined or missing one takes the source's value; other keys keep theirs |
| Utils.DefaultsIsRef | src/utils.ts:6-21 | the left-to-right fold equals the key-by-key reference: target's defined values, else the first defined value any source gives |
| Utils.NullishSourceSkipped | src/utils.ts:9 | one step: a null or undefined source leaves the target unchanged in the step that visits it |
| Utils.NullishSourceIgnored | src/utils.ts:8-9 | inserting a null or undefined source anywhere in the list does not change the result |
| Utils.OwnDefinedKept | src/utils.ts:12-16 | first wins: a value the target owns and that is not `undefined` is never overwritten by any source |
| Utils.MissingKeyFilled | src/utils.ts:8-16 | a key missing or `undefined` in the target ends up with the first defined value the sources give it (or `undefined` if none does) |
| Utils.FirstDefinedIsLeftmost | src/utils.ts:8-16 | that value is the one of the leftmost source defining the key; earlier sources giving `undefined` do not block it |
| Utils.SourceKeysAt | src/utils.ts:11 | a key is a source key exactly when some source in the list enumerates it |
| Utils.ResultKeys | src/utils.ts:11-15 | the result's keys are the target's keys plus every key some source enumerates |
| Utils.TargetOnlyKeysKept | src/utils.ts:11-15 | keys that no source has keep the target's value |
| Utils.QueryMapKeptWhole | src/utils.ts:12-15 | shallow: a nested map the target has under `Query` is kept whole, nothing of a source's `Query` is merged in |
| Utils.PrototypeNameFilled | src/utils.ts:13-15 | a key named like an Object.prototype member (`toString`, `valueOf`, ...) that the target does not own reads as the inherited member, passes the guard, and takes the first defined value the sources give it |
| Utils.Idempotent | src/utils.ts:12-16 | merging the same sources into the result again changes nothing |
| MockModel.GetDataAsWritten | src/data-source-mock/model.ts:10-25 | `getData` as written: every slot is `{cherry:"🍒"}` for type Cherry, `{apple:"🍏"}` for GreenApple, and `null` for any other or missing type; length is the random length |
| MockModel.GetData | src/data-source-mock/model.ts:10-25 | a basket whose every slot is `{cherry:"🍒"}` for type Cherry, `{apple:"🍏"}` for GreenApple, and otherwise the cherry or apple its draw picked |
| MockModel.TypedBasketsUnchanged | src/data-source-mock/model.ts:13-19 | for the two typed requests the corrected and the as-written `getData` agree |
| MockResolvers.QueryResolver | src/data-source-mock/resolvers.ts:2-6 | `greenApple`, `cherry` and `fruit` are the only query fields; each resolves to exactly the basket the program's `getData` builds for its argument |
| MockResolvers.QueryTypeTags | src/data-source-mock/resolvers.ts:3-5 | `greenApple` requests type "GreenApple", `cherry` type "Cherry", `fruit` no type |
| MockResolvers.ResolveType | src/data-source-mock/resolvers.ts:7-15 | the result is "Cherry" exactly when `obj.cherry` is truthy, and is always "Cherry" or "GreenApple" |
| MockResolvers.EmptyObjectIsGreenApple | src/data-source-mock/resolvers.ts:11-13 | an object with neither attribute resolves to "GreenApple" |
| MockResolvers.TypedBasketsResolveToTheirType | src/data-source-mock/model.ts:14-19 | round trip: every element of the `cherry` basket resolves to "Cherry", of the `greenApple` basket to "GreenApple" |
| MockResolvers.MixedBasketResolvesPerDraw | src/data-source-mock/model.ts:20-22 | with the corrected `getData`, each slot of the `fruit` basket resolves to the variant its draw picked |
| MockResolvers.FruitBasketAsWrittenHoldsNulls | src/data-source-mock/model.ts:20-24 | every slot of the basket the `fruit` query returns is null, unlike the corrected basket |
| XkcdResolvers.QueryForwarding | src/data-source-xkcd/resolvers.ts:2-5 | `latestComic` asks for the latest comic with no argument; `comic` forwards `id` unchanged |
| XkcdResolvers.FallbackLink | src/data-source-xkcd/resolvers.ts:8 | the fallback address starts with `https://xkcd.com/`, ends with `/` and is never empty |
| XkcdResolvers.Link | src/data-source-xkcd/resolvers.ts:7-8 | a truthy `link` is returned unchanged, otherwise the fallback address for `num`; the result is always truthy, never empty |
| XkcdResolvers.FallbackLinkNamesComic | src/data-source-xkcd/resolvers.ts:8 | the fallback address names the comic: reading its number back gives `num` |
| NumbersResolvers.QueryFields | src/data-source-numbers/resolvers.ts:2-7 | the query fields are exactly `trivia`, `date`, `math` and `year` |
| NumbersResolvers.TypeTagIsFieldName | src/data-source-numbers/resolvers.ts:3-6 | each query passes a type tag equal to its own field name; `date` forwards its `date` argument, the others `number`, unchanged |
| NumbersResolvers.Date | src/data-source-numbers/resolvers.ts:9 | a truthy `date` is returned unchanged; a falsy (missing, `undefined`, `null`, empty) one gives `null`; never `undefined` or `""` |
| NumbersResolvers.Year | src/data-source-numbers/resolvers.ts:10 | the same for `year`: truthy unchanged, falsy gives `null` |
| NumbersResolvers.DefaultingIdempotent | src/data-source-numbers/resolvers.ts:9-10 | resolving an already-defaulted `date`/`year` gives the same value again |
| NumbersResolvers.MissingIsNull | src/data-source-numbers/resolvers.ts:9-10 | a missing or empty `date` gives `null` whatever `year` is, and a missing or empty `year` gives `null` whatever `date` is |
| Gateway.ComicAndTrivia | src/index.ts:18-23 | calls `latestComic` with `{}` first; calls `date` only when the comic is not null, with the single argument `date = "${month}/${day}"` of that comic; succeeds exactly when both calls do, with `{comic, trivia}` holding both results unchanged; a rejection of either call is passed on unchanged, a null comic throws a TypeError |
| Gateway.SplitDateString | src/index.ts:21 | the `month/day` string splits back into the month and the day |
| Gateway.ComicDateForwarded | src/index.ts:19-21 | `date` is called with exactly the comic's `month + "/" + day`, from which both can be read back when the month holds no `/` |
| Gateway.NullComicThrows | src/index.ts:19-20 | a null comic cannot be destructured: TypeError, and `date` is never called |
| Gateway.ComicAndTriviaExample | src/index.ts:18-23 | a comic of month "4", day "1" leads to `date("4/1")` and to `{comic, trivia}` with both answers |
| Gateway.TriviaAndFruit | src/index.ts:24-27 | calls `trivia` with the drawn number and returns an object whose only field is `triviaContent`, the trivia's `text`; fails only on a rejection, which is passed on unchanged, or on a null or undefined trivia, which throws a TypeError |
| Gateway.BasketOfGreenApples | src/index.ts:35-38 | delegates to `greenApple` with empty arguments and returns its answer unchanged |
| Gateway.BasketOfCherries | src/index.ts:39-42 | delegates to `cherry` with empty arguments and returns its answer unchanged |
| Gateway.Legend | src/index.ts:47-49 | an object with exactly the keys `greenApple` and `cherry` |
| Gateway.LegendIndependentOfInputs | src/index.ts:47-49 | the legend does not depend on parent or arguments |
| Gateway.LegendMatchesBaskets | src/index.ts:47-49 | the legend's emoji are those of the mock model's cherry and green-apple elements |
| Gateway.ResolveType | src/index.ts:50-57 | "Cherry" exactly when `obj.cherry` is truthy, otherwise "GreenApple"; always one of the two |
| Gateway.ResolveTypeAgrees | src/index.ts:51-57 | the gateway's union resolver and the mock source's agree on every object |
| Gateway.BasketsResolveThroughGateway | src/index.ts:35-42 | baskets delegated to the mock source resolve element-wise to the variant they are named after |

## Left out

- Schema composition (`prepare` of `@gramps/gramps`), the generated binding's delegation proxy, namespacing and fragment dependencies are not in the repository's own code. The binding is a function parameter.
- Server start-up, request context construction, `console.log` and schema file reading/writing are I/O.
- The REST models and connectors of the xkcd and numbers sources are Promise chains over an external connector. Their error formatting uses `JSON.stringify`. The query resolvers return the request instead of its answer.
- The mock A and C models and `throwError` are constant promises and an external error type.
- `fillRandom` and `aBasketOfMixedFruit` are random; the `debug` resolver only logs and returns the constant `'Hello'`.
- JsValue.Enumerable: a string is a sequence of Unicode code points, not UTF-16 code units, so a string source with a character outside the Basic Multilingual Plane (`"🍒"`) has one index key here where JavaScript enumerates two (`"0"` and `"1"`, one per surrogate half).
- JsValue.ToStr: an object always stringifies as `"[object Object]"`; an own `toString` or `valueOf` the object carries is ignored, so neither its result nor the TypeError a non-callable one raises is modelled.
- Numbers are integers: floating point, `NaN` (falsy) and the printing of fractions are not modelled.
- A function value is identified by its source text, so two distinct closures with equal text compare equal.
- Property reads see own properties and the Object.prototype members. Built-in properties of primitives and arrays (`length`, methods) are not modelled. `__proto__` is an ordinary key.
- Utils.MergeObjects: a primitive target (wrapped by `Object(...)`) is not modelled; the target is a plain object or null/undefined.
- Utils.MergeObjects: sources are immutable values, so a source that aliases the target is not modelled.
- Utils.MergeObjects: inherited enumerable properties of a source are not enumerated; array holes are not modelled.
- Utils.MergeObjects: the order in which one source's keys are visited is left open. Distinct keys write distinct slots, so the result does not depend on it.
- MockModel.GetData: the random basket length (0 to 10) is the length of `draws`, which is not bounded.

## Findings

| source | as written | input that shows it | evidently intended | confidence | as-written member | corrected member |
|---|---|---|---|---|---|---|
| src/data-source-mock/model.ts:20-22 | the default branch calls `fruitBasket.fill(null)` and drops the array `.map(...)` builds, so `getData` returns only nulls | `getData({})` with random length 3 returns `[null, null, null]`, so the `fruit` query never returns a fruit | return the mapped basket: each slot is a cherry or an apple picked at random | high, not executed | MockResolvers.FruitBasketAsWrittenHoldsNulls | MockResolvers.MixedBasketResolvesPerDraw |
