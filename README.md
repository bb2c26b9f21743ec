# TS-Utilities core in Dafny

A Dafny model of the functional control-flow core of the TS-Utilities
library:

- `types.dfy` (module `Types`): the `Param<T>` resolver and the
  `Condition<T>` checker every other component uses, and the type-level
  `IntRange`/`U8` integer ranges.
- `optionals.dfy` (module `Optionals`): the `Option` container, a mutable
  cell modelled as a class whose fields `state` and `value` are assigned in
  place by `insert`, `getOrInsert`, `take`, `takeIf` and `replace`, and whose
  combinators may hand back the receiver or argument object itself; and the
  `Result` container, written once by its constructor and modelled as a
  datatype with the same two fields.
- `match.dfy` (module `MatchEngine`): the `match`/`case`/`default` evaluator
  with cascading fallthrough. A pure state record (`MatchState`, the four
  variables `createMatcher` captures) and a step per case (`Step`), folded
  over a chain (`Run`), specify it. The class `Matcher` is the closure:
  its `Case` method assigns the captured `performCascade`/`returnSet` flags
  in place and is proved to agree with `Step`.
- `values.dfy` (module `JsValues`): the JavaScript values the model
  handles, and JavaScript truthiness.
- `optionals_examples.dfy`, `match_examples.dfy`: the repository's test
  cases, stated as lemmas and client methods.

Values are `JsValue`: `undefined`, `null`, booleans, integer numbers,
strings and arrays of these. Functions are not values, so a stored value
that passes through `resolveParam` again (as `some`, `ok`, `err` and the
`Result` constructor make it do) is returned unchanged; `OkOf`/`ErrOf`
prove that the double resolution collapses. A `Param` is `Lit(v)` or
`Thunk(f)`, a `Condition` `Eq(v)` or `Pred(p)`: the closed datatype replaces
the `typeof x === "function"` test.

A call that throws (`expect` on None/Err, `expectErr` on Ok) returns
`Throw(message)` of the datatype `Completion`; a normal return is
`Normal(value)`. A case handler is a function from the subject to
`Handled(result, cascaded)`: the value it returns and whether it called
`cascade()` while it ran.

Behaviour reproduced literally:

- `expectOr` is `this.value || resolveParam(param)`: a held falsy value
  (`0`, `""`, `false`, `null`, `undefined`) falls through to the default,
  and so do `mapOr` and `Result.expectOr`/`mapOr`, which go through it.
- `and`, `filter`, `or`, `orElse`, `xor` and `takeIf` on None return the
  receiver or argument object; their contracts say which object.
- `unzip` of a Some array returns `[some(first), some(rest)]`, a head/tail
  split. The tests at tests/optionals.test.ts:177, 178 and 181, and the
  `Unzip<T>` type at src/optionals.ts:18, expect a pairwise or
  last-element split; the model follows the code, and
  `OptionalsExamples.ZipThenUnzip` and `OptionalsExamples.UnzipFive` state
  what the code returns for those inputs.
- `expect` throws a plain `Error` carrying the message, not a dedicated
  error kind.
- A case whose first condition matches runs even after an earlier handler
  ran, and overwrites the result; the other conditions of a case are still
  checked once a handler has run, but their answer is ignored
  (`MatchEngine.ConditionsChecked`).

## Model

| member | source | states |
|---|---|---|
| `Types.ResolveParam` | src/types.ts:21-26 | a literal parameter comes back unchanged; a producer is called and its result returned; no precondition, so it is total |
| `Types.CheckCondition` | src/types.ts:28-33 | a literal condition holds exactly when it equals the value; a predicate condition is the predicate's answer on the value; total |
| `Types.TypesExamples` | tests/types.test.ts:4-19 | resolve 3 is 3, resolve `() => 5` is 5; 3 against 3 holds, 3 against 2 does not, `v === 5` on 5 holds |
| `Types.EnumerateBelow` | src/types.ts:1-6 | from the accumulator `[0..k)`, `Enumerate<N>` yields exactly the naturals below N |
| `Types.IntRangeExact` | src/types.ts:8-11 | `IntRange<F, T>` holds exactly the n with F <= n < T |
| `Types.U8IsIntRange` | src/types.ts:13 | the set of all values of the subset type `U8` is exactly `IntRange<0, 256>` |
| `JsValues.Truthy` | src/optionals.ts:54 | definition: JavaScript truthiness on the modelled values, the test `\|\|` applies; `FalsyValues` lists its false cases |
| `JsValues.First` | src/optionals.ts:160 | definition: the `first` of `[first, ...rest]`, `undefined` for an empty array; `Rest` states how the two split an array |
| `JsValues.Rest` | src/optionals.ts:160 | the `rest` of `[first, ...rest]`: on a non-empty array, `first` followed by `rest` is the array again; on an empty one it is empty |
| `JsValues.Element` | src/optionals.ts:152 | definition: element i of an array value as `[a, b]` destructures it, `undefined` past the end or on a non-array |
| `JsValues.FalsyValues` | src/optionals.ts:54 | the values `\|\|` treats as false are exactly `undefined`, `null`, `false`, `0` and `""` |
| `Optionals.Option.Valid` | src/optionals.ts:24-33 | definition of the object invariant: a None cell holds `undefined`; every constructor establishes it and every mutator keeps it |
| `Optionals.Option.IsSome` | src/optionals.ts:35-37 | definition: the cell's state is Some; `IsNone` is its negation |
| `Optionals.Option.WithValue` | src/optionals.ts:28-33 | `new Option(val)` is Some holding `val` (even `undefined`) |
| `Optionals.Option.Empty` | src/optionals.ts:24-33 | `new Option()` is None, holding `undefined` |
| `Optionals.Option.IsNone` | src/optionals.ts:39-41 | exactly the negation of `isSome` |
| `Optionals.Option.IsSomeAnd` | src/optionals.ts:43-45 | true iff Some and the predicate holds of the value; false on None whatever the predicate |
| `Optionals.Option.Expect` | src/optionals.ts:47-51 | returns normally with the value iff Some; on None throws with the given message |
| `Optionals.Option.ExpectOr` | src/optionals.ts:53-55 | a truthy held value is returned; a falsy held value, and any None cell, give the resolved default |
| `Optionals.Option.Inspect` | src/optionals.ts:57-61 | the callback is called once, with the value, iff Some; never on None |
| `Optionals.Option.Map` | src/optionals.ts:63-67 | a new cell: None for None, Some(fn(v)) for Some(v); the receiver is not modified |
| `Optionals.Option.MapOr` | src/optionals.ts:69-71 | fn(v) when Some(v) and fn(v) is truthy, otherwise the resolved default |
| `Optionals.Option.OkOr` | src/optionals.ts:73-76 | None gives Err of the resolved error, Some(v) gives Ok(v) |
| `Optionals.Option.And` | src/optionals.ts:78-81 | the receiver object when None, the argument object when Some; Some iff both are |
| `Optionals.Option.AndThen` | src/optionals.ts:83-85 | on Some(v) the very Option `fn(v)` returns; on None a new None |
| `Optionals.Option.Filter` | src/optionals.ts:87-90 | the receiver object when None or when the predicate holds of its value; otherwise a new None |
| `Optionals.Option.Or` | src/optionals.ts:92-95 | the receiver object when Some, the argument object when None; Some iff either is |
| `Optionals.Option.OrElse` | src/optionals.ts:97-100 | the receiver object when Some; only on None the producer's Option |
| `Optionals.Option.Xor` | src/optionals.ts:102-106 | Some iff exactly one operand is Some, and then that operand object; otherwise a new None |
| `Optionals.Option.Insert` | src/optionals.ts:108-113 | afterwards the cell is Some holding the resolved parameter, which is returned |
| `Optionals.Option.GetOrInsert` | src/optionals.ts:115-118 | on Some returns the held value and changes nothing; on None inserts the resolved parameter and returns it |
| `Optionals.Option.Take` | src/optionals.ts:120-131 | on Some returns a new Some with the value and leaves the cell None; on None returns a new None and changes nothing |
| `Optionals.Option.TakeIf` | src/optionals.ts:133-136 | on None returns the receiver unchanged; on Some takes the value iff the predicate holds, otherwise returns a new None and leaves the cell as it was |
| `Optionals.Option.Replace` | src/optionals.ts:138-144 | afterwards the cell holds the resolved parameter; returns the previous value when it was Some, the new one when it was None |
| `Optionals.Option.Zip` | src/optionals.ts:146-149 | a new cell, Some iff both are, holding the array `[v, w]` of both values |
| `Optionals.Option.ZipWith` | src/optionals.ts:151-153 | a new cell, Some iff both are, holding fn(v, w) |
| `Optionals.Option.Unzip` | src/optionals.ts:156-165 | None gives two Nones; Some(array) gives Some(first element) and Some(array of the rest); any other Some(v) gives Some(v) and None |
| `Optionals.SomeOf` | src/optionals.ts:168-170 | `some(p)` is a new Some holding the resolved parameter |
| `Optionals.NoneOf` | src/optionals.ts:172-174 | `none()` is a new None |
| `Optionals.NewResult` | src/optionals.ts:188-195 | the tag of the payload decides Ok or Err, and the stored value is the resolved payload |
| `Optionals.OkOf` | src/optionals.ts:288-290 | `ok(p)` is Ok of the resolved parameter: resolving twice is resolving once |
| `Optionals.ErrOf` | src/optionals.ts:292-294 | `err(p)` is Err of the resolved parameter: resolving twice is resolving once |
| `Optionals.Result.IsOk` | src/optionals.ts:197-199 | definition: the result's state is Ok; `IsErr` is its negation |
| `Optionals.Result.IsErr` | src/optionals.ts:201-203 | exactly the negation of `isOk` |
| `Optionals.Result.IsOkAnd` | src/optionals.ts:205-207 | true iff Ok and the predicate holds of the value; false on Err |
| `Optionals.Result.IsErrAnd` | src/optionals.ts:209-211 | true iff Err and the predicate holds of the error; false on Ok |
| `Optionals.Result.Ok` | src/optionals.ts:213-218 | a new Option, Some iff Ok, holding the success value |
| `Optionals.Result.Err` | src/optionals.ts:220-225 | a new Option, Some iff Err, holding the error |
| `Optionals.Result.Map` | src/optionals.ts:227-230 | an Err passes through equal to the receiver; Ok(v) becomes Ok(fn(v)) |
| `Optionals.Result.MapOr` | src/optionals.ts:232-234 | fn(v) when Ok(v) and fn(v) is truthy, otherwise the resolved default |
| `Optionals.Result.MapErr` | src/optionals.ts:236-239 | an Ok passes through equal to the receiver; Err(e) becomes Err(fn(e)) |
| `Optionals.Result.Inspect` | src/optionals.ts:241-245 | the callback is called once, with the value, iff Ok |
| `Optionals.Result.InspectErr` | src/optionals.ts:247-251 | the callback is called once, with the error, iff Err |
| `Optionals.Result.Expect` | src/optionals.ts:253-257 | returns normally with the value iff Ok; on Err throws with the given message |
| `Optionals.Result.ExpectOr` | src/optionals.ts:259-261 | the success value when Ok and truthy, otherwise the resolved default, as `ok().expectOr` gives |
| `Optionals.Result.ExpectErr` | src/optionals.ts:263-267 | returns normally with the error iff Err; on Ok throws with the given message |
| `Optionals.Result.And` | src/optionals.ts:269-272 | an Err receiver is returned, otherwise the argument; Ok iff both are |
| `Optionals.Result.AndThen` | src/optionals.ts:274-276 | an Err receiver gives an Err carrying its error; Ok(v) gives the Result fn(v) |
| `Optionals.Result.Or` | src/optionals.ts:278-281 | an Ok receiver is returned, otherwise the argument; Ok iff either is |
| `Optionals.Result.OrElse` | src/optionals.ts:283-285 | an Ok receiver gives an Ok carrying its value; Err(e) gives the Result fn(e) |
| `OptionalsExamples.AndChain` | tests/optionals.test.ts:89-91 | `some(3).and(none()).and(some(4)).expectOr(22)` is 22 |
| `OptionalsExamples.ExpectOrOnZero` | src/optionals.ts:47-55 | on Some(0) `expect` returns 0 while `expectOr(7)` returns 7 |
| `OptionalsExamples.TakeTwice` | tests/optionals.test.ts:131-137 | a first `take` of Some(3) gives Some(3), a second gives None |
| `OptionalsExamples.TakeIfExamples` | tests/optionals.test.ts:139-148 | `takeIf(> 2)` takes 3 and empties the cell; `takeIf(> 3)` gives None and the cell still holds 3 |
| `OptionalsExamples.ReplaceExamples` | tests/optionals.test.ts:150-155 | `replace(4)` returns 3 on Some(3) and 4 on None, and afterwards both cells read 4 through `expectOr(0)` |
| `OptionalsExamples.GetOrInsertExamples` | tests/optionals.test.ts:126-129 | `getOrInsert(4)` gives 3 on Some(3) and 4 on None |
| `OptionalsExamples.XorExamples` | tests/optionals.test.ts:108-113 | the four `xor` combinations of Some(3) and None read 3, 3, 0, 0 through `expectOr(0)` |
| `OptionalsExamples.ZipThenUnzip` | src/optionals.ts:146-165 | zipping Some(a) with Some(b) and unzipping gives Some(a) and Some([b]) |
| `OptionalsExamples.UnzipFive` | src/optionals.ts:156-165 | `some([1,2,3,4,5]).unzip()` gives Some(1) and Some([2,3,4,5]) |
| `OptionalsExamples.UnzipNonArray` | tests/optionals.test.ts:179-180 | `unzip` of Some(3) gives Some(3) and None; of None two Nones |
| `OptionalsExamples.ZipWithSum` | tests/optionals.test.ts:164-169 | `some(3).zipWith(some(3), +)` holds 6 |
| `OptionalsExamples.MapLaws` | src/optionals.ts:63-67 | mapping the identity gives an equal cell; mapping f then g equals mapping their composition |
| `OptionalsExamples.MapOrExamples` | tests/optionals.test.ts:79-82 | `mapOr(+1, 0)` of Some(3) is 4, `mapOr(+1, 10)` of None is 10 |
| `OptionalsExamples.ResultMapExamples` | tests/optionals.test.ts:221-229 | `ok(3).map(+1)` is `ok(4)`; mapping an Err and `mapErr` of an Ok change nothing |
| `OptionalsExamples.ResultAndOr` | tests/optionals.test.ts:265-284 | `ok(3).and(ok(4))` reads 4, `ok(3).and(err)` 0, `ok(3).or(err)` 3, `err.or(ok(4))` 4 |
| `OptionalsExamples.OkOrExamples` | tests/optionals.test.ts:84-87 | `ok_or('error')` is `ok(3)` on Some(3) and `err('error')` on None |
| `MatchEngine.Initial` | src/match.ts:84-87 | the state `match(v)` starts in: its subject is v, its default runs, and its first case runs iff one of that case's conditions matches v |
| `MatchEngine.AnyMatches` | src/match.ts:64 | definition: `otherConditions.some(checkCondition)`, recursively; `AnyMatchesExists` proves it means "some condition matches" |
| `MatchEngine.Fires` | src/match.ts:61-66 | the guard of `.case`: it holds when cascading or when the first condition matches; once resolved and not cascading it holds iff the first condition matches |
| `MatchEngine.Step` | src/match.ts:60-77 | one `.case`: the subject is kept; when the guard holds, the link is resolved, carries the handler's result and cascades iff it did or the handler called `cascade()`; otherwise the state is unchanged |
| `MatchEngine.Run` | src/match.ts:70-77 | a chain of `.case` calls, each link built from the state the previous one left: once resolved or cascading it stays so |
| `MatchEngine.DefaultRuns` | src/match.ts:50 | definition: the guard of the `.default` thunk, cascading or not resolved; `DefaultRunsIff` and `CascadeIsSticky` state when it holds after a chain |
| `MatchEngine.DefaultResult` | src/match.ts:48-53 | definition: the handler's value on the subject when the guard holds, otherwise the carried result; `DefaultThunk.Call` is proved equal to it |
| `MatchEngine.Match` | src/match.ts:84-87 | `match(v)` is a new matcher over v with no result, not cascading, not resolved |
| `MatchEngine.Matcher.constructor` | src/match.ts:36-41 | a matcher holds the subject, the previous result and the two flags it is created with |
| `MatchEngine.Matcher.Case` | src/match.ts:55-79 | the returned link is a new matcher in the state `Step` gives; the receiver's own flags are set to the link's |
| `MatchEngine.Matcher.Default` | src/match.ts:46-47 | `.default(h)` runs nothing: it packages h with the matcher, to be decided when called |
| `MatchEngine.DefaultThunk.Call` | src/match.ts:48-53 | the handler's value on the subject when cascading or when no case ran; otherwise the carried result |
| `MatchEngine.Fired` | src/match.ts:55-69 | the positions of the cases whose handler runs, all within the chain |
| `MatchEngine.ConditionsChecked` | src/match.ts:61-65 | no condition is checked while cascading; otherwise the first condition is checked first; at most all conditions are checked |
| `MatchEngine.SomeChecked` | src/match.ts:64 | `some` checks a prefix of the other conditions |
| `MatchEngine.AnyMatchesExists` | src/match.ts:64 | `some` holds iff one of the conditions matches |
| `MatchEngine.SomeCheckedDecides` | src/match.ts:64 | `some` stops at the first matching condition, and its answer is that of the last condition checked |
| `MatchEngine.FiresByConditionsChecked` | src/match.ts:61-66 | the handler runs iff cascading, or the first condition matches, or nothing ran yet and the last other condition checked matches |
| `MatchEngine.FirstConditionAlwaysCounts` | src/match.ts:61-66 | in any chain, a case whose first condition matches the subject runs its handler, whatever ran before it |
| `MatchEngine.OtherConditionsIgnoredOnceResolved` | src/match.ts:61-66 | in any chain, once an earlier handler ran and none cascaded, a case whose first condition fails does not run, whatever its other conditions say |
| `MatchEngine.RunKeepsSubject` | src/match.ts:70-77 | every link of a chain carries the same subject |
| `MatchEngine.CascadeIsSticky` | src/match.ts:42-77 | once cascading, every later case handler runs, the flag is never cleared and the default runs |
| `MatchEngine.FiredIsExact` | src/match.ts:55-69 | handlers run in call order, and a case's position is listed iff its handler runs |
| `MatchEngine.ResolvedIffSomeFired` | src/match.ts:61-67 | a chain is resolved iff it was already or some handler of it ran |
| `MatchEngine.ResultOfLastFired` | src/match.ts:60-71 | a link returns the result of the last handler that ran, or the starting result when none ran |
| `MatchEngine.CascadingIffHandlerCascaded` | src/match.ts:42-75 | a chain cascades iff it started cascading or a handler that ran called `cascade()` |
| `MatchEngine.DefaultRunsIff` | src/match.ts:48-53 | after `match(v)` and its cases, the default runs iff cascading or no case handler ran |
| `MatchExamples.BasicMatch` | tests/match.test.ts:4-26 | inputs 1, 2, 3, 4 yield 2, 4, 6, 6 |
| `MatchExamples.MultiConditionMatch` | tests/match.test.ts:41-56 | with two conditions per case, inputs 1..4 yield 2, 4, 6, 6 |
| `MatchExamples.PredicateMatch` | tests/match.test.ts:58-79 | with predicate conditions, inputs 1..4 yield 2, 4, 6, 6 |
| `MatchExamples.DefaultMatch` | tests/match.test.ts:28-39 | the default gives 0 for 1, 4 and 5, and the case result for 2 and 3 |
| `MatchExamples.CascadeFallsThrough` | tests/match.test.ts:86-103 | the cascading chain runs 4, 3, 2 and 1 handlers for inputs 1..4 |
| `MatchExamples.CascadeIntoDefault` | tests/match.test.ts:105-123 | the chain where only case 3 cascades runs 1, 1, 3 and 1 handlers, the default included |
| `MatchExamples.CascadeCount` | tests/match.test.ts:81-126 | both chains together call their handlers 16 times |
| `MatchExamples.BasicChain` | tests/match.test.ts:4-26 | the same chain driven through `Match` and four `Case` calls yields 2, 4, 6, 6 |
| `MatchExamples.DefaultSeesLaterCase` | src/match.ts:46-67 | a default thunk taken from a matcher before `.case` is called on that matcher reads the flag the case set, and returns that matcher's own `undefined` result |

## Left out

- src/guards.ts, src/decorators.ts, src/proxy.ts, src/errors.ts,
  src/functionContext.ts, src/index.ts, jest.config.ts and tsup.config.ts
  are not part of this model: validation by thrown errors and console
  logging, wrappers over the decorator protocol and the host `Proxy` API,
  throw-as-expression helpers, `this` binding, re-exports and build
  configuration.
- The unused `util.inspect` import and the demo at src/optionals.ts:296-300,
  which logs at import time.
- Values that are functions, objects, floating-point numbers (NaN, -0,
  fractions), symbols or bigints. Functions are left out on purpose, so
  that re-resolution is the identity.
- An Option or Result stored inside a container. `Option.andThen`,
  `Result.andThen` and `Result.orElse` wrap the Option or Result their
  callback returns in a new container and unwrap it again with `expectOr`;
  since an object is always truthy, the model returns that object directly.
- Reference equality of arrays: `===` compares arrays by identity, the model
  by contents, so an array used as a condition literal matches equal arrays.
- Result object identity: `Result.and`/`or` hand back the receiver or
  argument object; Result is immutable, so only `===` could tell the
  difference, and the model treats Results as values.
- Side effects and exceptions of callbacks (predicates, producers, mapping
  functions, `inspect` callbacks, handlers): only their return values are
  modelled; `Inspect`/`InspectErr` state with which argument the callback is
  called.
- A `cascade` function kept by a handler and called after the handler has
  returned: the model records `cascade()` only as part of the handler's own
  run.
- The TypeScript types (`Unzip<T>`, `CaseArgs`, `Match<T, R>`) and the
  compiler's instantiation depth limit on `Enumerate`.
