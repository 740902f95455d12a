# async-optional in Dafny

A model of the two containers in the JavaScript library `async-optional`:

- `Optional` (src/Optional.js) holds a plain value.
- `AsyncOptional` (src/AsyncOptional.js) holds either a plain value or a promise of one.

Both are immutable. Every chaining call (`orUse`, `orCompute`, `orFlatCompute`, `filter`, `take`, `map`, `flatMap`) returns a container rather than changing the receiver; on their adopting branch `flatMap` and `orFlatCompute` hand back the callback's own instance. A value is *empty* when it is `null` or `undefined`.

The model is made of values and functions, because the source is:

- `Js` (js.dfy) holds JavaScript values, emptiness, truthiness, property lookup, thrown errors and the log of callback invocations.
- `Optionals` (optional.dfy) holds the synchronous container. A call that runs a callback returns the outcome (a value, or a thrown error) and the callbacks it invoked, in order.
- `AsyncOptionals` (async_optional.dfy) holds the asynchronous container.
  - A promise is modelled as already settled: resolved with a value, or rejected with an error.
  - Each invoked callback is tagged `Now` when it ran during the call, or `Later` when it ran in a promise continuation.
  - A synchronous throw is an `Outcome` that `Throws`; a rejection is a `Rejected` settled promise.
  - Like the source, each method has two paths. A plain value is handled at once: callbacks run during the call and their exceptions are thrown from it (src/AsyncOptional.js:175-176, 184, 311). A promise is handled in a continuation.
  - In that continuation, `filter`, `take`, `map` and `flatMap` resolve an empty value to `null`. `orUse` and `orCompute` resolve it to the fallback, adopting a promised fallback and keeping a plain one as it is, `undefined` included. `ifPresent`, `ifAbsent` and `eitherOr` resolve to the action's result when the action runs, and to `undefined` otherwise.
- `OptionalLaws` (optional_laws.dfy) and `AsyncOptionalLaws` (async_optional_laws.dfy) model fluent chains of calls. They prove what the containers promise across calls.
- `Agreement` (agreement.dfy) proves that an `AsyncOptional` over a plain value with plain-valued callbacks behaves call for call like an `Optional`. This holds through any chain of the seven chaining calls and in `eitherOr`, with two exceptions:
  - a `filter` predicate answering `null` or `undefined` empties an `Optional` but makes `AsyncOptional` throw `TypeError`;
  - in `either(a).or(b)` on an empty value, `Optional` throws the absence action's exception, while `AsyncOptional` runs that action in a continuation and rejects with it.

## Model

| member | source | states |
|---|---|---|
| Js.Property | src/Optional.js:150-154 | `value[property]` on a non-empty value is the object's own entry when it has one, `undefined` otherwise |
| Optionals.AssertOptional | src/Optional.js:9-15 | a callback result is accepted exactly when it is an `Optional`; anything else is a `TypeError` |
| Optionals.Empty | src/Optional.js:43-45 | the empty container holds `null` and is empty |
| Optionals.With | src/Optional.js:54-56 | the container holds the given value as is, and is present exactly when that value is neither `null` nor `undefined` |
| Optionals.WithEnsured | src/Optional.js:68-74 | throws `TypeError` exactly for `null`/`undefined`; otherwise the container is present and holds the value |
| Optionals.OrUse | src/Optional.js:86-88 | a present container keeps its value; an empty one takes the fallback |
| Optionals.OrCompute | src/Optional.js:101-103 | the supplier runs exactly when the container is empty; its value is then used as by `orUse`, and its throw propagates |
| Optionals.OrFlatCompute | src/Optional.js:118-122 | the supplier runs exactly when empty; an `Optional` result is adopted, anything else throws `TypeError`, a throw propagates |
| Optionals.Filter | src/Optional.js:135-141 | the predicate runs exactly on a present value; a truthy verdict keeps the container, a falsy one empties it, a throw propagates |
| Optionals.Take | src/Optional.js:150-154 | an empty container is returned as is; a present one yields its value's property |
| Optionals.Map | src/Optional.js:166-170 | the mapper runs exactly on a present value, once, and the new container holds its result; an empty container passes through |
| Optionals.FlatMap | src/Optional.js:184-188 | the mapper runs exactly on a present value; its `Optional` is adopted, a non-`Optional` throws `TypeError` |
| Optionals.IfPresent | src/Optional.js:197-201 | the action runs exactly when present, on the value; it throws exactly when the action throws |
| Optionals.IfEmpty | src/Optional.js:209-213 | the action runs exactly when empty; it throws exactly when the action throws |
| Optionals.Either | src/Optional.js:232-234 | runs the presence action as `ifPresent` does and hands back the receiver for `or` |
| Optionals.Or | src/Optional.js:235-237 | `or` runs the absence action exactly when the receiver is empty, and throws exactly the action's exception |
| Optionals.EitherOr | src/Optional.js:251-261 | exactly one of the actions runs, chosen by presence, and the call throws exactly that action's exception; an omitted absence action means nothing runs |
| Optionals.IsPresent | src/Optional.js:267-269 | presence is the negation of emptiness |
| Optionals.IsEmpty | src/Optional.js:275-277 | empty exactly when the held value is `null` or `undefined` |
| Optionals.Get | src/Optional.js:284-286 | returns the held value, which determines the container |
| OptionalLaws.Apply | src/Optional.js:86-188 | each chaining call runs at most one callback; transforms leave an empty container untouched, fallbacks leave a present one untouched |
| OptionalLaws.Chain | src/Optional.js:86-188 | a fluent chain runs at most one callback per call; the first call's callbacks come first, and a throw from the first call ends the chain with that call's result |
| OptionalLaws.EmptyPassesThroughChain | src/Optional.js:135-188 | an empty container passes unchanged through any chain of `filter`/`take`/`map`/`flatMap`, invoking no callback |
| OptionalLaws.PresentIgnoresFallbacks | src/Optional.js:86-122 | a present container passes unchanged through any chain of `orUse`/`orCompute`/`orFlatCompute`, invoking no supplier |
| OptionalLaws.MapIdentity | src/Optional.js:166-170 | mapping with the identity gives the same container |
| OptionalLaws.MapComposition | src/Optional.js:166-170 | `map(f).map(g)` equals `map(f then g)` unless `f` returns an empty value |
| OptionalLaws.MapIsFlatMapOfWith | src/Optional.js:166-188 | `map(f)` is `flatMap(x => Optional.with(f(x)))`, invocations included |
| OptionalLaws.FlatMapWithIsIdentity | src/Optional.js:184-188 | `flatMap(Optional.with)` gives the same container |
| OptionalLaws.TakeIsMapOfProperty | src/Optional.js:143-154 | `take(p)` is `map(v => v[p])`, as its documentation says |
| OptionalLaws.FilterIdempotent | src/Optional.js:135-141 | filtering twice with the same predicate is filtering once |
| OptionalLaws.OrUseGivesPresence | src/Optional.js:86-88 | a non-empty fallback makes the container present, and a second fallback changes nothing |
| OptionalLaws.EitherChain | src/Optional.js:232-239 | `either(a).or(b)` runs exactly one action |
| OptionalLaws.EitherChainMatchesEitherOr | src/Optional.js:232-261 | `either(a).or(b)` equals `eitherOr(a, b)`, and the action run is the presence action exactly when present |
| OptionalLaws.MapChainScenario | test/sync-optional/methods/AsyncOptional.map.test.js:38-53 | `with(42).map(n => n + 1).map(n => n + 1)` calls the mapper on 42 and 43 and holds 44 |
| OptionalLaws.TakeMissingScenario | test/sync-optional/methods/AsyncOptional.take.test.js:26-32 | `with({b: 42}).take('x')` holds `undefined` |
| AsyncOptionals.EnsurePromise | src/AsyncOptional.js:26-28 | a promise is kept; a plain value becomes a promise resolved with it |
| AsyncOptionals.AssertOptional | src/AsyncOptional.js:36-42 | a callback result is accepted exactly when it is an `AsyncOptional`; anything else is a `TypeError` |
| AsyncOptionals.EnsureOptionalValue | src/AsyncOptional.js:50-52 | an `AsyncOptional` yields its value as a promise; anything else is a `TypeError` |
| AsyncOptionals.AwaitInstance | src/AsyncOptional.js:350-352 | on the promise path a flat-mapper's instance, or a promise of one, gives its value; a rejection passes through; anything else rejects with `TypeError` |
| AsyncOptionals.Empty | src/AsyncOptional.js:80-82 | the empty container holds `null` as a plain value |
| AsyncOptionals.With | src/AsyncOptional.js:91-93 | the container holds the value or promise as is; it is synchronous exactly when given a plain value |
| AsyncOptionals.WithEnsured | src/AsyncOptional.js:109-125 | a plain empty value throws `TypeError` at once; a promise of an empty value rejects with `TypeError`; anything else is held |
| AsyncOptionals.OrUse | src/AsyncOptional.js:154-165 | an empty plain value takes the fallback; a present plain value is kept; a promise of an empty value resolves to the fallback, any other promise is kept |
| AsyncOptionals.OrCompute | src/AsyncOptional.js:182-193 | the supplier runs at once on an empty plain value, later on a promise of an empty value, never otherwise; its result is used as by `orUse` |
| AsyncOptionals.OrFlatCompute | src/AsyncOptional.js:213-225 | the supplier runs when the value is empty (at once or later); its instance is adopted, anything else throws or rejects with `TypeError` |
| AsyncOptionals.Filter | src/AsyncOptional.js:243-269 | on a plain value the predicate runs at once, and a `null`/`undefined` verdict throws `TypeError`; on a promise it runs later, a verdict is awaited and an empty verdict is falsy |
| AsyncOptionals.Take | src/AsyncOptional.js:278-289 | takes the property at once from a plain value and later from a promise; a promise of an empty value resolves to `null` |
| AsyncOptionals.Map | src/AsyncOptional.js:305-316 | the mapper runs at once on a present plain value, later on a promise of a present value, never on an empty one; a rejection passes through |
| AsyncOptionals.FlatMap | src/AsyncOptional.js:334-354 | the plain path accepts only an instance; the promise path also awaits a promised instance and passes a rejection through |
| AsyncOptionals.IfPresent | src/AsyncOptional.js:364-378 | the action runs exactly when the value is present (at once or later); the result is a promise of the action's result, or of `undefined` |
| AsyncOptionals.IfAbsent | src/AsyncOptional.js:387-401 | the action runs exactly when the value is empty (at once or later); a rejected receiver passes through with no call |
| AsyncOptionals.Either | src/AsyncOptional.js:421-423 | runs `ifPresent` and keeps its promise, with the receiver, for `or` |
| AsyncOptionals.Or | src/AsyncOptional.js:424-425 | `or` waits for the presence action, then runs `ifAbsent` as a continuation and settles as its promise does, a thrown exception becoming a rejection; a rejection skips it |
| AsyncOptionals.Postponed | src/AsyncOptional.js:424-425 | callbacks chained after a promise run later, in the same order |
| AsyncOptionals.EitherOr | src/AsyncOptional.js:442-465 | on a plain value acts as `ifPresent` or `ifAbsent`; on a promise it does the same once settled; a rejection passes through |
| AsyncOptionals.HasValue | src/AsyncOptional.js:472-474 | resolves to presence of the value, or rejects as the value's promise does |
| AsyncOptionals.IsEmpty | src/AsyncOptional.js:480-482 | resolves to emptiness of the value, or rejects as the value's promise does |
| AsyncOptionals.Get | src/AsyncOptional.js:489-491 | always a promise: of the plain value, or the held promise itself |
| AsyncOptionalLaws.Apply | src/AsyncOptional.js:154-354 | each chaining call runs at most one callback; a rejected container passes through, as does an empty plain one under a transform |
| AsyncOptionalLaws.Chain | src/AsyncOptional.js:154-354 | a fluent chain runs at most one callback per call; the first call's callbacks come first, and a synchronous throw from the first call ends the chain with that call's result |
| AsyncOptionalLaws.RejectionPropagatesThroughChain | src/AsyncOptional.js:154-354 | a rejected container passes unchanged through any chain, invoking nothing |
| AsyncOptionalLaws.PlainEmptyPassesThroughChain | src/AsyncOptional.js:243-337 | an empty plain value passes unchanged through any chain of `filter`/`take`/`map`/`flatMap` |
| AsyncOptionalLaws.DeferredEmptyBecomesNull | src/AsyncOptional.js:261-349 | a promise of an empty value comes out of any non-empty transform chain as a promise of `null`, invoking nothing |
| AsyncOptionalLaws.DeferringTheReceiver | src/AsyncOptional.js:154-354 | a promise of `v` runs the same callbacks as plain `v`, later, and settles to what the plain path gives, except that an empty `v` becomes `null`; this holds unless the filter verdict is a plain `null`/`undefined` or the flat-mapper returns a promise |
| AsyncOptionalLaws.FilterPathsDisagreeOnEmptyVerdict | src/AsyncOptional.js:248-264 | a `null`/`undefined` verdict throws `TypeError` on a plain value but drops the value on a promise |
| AsyncOptionalLaws.FlatMapOnlyPromisePathAwaits | src/AsyncOptional.js:334-354 | a promised instance from the flat-mapper throws `TypeError` on a plain value but is awaited on a promise |
| AsyncOptionalLaws.WithEnsuredObserved | src/AsyncOptional.js:109-125 | `withEnsured` is `with` plus a `TypeError` for an empty value, thrown at once only for a plain value |
| AsyncOptionalLaws.PresenceQueriesComplementary | src/AsyncOptional.js:472-482 | `hasValue` and `isEmpty` settle alike, to opposite answers or the same rejection |
| AsyncOptionalLaws.EitherChain | src/AsyncOptional.js:421-425 | `either(a).or(b)` as one expression runs at most one action, and exactly one when the value is resolved |
| AsyncOptionalLaws.EitherChainMatchesEitherOr | src/AsyncOptional.js:421-465 | `either(a).or(b)` runs the same action as `eitherOr(a, b)` and fails exactly when it does |
| AsyncOptionalLaws.EitherChainRunsExactlyOne | src/AsyncOptional.js:364-427 | on a resolved value `either(a).or(b)` runs exactly the action that presence selects; on a rejection it runs none |
| AsyncOptionalLaws.OrComputeOnPromisedUndefinedScenario | test/async-optional/methods/AsyncOptional.orCompute.test.js:34-44 | `with(Promise.resolve()).orCompute(() => 777)` calls the supplier later and resolves to 777 |
| AsyncOptionalLaws.FilterDropsScenario | test/async-optional/methods/AsyncOptional.filter.test.js:43-56 | `with(42).filter(n => n > 42)` calls the predicate and resolves to `null` |
| AsyncOptionalLaws.MapChainScenario | test/async-optional/methods/AsyncOptional.map.test.js:85-106 | four mappers, plain and promised alternately, on a promise of 42 all run later and give 46 |
| Agreement.StepAgrees | src/AsyncOptional.js:154-354 | one chaining call on a plain value gives the `Optional` result and runs the same callbacks at once |
| Agreement.ChainAgrees | src/AsyncOptional.js:154-354 | a whole chain on a plain value agrees with the same chain on `Optional`, result and callbacks alike |
| Agreement.UndefinedVerdictSplitsContainers | src/AsyncOptional.js:243-258 | an `undefined` verdict empties an `Optional` but makes `AsyncOptional.filter` throw `TypeError` |
| Agreement.EitherOrChainDefersAbsenceError | src/AsyncOptional.js:421-427 | on an empty value with a throwing absence action, `Optional`'s `either(a).or(b)` throws the error while `AsyncOptional`'s rejects with it, the action running later |
| Agreement.EitherOrAgrees | src/AsyncOptional.js:442-465 | `eitherOr` on a plain value runs the same action as `Optional`'s, at once, and throws exactly when it does |

## Left out

- Promise scheduling: promises are modelled as already settled. The model keeps only whether a callback ran during the call or in a continuation, not the order of microtasks across containers.
- Pending promises, and promises that never settle, are not modelled.
- Object identity: containers, values and `{or}` handles are compared structurally. "A new container" is not distinguished from the receiver.
- The `isEmpty` helper of src/util is not part of this model. Emptiness is taken as `null` or `undefined`, which both files rely on.
- Property lookup on primitives (a string's `length` or indices) and through prototypes is not modelled. `take` finds only an object's own entries; any other value yields `undefined`.
- Numbers are unbounded integers: floating point, `NaN` and `-0` are left out. Truthiness covers the modelled values.
- Error messages are left out: every error the containers raise is a `TypeError`, and an error a callback throws is carried unchanged.
- Passing a non-function where a callback is expected is not modelled. Callbacks are always Dafny functions.
- What a callback does besides returning or throwing (its own side effects) is not modelled.
- A thenable that is not a native promise is treated as a promise.
- Some tests (for example test/sync-optional/AsyncOptional.getOrDefault.test.js) exercise `getOrDefault` and `getOrCompute`, which neither source file defines; they are not modelled.
- The TypeScript declarations under types/ are not modelled. The scenario lemmas restate a few of the repository's tests.
- A modelled value cannot be a promise or a container. So `AsyncOptional.with({p: promise}).take('p')`, whose plain path then holds a promise (src/AsyncOptional.js:284), and `Optional.map` with a mapper that returns an `Optional` have no counterpart.
- Callbacks are Dafny functions, so they are deterministic. A JavaScript callback with internal state can answer differently on a second call; `OptionalLaws.FilterIdempotent` and `OptionalLaws.MapComposition` rely on determinism.
- `isPromise`, `hasSyncValue` and `hasEmptyValue` of src/AsyncOptional.js (lines 8-19, 131-141) are the predicates `AsyncOptionals.IsPromise`, `HasSyncValue` and `HasEmptyValue`. They carry no contract of their own.
