# MyPromise, modelled in Dafny

MyPromise is a hand-written promise that follows Promises/A+. It is a single-assignment
deferred value with `then` chaining and a resolution procedure, `resolvePromise`. The
canonical copy, src/promise.ts, also has the combinators of section 27.2.4 of ECMA-262:
static `resolve`, `reject`, `all`, `race`, `allSettled` and `any`, plus `catch` and
`finally`. src/promise.js is an earlier compiled form of the same class and resolution
procedure, without the combinators. promise.ts at the repository root is a variant that
differs in two places: the constructor's `catch`, and the missing `else` after the
own-promise branch of `resolvePromise`.

The model keeps two layers.

- **Module `Semantics`** describes every operation as a function on a `World`. A world holds:
  - the table of promise records (`PromiseState`, `PromiseResult` and the two callback lists);
  - the FIFO queue of tasks that `setTimeout` / `setImmediate` feed;
  - the bookkeeping of the combinators (`count` and the `result` array);
  - the `called` flags of the root promise.ts.

  `World.revision` chooses the copy: `Canonical` for src/promise.ts and src/promise.js, or
  `Legacy` for the root promise.ts.
- **Class `EventLoop.Loop`** holds the same tables as mutable fields. Its methods rewrite
  them in place the way the source does:
  - the `forEach` drain of a callback list, and the `forEach` of a combinator, are loops;
  - the thenable call is a loop guarded by a mutable `called` flag;
  - `result[index] = value` updates an aggregate in place.

  Each method is proved to leave exactly the world that the matching `Semantics` function
  computes.

Modules `Properties` and `Scenarios` prove what the source promises about those functions.
They cover single operations for all inputs, and runs of the event loop (`Step`, `Run`)
over several turns.

Where the comments and the code disagree, the model follows the code:

- **The settle guard.** `resolve` and `reject` test `PromiseState` when they are called, but
  only the deferred task writes it. So two settle calls in one turn both queue a task, and
  the second task overwrites the first. `Scenarios.DoubleSettleInOneTurn` proves that
  `resolve(1); reject(2)` in one executor ends rejected with 2. The "settles at most once"
  promise is proved only for calls made after the first settle task has run
  (`Properties.LateCallsAreNoOps`). A further consequence, proved by
  `Scenarios.RaceSettlesTwice`: `race([x, y])` is fulfilled with `x` and later overwritten
  with `y`. By the same mechanism, `any` with two inputs that fulfil in one turn ends with
  the later value, and two inputs of `all` or `race` that reject in one turn leave the
  later reason.
- **No adoption in `MyPromise.resolve`.** `MyPromise.resolve(v)` hands `v` to the
  constructor's `resolve`, which stores it as it is. So a thenable is not adopted
  (`Properties.StaticResolveDoesNotAdopt`). The combinators inherit this, because they pass
  every input through `MyPromise.resolve`.
- **Double subscription in the root promise.ts.** A MyPromise `x` goes through the adoption
  branch and then through the thenable branch too. So the child is subscribed to `x` twice,
  and its fulfilment is queued twice (`Scenarios.AdoptionQueuesTwice`). Under src/promise.ts
  it is queued once (`Scenarios.AdoptionQueuesOnce`).

Outside influences are inputs to the model rather than effects:

- The timers are the explicit `queue`.
- A user callback is a `Callback` value: not a function, returns `v`, or throws `e`.
- An executor, or the `then` of a thenable, is a `Script`: the calls it makes to its two
  arguments, in order, and whether it then throws.

## Model

| member | source | states |
|---|---|---|
| Model.Fresh | src/promise.js:108-111 | a new promise is pending, its result is `null`, and its callback lists are empty |
| Values.StoreAt | src/promise.ts:234 | `result[index] = v`: the element at `index` is `v`, other elements are kept, the array grows to `index + 1` when needed, and the gap is filled with `Undefined`, the model's stand-in for holes |
| Semantics.CallSettle | src/promise.ts:42-77 | a call of `resolve` / `reject` changes no promise record, aggregate or flag: it can only queue a task |
| Semantics.RunCalls | src/promise.ts:35 | the executor's calls leave every promise record, aggregate and flag as it was |
| Semantics.ExecutorThrew | promise.ts:23-29 | the constructor's `catch` changes no promise record, in either copy; only a queued rejection can follow |
| Semantics.Construct | src/promise.ts:25-40 | construction always returns, a throwing executor included; the new promise is a fresh pending record at the next index, and no other record changes |
| Semantics.ThenWith | src/promise.ts:106-160 | `then` adds exactly one fresh promise, the child; it changes no existing state or result, so no handler runs synchronously; the handlers may refer to that child |
| Semantics.Then | src/promise.ts:84-104 | `then` with user callbacks returns the child at the next index and keeps every reference valid; a callback may return that child itself |
| Semantics.Adopt | src/promise.ts:386-404 | adoption of a MyPromise changes no state or result synchronously |
| Semantics.GuardedSubscribe | promise.ts:136-176 | the root promise.ts thenable branch on a MyPromise changes no state or result synchronously |
| Semantics.Resolution | src/promise.ts:375-464 | the resolution procedure never writes a state or result itself, whatever branch it takes |
| Semantics.Store | src/promise.ts:231-234 | `count++; result[index] = value` changes only the aggregate: the promises and the queue are unchanged |
| Semantics.Bump | src/promise.ts:349 | `count++` in `any` changes only the aggregate |
| Semantics.FulfilWhenComplete | src/promise.ts:236-238 | the completion check changes no promise record |
| Semantics.RejectWhenComplete | src/promise.ts:355-357 | the completion check of `any` changes no promise record |
| Semantics.StaticResolve | src/promise.ts:166-175 | `MyPromise.resolve` returns an allocated promise and changes no existing state or result |
| Semantics.RunHandler | src/promise.ts:116-123 | a handler never changes the state or result of a promise; what it returns or throws refers only to allocated promises |
| Semantics.RunFinally | src/promise.ts:202-211 | a `finally` handler changes no existing state or result |
| Semantics.RunGuarded | promise.ts:151-165 | a guarded `resolvePromise` / `rejectPromise` callback changes no existing state or result |
| Semantics.RunCommit | src/promise.ts:51-62 | the settle task keeps every reference valid and allocates nothing |
| Semantics.RunHandle | src/promise.ts:115-124 | a handler task keeps every reference valid |
| Semantics.Step | src/promise.ts:51-158 | one turn of the modelled timer queue (the `setTimeout` callbacks of `resolve`, `reject` and `then` as a whole): running the oldest task keeps the world well formed, and its tables only grow |
| Semantics.Run | promise.ts:33-106 | any number of turns of the modelled timer queue (the `setImmediate` / `setTimeout` callbacks as a whole) keeps the world well formed, and its tables only grow |
| Semantics.StaticReject | src/promise.ts:181-186 | `MyPromise.reject` returns a new promise at the next index |
| Semantics.Catch | src/promise.ts:192-194 | `catch` returns a new child at the next index; the callback may refer to that child |
| Semantics.Finally | src/promise.ts:201-212 | `finally` returns a new child at the next index; the callback may refer to that child |
| Semantics.SubscribeOne | src/promise.ts:230-247 | subscribing to one input changes no existing state or result |
| Semantics.SubscribeEach | src/promise.ts:228-248 | the `forEach` over the inputs changes no existing state or result |
| Semantics.Allocate | src/promise.ts:219 | the combinator's promise is one fresh record appended; the queue, aggregates and flags are unchanged |
| Semantics.NewAggregate | src/promise.ts:222-223 | `count = 0` and an empty `result` for `length` inputs are appended; promises and the queue are unchanged |
| Semantics.All | src/promise.ts:218-253 | `all` returns its promise at the next index and keeps the world well formed |
| Semantics.Race | src/promise.ts:259-277 | `race` returns its promise at the next index and keeps the world well formed |
| Semantics.AllSettled | src/promise.ts:283-325 | `allSettled` returns its promise at the next index and keeps the world well formed |
| Semantics.Any | src/promise.ts:331-365 | `any` returns its promise at the next index and keeps the world well formed |
| EventLoop.Loop.Settle | src/promise.js:17-38 | the in-place `resolve` / `reject`: the pending check now, the write in a queued task; leaves exactly `CallSettle`'s world |
| EventLoop.Loop.Construct | src/promise.js:108-116 | the executor's calls are run in a loop, then the caught throw; leaves exactly `Construct`'s world and returns its id |
| EventLoop.Loop.ThenWith | src/promise.js:50-107 | pushes one wrapper onto each list of a pending parent, or queues the matching handler for a settled one; agrees with `ThenWith` |
| EventLoop.Loop.Then | src/promise.js:39-49 | normalises the callbacks, then subscribes; agrees with `Then` |
| EventLoop.Loop.ResolvePromise | src/promise.js:120-178 | the decision table run in place; agrees with `Resolution` |
| EventLoop.Loop.Adopt | src/promise.js:126-137 | agrees with `Adopt` |
| EventLoop.Loop.GuardedSubscribe | promise.ts:136-176 | allocates a `called` flag and subscribes both guarded callbacks; agrees with `GuardedSubscribe` |
| EventLoop.Loop.CallThen | src/promise.js:145-171 | the scripted `then.call` in a loop with a mutable `called` flag: only the first call, or a throw before any call, has an effect; agrees with `Resolution` on the thenable |
| EventLoop.Loop.StaticResolve | src/promise.ts:166-175 | agrees with `StaticResolve` |
| EventLoop.Loop.StaticReject | src/promise.ts:181-186 | agrees with `StaticReject` |
| EventLoop.Loop.Catch | src/promise.ts:192-194 | agrees with `Catch` |
| EventLoop.Loop.Finally | src/promise.ts:201-212 | agrees with `Finally` |
| EventLoop.Loop.Record | src/promise.ts:231-238 | updates the aggregate in place and fulfils when the count is complete; agrees with `FulfilWhenComplete` after `Store` |
| EventLoop.Loop.CountRejection | src/promise.ts:348-357 | agrees with `RejectWhenComplete` after `Bump` |
| EventLoop.Loop.RunHandler | src/promise.ts:118-122 | agrees with `RunHandler`'s world and completion |
| EventLoop.Loop.RunFinally | src/promise.ts:203-210 | agrees with `RunFinally` |
| EventLoop.Loop.RunGuarded | promise.ts:151-171 | tests and sets the `called` flag in place; agrees with `RunGuarded` |
| EventLoop.Loop.Step | src/promise.js:19-101 | one turn of the modelled timer queue (the `setTimeout` callbacks as a whole): runs the oldest task in place; agrees with `Step` |
| EventLoop.Loop.CommitTask | src/promise.ts:51-61 | writes state and result, then loops over the matching list in push order; agrees with `RunCommit` |
| EventLoop.Loop.HandleTask | src/promise.ts:139-146 | agrees with `RunHandle` |
| EventLoop.Loop.SubscribeOne | src/promise.ts:297-319 | agrees with `SubscribeOne` |
| EventLoop.Loop.SubscribeEach | src/promise.ts:295-320 | the `forEach` as a loop whose invariant is `SubscribeEach` of the prefix; agrees with `SubscribeEach` |
| EventLoop.Loop.Allocate | src/promise.ts:260 | agrees with `Allocate` and returns the new index |
| EventLoop.Loop.NewAggregate | src/promise.ts:289-290 | agrees with `NewAggregate` and returns the new index |
| EventLoop.Loop.All | src/promise.ts:218-253 | agrees with `All` |
| EventLoop.Loop.Race | src/promise.ts:259-277 | agrees with `Race` |
| EventLoop.Loop.AllSettled | src/promise.ts:283-325 | agrees with `AllSettled` |
| EventLoop.Loop.Any | src/promise.ts:331-365 | agrees with `Any` |
| Properties.PendingCallsAllQueue | src/promise.ts:42-77 | every settle call made while the promise is pending queues its own task, in call order; none changes a state or result |
| Properties.LateCallsAreNoOps | src/promise.js:17-38 | once a settle task has run, later `resolve` / `reject` calls schedule nothing and change nothing |
| Properties.ConstructQueues | src/promise.ts:25-40 | the constructor appends a pending record with a `null` result and empty lists, and queues one task per executor call followed by the caught throw |
| Properties.CommitStep | src/promise.ts:51-62 | the settle task sets state and result, keeps the lists and every other record, and queues the matching list's wrappers in push order |
| Properties.ThenSchedulesOrSubscribes | src/promise.ts:106-160 | a settled parent gets exactly one task for the matching handler; a pending one gets exactly one reaction appended to each list, and nothing is queued |
| Properties.ThenNormalises | src/promise.js:39-107 | the handlers `then` schedules or subscribes are the normalised callbacks |
| Properties.DefaultHandlers | src/promise.ts:95-104 | a non-function `onFulfilled` returns its argument, a non-function `onRejected` throws it, and a function's return or throw is kept, in either position |
| Properties.HandleStep | src/promise.ts:116-123 | a handler that throws `e` queues the child's rejection with `e`; one that returns `x` continues exactly as the resolution procedure on the child with `x` |
| Properties.ResolveSelf | src/promise.ts:382-384 | resolving a promise with itself queues its rejection with the "Chaining cycle detected for promise" `TypeError` |
| Properties.ResolveSettledPromise | src/promise.ts:397-404 | a settled MyPromise's state and result are copied; the root promise.ts also queues a guarded handler task on it |
| Properties.ResolvePendingPromise | promise.ts:123-135 | a pending MyPromise gets one reaction pair that re-resolves with its value or rejects with its reason; the root promise.ts adds a second, guarded pair |
| Properties.ResolveThrowingGetter | src/promise.ts:407-414 | a throwing `then` getter rejects with the thrown value |
| Properties.ThenableFirstCallWins | src/promise.ts:421-455 | two thenables whose first call is the same resolve the child identically, whatever else they call or throw |
| Properties.ThenableWithoutCalls | src/promise.js:145-171 | a `then` that calls nothing and throws rejects with the thrown value; one that calls nothing and returns changes nothing |
| Properties.ThenableFirstCall | src/promise.ts:425-443 | a first `rejectPromise(e)` rejects with `e`; a first `resolvePromise(y)` with a plain `y` fulfils with `y` |
| Properties.ResolveInert | src/promise.ts:456-463 | a primitive, `null`, or an object without a callable `then` fulfils the child with the value itself |
| Properties.StaticResolveDoesNotAdopt | src/promise.ts:166-175 | a MyPromise is returned unchanged; any other value, a thenable included, becomes the result of a new promise as it is |
| Properties.StaticRejectQueues | src/promise.ts:181-186 | `MyPromise.reject(r)` is a new promise whose rejection with `r` is queued |
| Properties.CatchIsThen | src/promise.ts:192-194 | `catch(f)` equals `then(null, f)`, and `then(v, f)` for any non-function `v` |
| Properties.FinallyHandlers | src/promise.ts:201-212 | when `onfinally` throws, both handlers throw that; when its result is not a MyPromise, each handler returns a new child chained on a feeder fulfilled with that result, and the child replays the parent's value or reason |
| Properties.FinallyPromiseResult | src/promise.ts:201-212 | when `onfinally` returns a MyPromise `q`, `MyPromise.resolve(q)` is `q` itself (src/promise.ts, lines 168-170): each handler returns the child of `q.then(...)`; a rejected `q` queues the rethrow of its reason, so that child is rejected with it; a fulfilled `q` queues the replay of the parent's value (or the throw of its reason); a pending `q` queues nothing |
| Properties.FinallyOnPromise | src/promise.ts:204-210 | one such handler: it returns the next index, and the queue grows by the reaction `q`'s state selects, or stays put while `q` is pending |
| Properties.FinallyChain | src/promise.ts:204-210 | `MyPromise.resolve(v).then(h)` for a `v` that is not a MyPromise: the feeder's fulfilment with `v` is queued, and the child is subscribed to it |
| Properties.EmptyInput | src/promise.ts:225-227 | on `[]`, `all` and `allSettled` fulfil with the input array, `any` rejects with the aggregate error, and `race` queues nothing |
| Properties.RaceEmptyUnreachable | src/promise.ts:263-272 | after `race([])`, no task, reaction or aggregate refers to the new promise, so nothing can ever settle it |
| Properties.NotIterable | src/promise.ts:249-251 | a non-array argument rejects with the "Argument is not iterable" `TypeError`, in all four combinators |
| Properties.SubscribeOnePlain | src/promise.ts:230-247 | one non-MyPromise input: a feeder promise whose fulfilment with the input is queued, carrying the combinator's handler pair for that index |
| Properties.SubscribeOnePromise | src/promise.ts:168-170 | one MyPromise input: `MyPromise.resolve(item)` is `item` itself, so the handler pair is attached to `item` by `then`, and the only new promise is the `then` child |
| Properties.SubscribeEachSnoc | src/promise.ts:228-248 | for any input array, thenables and MyPromises included, the `forEach` is one subscription per input in index order: one more input is one more subscription after the others |
| Properties.SubscribeEachPlain | src/promise.ts:228-248 | when no input is a MyPromise, the `forEach` gives every input, thenables included, its own feeder, in input order, with fulfilment tasks queued in input order; the aggregates are unchanged |
| Properties.AllValueStep | src/promise.ts:231-239 | `all`'s value handler stores the value at its index, bumps the count, and queues the fulfilment with the whole array exactly when the count reaches the length |
| Properties.AllReasonRejects | src/promise.ts:240-246 | one rejected input of `all` or `race` queues the combined promise's rejection with that reason |
| Properties.AllSettledStep | src/promise.ts:298-318 | `allSettled`'s handlers store a `{status, value/reason}` record at the index, bump the count, change no promise record, and queue the fulfilment with the whole records array exactly when the count reaches the input length |
| Properties.AnyStep | src/promise.ts:343-358 | each fulfilled input queues the combined promise's fulfilment with its value while that promise is pending; a rejection bumps the count and queues the rejection with the aggregate error exactly when the count reaches the input length |
| Scenarios.ThenNullForwards | src/promise.ts:95-104 | `then(null, null)` on a settled parent: two turns later the child has the parent's state and result |
| Scenarios.SelfReturnRejects | src/promise.ts:382-384 | `const c = p.then(() => c)` on a settled `p`: two turns later `c` is rejected with the "Chaining cycle detected for promise" `TypeError` |
| Scenarios.ThrowingHandlerRejects | src/promise.ts:116-123 | a handler that throws `e` leaves the child rejected with `e` two turns later, whatever the parent's result |
| Scenarios.DoubleSettleInOneTurn | src/promise.ts:44-53 | `resolve(1); reject(2)` in one executor queues both tasks; after one turn the promise is fulfilled with 1, after two it is rejected with 2 |
| Scenarios.FinallyThrowRejects | src/promise.ts:201-212 | a `finally` callback that throws `e` leaves the child rejected with `e` two turns later |
| Scenarios.RaceSettlesTwice | src/promise.ts:259-277 | `race([x, y])`: after five turns the race promise is fulfilled with `x`, and after seven the second input has overwritten it with `y` |
| Scenarios.AdoptionQueuesOnce | src/promise.ts:386-396 | resolving a child with a pending MyPromise that is then fulfilled with `v` queues the child's fulfilment once |
| Scenarios.AdoptionQueuesTwice | promise.ts:123-176 | in the root promise.ts the same program queues the child's fulfilment with `v` twice |
| Scenarios.AllCollects | src/promise.ts:218-253 | `all([x, y])`: after six turns the combined promise is fulfilled with `[x, y]` in input order |
| Scenarios.FinallyKeepsOutcome | src/promise.ts:201-212 | `finally` on a settled parent with a callback that returns: after six turns the child has the parent's state and result |

## Left out

- Timers: `setTimeout`, `setImmediate` and `requestAnimationFrame` are one FIFO queue. Tasks run in the order they were queued, not by wall-clock time. `race` and `any` do not keep the first settlement: every settle call made while the combined promise is pending queues a task, and the last such task decides.
- The `deferred` test hook and the module export glue are not part of this model, since they are test plumbing.
- JavaScript's dynamic shape checks and arbitrary closures are left out. Values are the tagged `Value` datatype, callbacks return or throw a fixed value, and a thenable's `then` is a synchronous script. A thenable that calls its arguments later, from another task, is not modelled.
- TypeScript types, and error objects beyond their kind and message, are not modelled. The unused `errors` array of `any` is omitted because it does not affect the outcome.
- The `result` array of `all` / `allSettled` is handed to `resolve` as a value. Later writes to the same array through aliasing are not modelled. Holes that `result[index] = value` opens are `Undefined`.
- Semantics.SubscribeEach, Semantics.All, Semantics.Race, Semantics.AllSettled and Semantics.Any (and the matching `EventLoop.Loop` methods): an input array is assumed to have no holes. `promises.forEach` skips a hole, so in the source `all([ , 1])` never settles and `race([ , p])` follows only `p`. The model subscribes to every element, and a `List` has no way to express a hole.
- src/promise.ts never assigns `PromiseResult` in the constructor, so it starts `undefined`. The model uses `null`, as src/promise.js and promise.ts do. Nothing can read the result while the promise is pending.
- The combinators, `catch` and `finally` exist only in src/promise.ts. The model also lets them run on a `Legacy` world, but no lemma about them depends on the revision, except `FinallyKeepsOutcome`.
- Scenarios.FinallyKeepsOutcome: proved only for a callback that returns a value that is not a MyPromise, and for a parent fulfilled with a plain value. For a callback that returns a MyPromise, only the handler step is stated, by `Properties.FinallyPromiseResult`: a rejected MyPromise queues the rethrow of its reason into the child. The turns after that step are not stated.
- Scenarios.RaceSettlesTwice: proved for two inputs that are not MyPromises.
- Scenarios.AllCollects: proved for two inputs that are not MyPromises. The general case is covered only step by step: the subscription of each input (`Properties.SubscribeEachSnoc` with `Properties.SubscribeOnePlain` or `Properties.SubscribeOnePromise`) and each handler (`Properties.AllValueStep`). No multi-turn run with MyPromise inputs is stated.
- Scenarios.ThenNullForwards: proved for a parent fulfilled with a plain value; a fulfilled value that is a thenable or a MyPromise is resolved again, which is covered by the `Resolution` lemmas instead.
- Properties.RaceEmptyUnreachable: "never settles" is stated as "nothing refers to the promise", not as a statement about every later run.
- Properties.ThenableFirstCall: the `resolvePromise(y)` case is stated only for a plain `y`. For other `y`, `Resolution` recurses on `y`.
