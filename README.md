# Three hand-written JavaScript promises, in Dafny

The blog repository carries three small promise implementations in the style of
Promises/A+:

- `utils/Promise.js`: the fullest one. Its `resolve` and `reject` closures
  settle synchronously and then call the wrappers registered by `then`. `then`
  defers handlers with `setTimeout`. `resolvePromise` is the Promise Resolution
  Procedure (section 2.3 of Promises/A+). It also has `catch`, `deferred`,
  `Promise.resolve`, `Promise.reject`, `Promise.race` and `Promise.all`.
- `utils/Promise1.js`: `resolve` and `reject` only check for pending and
  schedule a timer task. That task sets the status and the value (or reason)
  unconditionally and calls the registered callbacks.
- `source/Promise.js`: a bare state machine with guarded transitions and no
  callbacks. The executor's exceptions are not caught.

The model replaces `setTimeout` with an explicit first-in-first-out task queue,
so everything is sequential and deterministic.

## How the model is built

- A promise is known by its index in a table of promise records (`PromiseRef(id)`
  is a reference to promise `id`).
- The closures the source creates are data:
  - a caller's handler is a `UserFn`;
  - the `y => …` and `err => …` closures of `resolvePromise` are `OnY` and `OnErr`,
    which point at their `called` cell;
  - `race`'s and `all`'s closures are `ResolveOf`, `RejectOf` and `Collect`.
- Foreign code, meaning an executor or the `then` method of a foreign thenable,
  is a script of actions: call the first function, call the second, or throw.
- Each implementation has two parts:
  - a pure specification module (`InlineSpec` for `utils/Promise.js`,
    `DeferredSpec` for `utils/Promise1.js`), where every operation is a function
    from one runtime state (`World`) to the next and the properties are lemmas;
  - a class `Runtime` (`InlineRuntime`, `DeferredRuntime`) whose fields are the
    promise table, the task queue and the `called` cells. Its methods update
    those fields statement by statement, with loops where the source loops. Each
    method is proved to leave exactly the state the matching specification
    function describes, so the lemmas hold of the methods too.
- `source/Promise.js` is a real class (`BarePromise.MyPromise`) with the three
  fields it has.
- `Js.Resolution` is an independent reference definition of the Resolution
  Procedure. Both `resolvePromise` models are proved to carry out its decision.

Behaviours of the source that the model reproduces as written:

- **`Promise.all` never fulfils.** `processData` calls a `resolve` that is not
  in scope there: the executor's `resolve` parameter belongs to a different
  function. When the last input is recorded, the call throws a `ReferenceError`.
  That exception rejects only the internal promise derived by that input's
  `then`. Any input's rejection still rejects the `all` promise.
- **`race([])` and `all([])` never settle.**
- **Neither the constructor's `resolve` nor `Promise.resolve` unwraps a promise
  or a thenable.** Only a handler's return value goes through `resolvePromise`.
- **In `utils/Promise1.js`, two settle calls made while the promise is pending
  both schedule a task.** The later task overwrites the status. A promise can
  therefore go from fulfilled to rejected, and the callbacks of both registries
  are called.

## Model

| member | source | states |
|---|---|---|
| Js.Call | utils/Promise.js:63 | calling `value => value` returns its argument, `err => { throw err }` throws it; only identity and return-constant functions return |
| Js.FulfilHandler | utils/Promise.js:52 | a non-function `onFulfilled` becomes a function that returns every argument unchanged; a function is kept |
| Js.RejectHandler | utils/Promise.js:54 | a non-function `onRejected` becomes a function that throws every argument; a function is kept |
| Js.Resolution | utils/Promise.js:123-162 | reference decision of the Resolution Procedure: the promise itself is rejected with the cycle TypeError, a non-object or an object without a callable `then` fulfils with itself, a throwing `then` getter rejects, an adopted promise is never the target itself |
| Js.NestedThenablesUnwrap | utils/Promise.js:137-142 | however deeply a plain value is wrapped in thenables that resolve with the next, the decision is to fulfil with the innermost value |
| BarePromise.Resolved | source/Promise.js:11-16 | a pending snapshot becomes fulfilled with `v`, keeping the reason; any other snapshot is unchanged |
| BarePromise.RejectedWith | source/Promise.js:17-22 | a pending snapshot becomes rejected with `r`, keeping the value; any other snapshot is unchanged |
| BarePromise.Escaping | source/Promise.js:9 | an exception escapes exactly when the executor throws one, and it is the executor's first throw, since nothing of the executor runs after it |
| BarePromise.SettledIsFinal | source/Promise.js:11-22 | once the status is not pending, no sequence of `resolve`/`reject` calls changes any field |
| BarePromise.FirstCallDecides | source/Promise.js:5-22 | a new promise's fields are decided by the first call: fulfilled with its value and a null reason, or rejected with its reason and a null value; a first throw leaves it pending |
| BarePromise.MyPromise.Resolve | source/Promise.js:11-16 | the fields after `resolve` are the guarded transition `Resolved` of the fields before |
| BarePromise.MyPromise.Reject | source/Promise.js:17-22 | the fields after `reject` are the guarded transition `RejectedWith` of the fields before |
| BarePromise.MyPromise.New | source/Promise.js:5-10 | a fresh object whose fields are those the executor's calls leave from pending with null value and reason, and the exception the executor throws escapes uncaught |
| BarePromise.Sample | source/Promise.js:25-27 | the sample promise ends fulfilled with 2222222 and a null reason |
| InlineSpec.CallbackTasks | utils/Promise.js:28 | one handler task per registered wrapper, in registration order, for that wrapper's handler and promise2 |
| InlineSpec.Settle | utils/Promise.js:22-40 | settling changes no other promise, no `called` cell and no `all` state, and only appends to the queue |
| InlineSpec.SettleOnce | utils/Promise.js:22-40 | on a pending promise `resolve`/`reject` sets the state and the value or reason, keeps both registries and schedules each wrapper of the matching registry exactly once in order; on a settled promise it changes nothing, so a second settlement is a no-op |
| InlineSpec.Allocate | utils/Promise.js:12-20 | a new promise is appended pending, with undefined value and reason and empty registries |
| InlineSpec.RunExecutor | utils/Promise.js:42-46 | the executor's calls and a thrown exception touch only its own promise and only append tasks |
| InlineSpec.Construct | utils/Promise.js:10-47 | the constructor returns a new index and leaves every existing promise unchanged |
| InlineSpec.ExecutorFirstCallDecides | utils/Promise.js:12-46 | the new promise is decided by the executor's first call or exception (a throw rejects with the thrown value) and stays pending if there is none; later calls and an exception after settlement change nothing; nothing is scheduled |
| InlineSpec.ThenWith | utils/Promise.js:57-113 | `then` allocates a pending promise2, changes no promise but the parent and never the parent's state; a handler may refer to promise2 itself |
| InlineSpec.Then | utils/Promise.js:50-115 | `then` returns a new promise2 and only extends the runtime state |
| InlineSpec.Catch | utils/Promise.js:117-119 | `catch(fn)` is `then(null, fn)` |
| InlineSpec.ThenRegisters | utils/Promise.js:57-113 | on a settled parent exactly one task for the handler of its state and no registry change; on a pending parent no task and exactly one wrapper appended to each registry; promise2 is new and pending |
| InlineSpec.ResolvePromise | utils/Promise.js:123-162 | the Resolution Procedure keeps the state well-formed and only extends it; it never touches `all` state |
| InlineSpec.ResolveGuarded | utils/Promise.js:129-161 | with its `called` cell allocated, the procedure only extends the state |
| InlineSpec.RunScript | utils/Promise.js:137-158 | a foreign `then` run against the two guarded closures only extends the state |
| InlineSpec.ProcessData | utils/Promise.js:197-201 | `processData` stores the data at its index, counts the call, changes nothing else, and throws the ReferenceError of the unbound `resolve` exactly when the count reaches the number of inputs |
| InlineSpec.RecordAllStores | utils/Promise.js:197-201 | after calls for distinct indices, `arr` holds exactly the old entries plus those indices, each with its data, and the count grew by the number of calls |
| InlineSpec.Invoke | utils/Promise.js:137-148 | running any handler keeps the state well-formed and only extends it; its result mentions only existing promises; what the adoption closures do is stated by `InlineSpec.StepRunsOnY` and `InlineSpec.StepRunsOnErr` |
| InlineSpec.Step | utils/Promise.js:59-111 | running the first task removes it, keeps the rest of the queue in order, never moves a settled promise or clears a `called` cell |
| InlineSpec.CalledScriptIsInert | utils/Promise.js:139-155 | once `called` is set, nothing a foreign `then` does has any effect |
| InlineSpec.ResolvePromiseDecides | utils/Promise.js:123-162 | `resolvePromise` carries out exactly the reference decision `Resolution`: settle the target alone, or adopt by registering one closure pair with the other promise, or nothing |
| InlineSpec.ThenableDecides | utils/Promise.js:131-158 | for a foreign thenable that does something, the procedure carries out the reference decision |
| InlineSpec.ScriptDecides | utils/Promise.js:137-158 | with `called` clear, the first callback or exception of a foreign `then` decides and the rest is inert |
| InlineSpec.Deferred | utils/Promise.js:165-172 | `deferred` returns a fresh pending promise and schedules nothing |
| InlineSpec.PromiseResolve | utils/Promise.js:178-180 | `Promise.resolve(val)` is a new promise fulfilled with `val` itself, unwrapped or not |
| InlineSpec.PromiseReject | utils/Promise.js:182-184 | `Promise.reject(val)` is a new promise rejected with `val` |
| InlineSpec.AttachLoop | utils/Promise.js:188-190 | the loop calls `then` on each remaining input in order with the race promise's `resolve` and `reject` (for `all`, `processData` for its index and the `all` promise's `reject`): a pending input gets exactly that wrapper pair appended to its registries, a settled input schedules exactly one task for the wrapper of its state, in input order, and the k-th derived promise is the k-th new index, fresh and pending; the `called` cells and `all` state are unchanged |
| InlineSpec.Race | utils/Promise.js:186-192 | `race` returns a new pending promise, followed by one derived promise per input, and attaches its `resolve` and `reject` to every input in order as `AttachLoop` states |
| InlineSpec.All | utils/Promise.js:194-210 | `all` allocates its `arr`/`i` state empty for the number of inputs, returns a new pending promise and attaches `processData` for index k and its `reject` to the k-th input as `AttachLoop` states |
| InlineSpec.Run | utils/Promise.js:61-110 | over any number of tasks, a promise that no task or wrapper can settle keeps its state, and one only rejecting closures reach is never fulfilled |
| InlineSpec.StepRunsUserHandler | utils/Promise.js:61-69 | a handler task sends the handler's return value through the reference Resolution Procedure for promise2, and a thrown value rejects promise2 |
| InlineSpec.StepRunsRaceResolve | utils/Promise.js:189 | a task for `race`'s `resolve` fulfils the race promise with the input's value if it is still pending and otherwise leaves it alone, so the first settlement delivered wins |
| InlineSpec.StepRunsRaceReject | utils/Promise.js:186-210 | a task for the `reject` handed to an input by `race` or `all` rejects that promise with the input's reason if it is still pending and otherwise leaves it alone, so a rejection delivered first wins as well |
| InlineSpec.StepRunsCollect | utils/Promise.js:197-207 | a task for `processData(k, data)` stores the input's value at index `k` and counts the call, changes no other collector, and settles only its own derived promise: rejected with the unbound-`resolve` ReferenceError when the count reaches the number of inputs, fulfilled with undefined before |
| InlineSpec.RaceOfTwoPending | utils/Promise.js:186-192 | racing two fresh pending promises schedules nothing and leaves each with exactly one wrapper per registry, for the race promise's `resolve` and `reject`, with the derived promises in input order |
| InlineSpec.RaceFirstSettlementWins | utils/Promise.js:186-192 | with two deferred inputs raced, resolving the second with 42 and then the first with 1 leaves the race promise fulfilled with 42 however many tasks run |
| InlineSpec.StepRunsOnY | utils/Promise.js:137-142 | the `y => …` closure's task with `called` clear sets it, sends the value through the reference Resolution Procedure for the adopting promise and fulfils its own promise2 with undefined; with `called` set it only fulfils its own promise2 |
| InlineSpec.StepRunsOnErr | utils/Promise.js:143-148 | the `err => …` closure's task with `called` clear sets it, rejects the adopting promise with the reason and fulfils its own promise2 with undefined; with `called` set it only fulfils its own promise2 |
| InlineSpec.RaceOfNothingNeverSettles | utils/Promise.js:186-192 | `race([])` stays pending however many tasks run |
| InlineSpec.AllNeverFulfils | utils/Promise.js:194-210 | the `all` promise is never fulfilled, however many tasks run |
| InlineSpec.AllOfNothingNeverSettles | utils/Promise.js:194-210 | `all([])` stays pending however many tasks run |
| InlineSpec.ResolvedThenPassesValue | utils/Promise.js:52-69 | `Promise.resolve(v).then()` schedules one task, and running it carries out the reference Resolution Procedure's decision for `v` on promise2, which for a value that is not a thenable is to fulfil it with `v` |
| InlineSpec.HandlerReturningPromise2Rejects | utils/Promise.js:125-127 | a handler returning its own promise2 rejects promise2 with the chaining-cycle TypeError when its task runs |
| InlineSpec.ThrowingHandlerRejects | utils/Promise.js:61-69 | a handler that throws `e` rejects promise2 with `e` |
| InlineRuntime.Runtime.constructor | utils/Promise.js:8 | an empty runtime is well-formed |
| InlineRuntime.Runtime.CallAll | utils/Promise.js:28 | the `forEach` loop schedules the registry's wrappers in order and changes nothing else |
| InlineRuntime.Runtime.Settle | utils/Promise.js:22-40 | the closures leave exactly the state of `InlineSpec.Settle` |
| InlineRuntime.Runtime.ThenWith | utils/Promise.js:57-113 | `then`'s body leaves exactly the state and promise2 of `InlineSpec.ThenWith` |
| InlineRuntime.Runtime.Then | utils/Promise.js:50-115 | as `InlineSpec.Then` |
| InlineRuntime.Runtime.Catch | utils/Promise.js:117-119 | as `InlineSpec.Catch` |
| InlineRuntime.Runtime.New | utils/Promise.js:10-47 | the constructor and its executor loop leave exactly the state of `InlineSpec.Construct` |
| InlineRuntime.Runtime.ResolvePromise | utils/Promise.js:123-162 | as `InlineSpec.ResolvePromise` |
| InlineRuntime.Runtime.RunScript | utils/Promise.js:137-158 | the loop over a foreign `then`'s actions leaves exactly the state of `InlineSpec.RunScript` |
| InlineRuntime.Runtime.ProcessData | utils/Promise.js:197-201 | as `InlineSpec.ProcessData` |
| InlineRuntime.Runtime.Invoke | utils/Promise.js:137-148 | as `InlineSpec.Invoke`, whose closures `InlineSpec.StepRunsOnY` and `InlineSpec.StepRunsOnErr` describe |
| InlineRuntime.Runtime.Step | utils/Promise.js:61-69 | one timer callback leaves exactly the state of `InlineSpec.Step` |
| InlineRuntime.Runtime.Deferred | utils/Promise.js:165-172 | as `InlineSpec.Deferred` |
| InlineRuntime.Runtime.PromiseResolve | utils/Promise.js:178-180 | as `InlineSpec.PromiseResolve` |
| InlineRuntime.Runtime.PromiseReject | utils/Promise.js:182-184 | as `InlineSpec.PromiseReject` |
| InlineRuntime.Runtime.RaceExecutor | utils/Promise.js:187-191 | the `for` loop leaves exactly the state of `InlineSpec.AttachLoop` for the race promise |
| InlineRuntime.Runtime.Race | utils/Promise.js:186-192 | as `InlineSpec.Race` |
| InlineRuntime.Runtime.AllExecutor | utils/Promise.js:203-209 | the `for` loop leaves exactly the state of `InlineSpec.AttachLoop` for the `all` promise |
| InlineRuntime.Runtime.All | utils/Promise.js:194-210 | as `InlineSpec.All` |
| DeferredSpec.Request | utils/Promise1.js:17-38 | `resolve`/`reject` change no promise; on a pending promise they schedule exactly one settle task, on a settled one they change nothing at all |
| DeferredSpec.CallbackTasks | utils/Promise1.js:22-24 | one handler task per registered callback, in registration order |
| DeferredSpec.RunSettle | utils/Promise1.js:19-25 | the settle task sets the status and the value or reason whatever the status was, keeps the other field and both registries, schedules each callback of the matching registry once in order, and changes no other promise |
| DeferredSpec.Allocate | utils/Promise1.js:6-10 | a new promise is appended pending, with null value and reason and empty registries |
| DeferredSpec.RunExecutor | utils/Promise1.js:11-15 | the executor's calls and a thrown exception change no promise and only append tasks |
| DeferredSpec.Construct | utils/Promise1.js:5-16 | the new promise is left pending with null value and reason when the constructor returns, whatever the executor did |
| DeferredSpec.ExecutorTasks | utils/Promise1.js:11-15 | the settle tasks an executor requests are for its own promise, at most one per action |
| DeferredSpec.RunExecutorSchedules | utils/Promise1.js:11-15 | on a pending promise, every `resolve`/`reject` call and a thrown exception each schedule their settle task, in order, up to the exception |
| DeferredSpec.ConstructSchedulesEveryCall | utils/Promise1.js:5-16 | after `new myPromise(fn)` the promise is still pending and every settle call of `fn` is queued, not only the first |
| DeferredSpec.ThenWith | utils/Promise1.js:43-85 | `then` allocates a pending promise2, changes no promise but the parent and never the parent's status; a handler may refer to promise2 itself |
| DeferredSpec.Then | utils/Promise1.js:39-86 | `then` returns a new promise2 and only extends the runtime state |
| DeferredSpec.ThenRegisters | utils/Promise1.js:44-83 | on a settled parent exactly one task for the handler of its status; on a pending parent no task and exactly one callback appended to each registry; promise2 is new and pending |
| DeferredSpec.ResolvePromise | utils/Promise1.js:89-127 | the Resolution Procedure keeps the state well-formed and only extends it |
| DeferredSpec.ResolveGuarded | utils/Promise1.js:94-126 | with its `called` cell allocated, the procedure only extends the state |
| DeferredSpec.RunScript | utils/Promise1.js:102-123 | a foreign `then` run against the two guarded closures only extends the state |
| DeferredSpec.Invoke | utils/Promise1.js:102-113 | the procedure's closures return undefined; a caller's function returns or throws as `Call` says and changes nothing; what the closures do besides is stated by `DeferredSpec.StepRunsOnY` and `DeferredSpec.StepRunsOnErr` |
| DeferredSpec.Step | utils/Promise1.js:45-81 | running the first task removes it and keeps the rest of the queue in order; a settled promise never returns to pending and no `called` cell is cleared |
| DeferredSpec.Run | utils/Promise1.js:19-36 | over any number of tasks, a promise that has left pending never returns to it |
| DeferredSpec.Deferred | utils/Promise1.js:129-136 | `deferred` returns a fresh pending promise and schedules nothing |
| DeferredSpec.CalledScriptIsInert | utils/Promise1.js:104-120 | once `called` is set, nothing a foreign `then` does has any effect |
| DeferredSpec.ResolvePromiseDecides | utils/Promise1.js:89-127 | `resolvePromise` carries out the reference decision `Resolution`, by scheduling one settle task for a pending target (none for a settled one), or by adopting through one registered closure pair |
| DeferredSpec.ThenableDecides | utils/Promise1.js:96-123 | for a foreign thenable that does something, the procedure carries out the reference decision |
| DeferredSpec.ScriptDecides | utils/Promise1.js:102-123 | with `called` clear, the first callback or exception of a foreign `then` decides and the rest is inert |
| DeferredSpec.StepRunsUserHandler | utils/Promise1.js:45-52 | a handler task sends the handler's return value through the reference Resolution Procedure for promise2, and a thrown value requests promise2's rejection |
| DeferredSpec.StepRunsOnY | utils/Promise1.js:102-107 | the `y => …` closure's task with `called` clear sets it, sends the value through the reference Resolution Procedure for the adopting promise and requests the fulfilment of its own promise2 with undefined; with `called` set it only does the latter |
| DeferredSpec.StepRunsOnErr | utils/Promise1.js:108-113 | the `err => …` closure's task with `called` clear sets it, requests the rejection of the adopting promise with the reason and the fulfilment of its own promise2 with undefined; with `called` set it only does the latter |
| DeferredSpec.HandlerReturningPromise2Rejects | utils/Promise1.js:91-93 | a handler returning its own promise2 requests promise2's rejection with the chaining-cycle TypeError, and the next timer rejects it |
| DeferredSpec.LastSettleWins | utils/Promise1.js:17-38 | `resolve(v)` then `reject(e)` on a pending promise both schedule; after the two tasks it is rejected with `e`, still holds `v`, and the callbacks of both registries were called |
| DeferredRuntime.Runtime.constructor | utils/Promise1.js:4 | an empty runtime is well-formed |
| DeferredRuntime.Runtime.Resolve | utils/Promise1.js:17-27 | `resolve` leaves exactly the state of `DeferredSpec.Request` for the fulfilled side |
| DeferredRuntime.Runtime.Reject | utils/Promise1.js:28-38 | `reject` leaves exactly the state of `DeferredSpec.Request` for the rejected side |
| DeferredRuntime.Runtime.CallAll | utils/Promise1.js:22-24 | the `forEach` loop schedules the registry's callbacks in order and changes nothing else |
| DeferredRuntime.Runtime.RunSettle | utils/Promise1.js:19-25 | the timer callback leaves exactly the state of `DeferredSpec.RunSettle` |
| DeferredRuntime.Runtime.New | utils/Promise1.js:5-16 | the constructor and its executor loop leave exactly the state of `DeferredSpec.Construct` |
| DeferredRuntime.Runtime.ThenWith | utils/Promise1.js:43-85 | as `DeferredSpec.ThenWith` |
| DeferredRuntime.Runtime.Then | utils/Promise1.js:39-86 | as `DeferredSpec.Then` |
| DeferredRuntime.Runtime.ResolvePromise | utils/Promise1.js:89-127 | as `DeferredSpec.ResolvePromise` |
| DeferredRuntime.Runtime.RunScript | utils/Promise1.js:102-123 | the loop over a foreign `then`'s actions leaves exactly the state of `DeferredSpec.RunScript` |
| DeferredRuntime.Runtime.Invoke | utils/Promise1.js:102-113 | as `DeferredSpec.Invoke`, whose closures `DeferredSpec.StepRunsOnY` and `DeferredSpec.StepRunsOnErr` describe |
| DeferredRuntime.Runtime.RunHandlerTask | utils/Promise1.js:45-52 | the handler runs with the parent's value or reason as it is when the task runs; the result goes through `resolvePromise` and an exception to promise2's `reject`, as `DeferredSpec.Step` |
| DeferredRuntime.Runtime.Step | utils/Promise1.js:19-25 | one timer callback leaves exactly the state of `DeferredSpec.Step` |
| DeferredRuntime.Runtime.Deferred | utils/Promise1.js:129-136 | as `DeferredSpec.Deferred` |

## Left out

- Real timing: `setTimeout` delays and the host event loop are not modelled. Each timer callback is a task in a first-in-first-out queue, and `Step` runs one. `InlineSpec.Run` and `DeferredSpec.Run` run a bounded number of them.
- Foreign thenables: a foreign `then` acts synchronously, as a finite script. A foreign `then` that keeps its callbacks and calls them later is not modelled.
- Caller handlers: a handler is one of identity, rethrow, return a value, or throw a value. A handler that itself calls promise operations is not modelled.
- `race`/`all` inputs: only promises of the same implementation are modelled. A plain value in the input list (whose missing `then` would throw) is not.
- JavaScript values: a value is one of undefined, null, a boolean, an integer, a string, an object by identity, a promise reference, a thenable, an object whose `then` getter throws, or an error.
  - Numbers are integers; floating point is not modelled.
  - `Error` objects are reduced to their constructor name and message.
  - `this` binding and `bind` are implicit in the promise index a closure carries.
- Promise identity: a promise is an index into a table, not a heap object. The class `Runtime` owns the table.
- `arr` of `Promise.all` is a map from index to data. Array holes and `arr.length` are not modelled, since `arr` is never read.
- `Promise.defer` is the same function as `Promise.deferred` and has no separate member.
- `InlineSpec.ThrowingHandlerRejects`: stated only for a thrown primitive or plain object. A thrown thenable or promise rejects promise2 just the same, but the lemma does not cover it.
- The Promises/A+ compliance test suite that drives `deferred` is not part of this model.
