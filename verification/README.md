# PromiseA in Dafny

A model of `promise.js`, a small Promises/A+ implementation (`PromiseA`), as
a transition system over an explicit world, with proofs of its settlement,
scheduling and resolution behaviour.

The world (`Worlds.World`) holds:

- every promise instance: its state, value, reason and its two callback lists
  (promise.js:9-21);
- the `called` flags that `resolvePromise` creates, one per call that reaches a
  callable `then` (promise.js:195);
- a FIFO queue of tasks, which stands in for `setTimeout`.

Every operation is a pure function from a world to a new world:

- the constructor's internal `resolve`/`reject` (`Worlds.Settle`);
- the constructor with an executor (`PromiseA.Construct`);
- `then`/`catch` (`PromiseA.Then`, `PromiseA.Catch`);
- the task `then` schedules (`PromiseA.RunTask`) and one turn of the event
  loop (`PromiseA.RunNext`);
- the resolution procedure (`PromiseA.ResolvePromise`) with the `then` call it
  makes on a thenable (`PromiseA.CallThen`, `PromiseA.RunScript`);
- the statics `resolve`, `reject` and `race`.

Every operation keeps the invariant `Worlds.Inv`:

- each callback-list entry belongs to its promise and to the matching outcome;
- every task in the queue reads a promise that has already settled that way;
- every promise the world mentions exists.

Every operation that runs no queued task relates its input and output world
by `Worlds.Extends`:

- no settled promise changes;
- a set `called` flag stays set;
- callback lists only grow;
- the queue only grows at its back.

The event-loop turns differ only in the queue. `PromiseA.RunNext` removes the
front task and then extends the rest of the world in the same way.
`EventLoop.RunTasks` keeps every settled promise, every set flag and every
waiting task's order, while the tasks it has run leave the queue.

JavaScript values are `Values.Value`. The constructors say how `typeof` and a
read of `.then` treat each value:

- not an object;
- an object without a callable `then`;
- an object whose `then` getter throws;
- a foreign thenable, whose `then` runs a finite script of `CallFulfil` /
  `CallReject` / `Throw` steps;
- a `PromiseA` instance.

Handlers (`Worlds.Handler`) are data:

- the two defaults;
- an application handler reduced to how it completes;
- a promise's own `resolve`/`reject`;
- the two callbacks of `resolvePromise`, which share a `called` flag.

### Where the code departs from Promises/A+ (the model follows the code)

- The callback lists are never cleared on settlement (promise.js:28, 37).
  They run at most once only because the state leaves pending.
- The reject callback of `resolvePromise` reads the unbound name `error`
  (promise.js:210), so calling it throws a `ReferenceError` after setting
  `called`.
  - Called synchronously by a thenable, that throw is caught at promise.js:212-214
    and rejects `promise2` with the `ReferenceError`.
  - When a `PromiseA` is adopted and turns out rejected, the throw lands in the
    inner `then` task and rejects only that inner promise. `promise2` is still
    pending after that task, with the flag set, so neither callback can settle it
    any more (`ResolutionLemmas.AdoptRejectedStaysPending`).
- promise.js:212-214 sets `called` without checking it. A thenable that calls
  back and then throws still rejects `promise2` while `promise2` is pending
  (`ResolutionLemmas.ThrowAfterAdoptionRejects`).
- `PromiseA.resolve` and the constructor's `resolve` store a thenable as a
  plain value; they do not unwrap it (`StaticsLemmas.ResolveKeepsThenable`).
- The `if (called) return` at promise.js:221 never fires. That catch is
  reached only when the `then` getter throws, and that happens before any
  callback exists. The model rejects directly there.

## Model

| member | source | states |
|---|---|---|
| Worlds.NewPromise | promise.js:6-21 | a new promise is pending with no value, no reason and empty callback lists, under the next unused id; nothing else changes |
| Worlds.Settle | promise.js:23-39 | a pending promise takes the first payload and the matching state, and exactly its matching callback list is appended to the queue in registration order; a settled promise makes the call a no-op; no other promise changes; lists are not cleared |
| Worlds.Resolve | promise.js:23-30 | a pending promise becomes fulfilled with the value and its fulfilment list is enqueued; a settled one is untouched |
| Worlds.Reject | promise.js:32-39 | a pending promise becomes rejected with the reason and its rejection list is enqueued; a settled one is untouched |
| Worlds.NewGuard | promise.js:195 | a new `called` flag starts unset, and the world's invariant and every other flag are kept |
| Worlds.SetGuard | promise.js:203-204 | setting `called` changes no promise and no task, and keeps every flag already set |
| Worlds.Enqueue | promise.js:60-69 | `setTimeout(…, 0)` puts the task at the back of the queue, behind every waiting task, and changes no promise and no flag |
| Worlds.Dequeue | promise.js:60-69 | the event loop takes the front task, which is ready to run (its source has settled that way), and the rest of the queue keeps its order |
| PromiseA.Then | promise.js:54-113 | returns a fresh promise distinct from the receiver and changes no promise's state, value or reason; a settled receiver gets exactly one task queued, for its own outcome, and a pending one gets exactly one entry appended to each list; missing handlers become the pass-through defaults |
| PromiseA.Catch | promise.js:119-121 | `onRejected` is registered for the receiver's rejection exactly as `then` would register it: a rejected receiver gets its task queued, a pending one gets an entry on its rejection list; the fulfilment side gets the pass-through default; the returned id is a new pending promise, the receiver keeps its state, value and reason, and no other promise and no flag changes |
| PromiseA.InvokeHandler | promise.js:201-211 | the defaults return the value or throw the reason; a promise's own `resolve`/`reject` settle it and return `undefined`; a guarded callback whose flag is set does nothing; with the flag unset it sets it, and the fulfil callback resolves its target with the argument while the reject callback throws a `ReferenceError`; no call undoes a settlement or clears a flag |
| PromiseA.ResolvePromise | promise.js:189-229 | the resolution procedure keeps the invariant and only extends the world: no settled promise changes and no set flag is cleared, through any depth of thenable recursion |
| PromiseA.CallThen | promise.js:198-201 | calling `x.then` keeps the invariant and only extends the world, whatever `x` is |
| PromiseA.RunScript | promise.js:200-215 | a foreign `then` that runs a script of callback calls and throws keeps the invariant and only extends the world |
| PromiseA.RunTask | promise.js:60-69 | running a scheduled handler task keeps the invariant and only extends the world |
| PromiseA.RunNext | promise.js:60-69 | one turn of the event loop runs the oldest task; every task that was waiting behind it keeps its place, ahead of anything newly queued |
| PromiseA.Construct | promise.js:6-48 | the new promise is pending for an empty executor, otherwise settled as the executor's first step says: fulfilled by `resolve(v)`, rejected by `reject(r)` or by a throw; every existing promise, every flag and the queue are unchanged |
| PromiseA.SettledResolversNoop | promise.js:23-39 | once a promise is settled, any number of further calls to its own `resolve`/`reject` leave the world unchanged |
| PromiseA.ExecutorFirstStep | promise.js:42-46 | the executor's first step settles the promise, or throws with the promise still pending; no later step changes anything |
| PromiseA.StaticResolve | promise.js:127-134 | a `PromiseA` argument is returned as it is with the world unchanged; any other value becomes the value of a new, already fulfilled promise, and nothing else in the world changes |
| PromiseA.StaticReject | promise.js:140-144 | returns a new promise already rejected with the given reason; every existing promise, every flag and the queue are unchanged |
| PromiseA.Subscribe | promise.js:173-175 | when every input is a `PromiseA`, subscribing throws nothing and settles no promise |
| SubscribeLemmas.SubscribeRegistersEach | promise.js:173-175 | over inputs that are all `PromiseA` instances, each input gets exactly one `then(resolve, reject)` call, with its own fresh `promise2` numbered in input order: a queued task for a settled input, an entry on each list for a pending one; every queued task comes from one of these calls |
| PromiseA.Race | promise.js:169-177 | returns a new promise, still pending after subscribing when every input is a `PromiseA` |
| EventLoop.RunTasks | promise.js:60-69 | after `k` turns the tasks that were queued behind the first `k` are at the front in the same order; no settled promise changes and no set flag is cleared |
| EventLoop.FifoOrder | promise.js:60-69 | the task at position `k` of the queue is the one at the front after `k` turns |
| SettlementLemmas.FirstSettleWins | promise.js:23-39 | after the first `resolve` or `reject`, a second one of either kind changes nothing |
| SettlementLemmas.SettleRunsMatchingList | promise.js:23-39 | settling enqueues only tasks registered on that promise for that outcome, as many as its matching list holds |
| SettlementLemmas.RegistrationOrder | promise.js:84-110 | two `then` calls on a pending promise followed by `resolve` enqueue their fulfilment tasks in registration order, after earlier entries |
| SettlementLemmas.ConstructFirstStepDecides | promise.js:42-46 | an executor `[first] + rest` gives the same world and promise as `[first]` alone |
| ThenLemmas.DefaultPassesValue | promise.js:55-69 | without `onFulfilled`, the task hands the source's value unchanged to `resolvePromise` |
| ThenLemmas.DefaultRethrowsReason | promise.js:56-82 | without `onRejected`, `promise2` rejects with the source's reason |
| ThenLemmas.HandlerThrowRejects | promise.js:62-68 | a handler that throws rejects `promise2` with the thrown value and does not enter `resolvePromise` |
| ThenLemmas.HandlerReturnResolves | promise.js:62-68 | a handler that returns `x` leads to `resolvePromise(promise2, x)` |
| ThenLemmas.HandlerReturnsOwnPromise | promise.js:191-193 | a task whose handler returns the task's own `promise2` rejects that promise with a `TypeError` instead of adopting it |
| ThenLemmas.ResolvedThenScenario | promise.js:54-113 | `then` on a promise the executor resolved synchronously leaves `promise2` pending; the one queued task fulfils it with the handler's result |
| ThenLemmas.ThrowThenCatchScenario | promise.js:54-121 | a throwing handler rejects `promise2` with the thrown value, and a `catch` on `promise2` queues a task that reads that reason |
| ResolutionLemmas.SelfResolutionRejects | promise.js:191-193 | resolving a promise with itself rejects it with a `TypeError` |
| ResolutionLemmas.NonThenableFulfils | promise.js:196-228 | a value that is not an object, or whose `then` is not a function, fulfils `promise2` with the value itself |
| ResolutionLemmas.ThenGetterThrowRejects | promise.js:197-225 | a `then` getter that throws rejects `promise2` with the thrown value |
| ResolutionLemmas.GuardFirstCallWins | promise.js:201-211 | after either callback has run once, the flag is set and every later call of either callback returns `undefined` and changes nothing |
| ResolutionLemmas.GuardedCallbacksInert | promise.js:201-211 | with the flag set, a thenable's script can call the callbacks any number of times without changing the world |
| ResolutionLemmas.ThenableFirstFulfilWins | promise.js:199-211 | a thenable that first calls back with a plain value fulfils `promise2` with it, whatever the rest of its script does |
| ResolutionLemmas.ThenableFirstRejectWins | promise.js:206-214 | a thenable that first calls the reject callback rejects `promise2` with a `ReferenceError`, not with the callback's argument, whatever the rest of its script does |
| ResolutionLemmas.ThenableFirstFulfilAdopts | promise.js:201-205 | a thenable that first calls the fulfil callback with any value `v`, and never throws, has the same outcome as resolving `promise2` with `v` under the now-set flag |
| ResolutionLemmas.ThenableWithoutCallback | promise.js:199-214 | a thenable whose `then` throws before calling back rejects `promise2` with what it threw; one that returns without calling back leaves the world as it was apart from one new unset flag, so `promise2` is still pending |
| ResolutionLemmas.ThrowAfterAdoptionRejects | promise.js:212-214 | a thenable that calls back with any other `PromiseA`, pending or settled, and then throws rejects `promise2` with the thrown value, because the flag is not checked there |
| ResolutionLemmas.AdoptionCallsThen | promise.js:199-201 | resolving with a `PromiseA` `q` is `q.then` with the two guarded callbacks on a fresh flag |
| ResolutionLemmas.AdoptionIsDeferred | promise.js:199-201 | resolving with another `PromiseA` leaves `promise2` untouched and subscribes exactly once, by queue task or callback-list entry |
| ResolutionLemmas.AdoptFulfilled | promise.js:199-205 | with an empty queue, adopting a fulfilled `PromiseA` whose value is not an object queues one task, and running it fulfils `promise2` with that value |
| ResolutionLemmas.AdoptRejectedStaysPending | promise.js:206-211 | adopting a rejected `PromiseA` leaves `promise2` pending after the scheduled task runs, with the flag set |
| StaticsLemmas.ResolveDoesNotRewrap | promise.js:127-134 | `resolve(resolve(v))` returns the same promise as `resolve(v)` and allocates nothing more |
| StaticsLemmas.ResolveKeepsThenable | promise.js:127-134 | `resolve` of a foreign thenable fulfils with the thenable itself and calls nothing |
| StaticsLemmas.RaceSubscribes | promise.js:169-177 | racing a pending and a fulfilled promise appends `resolve`/`reject` of the race promise to the pending input's two lists and queues one task, the fulfilled input's `resolve`, for the fulfilled one |
| StaticsLemmas.RaceFirstSettlementWins | promise.js:169-177 | racing a pending and a fulfilled input: the race stays pending until the one queued task runs, then takes the fulfilled input's value; if the other input is then rejected, the race promise still holds that value after every queued task has run, its own `reject` task included |
| StaticsLemmas.RaceOnNonThenableRejects | promise.js:169-177 | a first input whose `then` is not a function rejects the race at once with a `TypeError` |

## Left out

- `PromiseA.all` (promise.js:149-164) is not modelled. As written it has no contract to check:
  - it calls the unbound `resolve` and `reject`;
  - it returns `undefined`;
  - it compares an index that is never supplied against the input length.
- `setTimeout` timing and delays are not modelled. Only the FIFO order of the tasks the core enqueues is modelled, not interleaving with unrelated timers.
- Handler bodies are abstracted. An application handler completes the same way whatever its argument. A `then` argument that is not a function is `NotCallable`.
- A handler's completion is fixed when it is passed to `then`, and a handler has no effect on the world. An application handler, an executor and a thenable script can mention only promises that exist when they are passed in. So a handler that returns its own `promise2` (`p2 = p.then(() => p2)`) or a promise it creates itself is not modelled, and no `then` call reaches the chaining-cycle check of promise.js:191-193. `ResolutionLemmas.SelfResolutionRejects` and `ThenLemmas.HandlerReturnsOwnPromise` state what that check does for such a value when it does arrive.
- Executors are abstracted. An executor body is a script of calls to its `resolve` and `reject` plus an optional throw. Any other code it runs is outside the model.
- Foreign thenables call their callbacks synchronously, from a finite script. A thenable that stores the callbacks and calls them later is not modelled. Neither is an unbounded chain of distinct thenables, nor real stack exhaustion.
- A foreign thenable's script does not catch a throw from a callback. The throw propagates out of its `then`.
- Memory and garbage collection are not modelled. Error objects are represented by their kind only.
- PromiseA.ResolvePromise: its own contract states only the invariant and world extension. The per-case behaviour is stated by the `ResolutionLemmas` lemmas. One case is proved only in part: a thenable that first calls the fulfil callback with an object and throws later. It is covered for a non-object first value and for any `PromiseA` other than `promise2` followed by a throw, whatever that promise's state.
- PromiseA.Race: its own contract states only that the result is pending for `PromiseA` inputs. Every input's registration is proved for any list in `SubscribeLemmas.SubscribeRegistersEach`. First-settlement-wins as a whole run is proved only for a pending and a fulfilled input, in `StaticsLemmas.RaceFirstSettlementWins`.
- PromiseA.Subscribe: its own contract states only that nothing throws and nothing settles. The one-registration-per-input property is the lemma `SubscribeLemmas.SubscribeRegistersEach`.
