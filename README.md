# promise.js in Dafny

A model of `promise.js`, a small Promises/A+ style library, and proofs about it.
The library has three parts, and the model keeps each one in the source's own form.

- **The settlement state machine.** `class Promise` holds `status`, `value`, `reason` and the two callback queues.
  - The constructor runs the executor with the `resolve` and `reject` closures.
  - `then` either schedules a task or pushes one continuation onto each queue.
  - The static `resolve` and `reject` build settled promises.
- **The resolution procedure.** `resolvePromise` has a cycle check, an "object or function" test and one read of `x.then`. For a foreign thenable it makes a `called` latch shared by the success callback, the failure callback and the catch block.
- **The aggregate combinator.** `static all` keeps a result array, a counter `orderIndex` and the callback `processResultByKey`. The callback stores at an index and resolves when the counter reaches the input length.

Files:

- `values.dfy` (module `Values`) holds the JavaScript values the library looks at, and the pure rules that decide outcomes:
  - `Resolution`, the settlement `resolvePromise` makes before it returns;
  - `ExecutorOutcome`, the first executor call that settles;
  - `Store`, a JavaScript sparse-array write.
  - The lemmas about these rules are here too.
- `promises.dfy` (module `Promises`) holds the classes `Promise`, `Aggregate`, `Latch` and `Runtime`, plus the resolution procedure as methods.
  - `Runtime.tasks` is the `setTimeout(…, 0)` queue, oldest first.
  - `Runtime.Next` takes the oldest task, and `RunJob` runs it.
  - A closure of the source is represented by data. A `Handler` names the function a task calls. A `Job` is the task that `then` creates: call the handler on the source's value or reason, then settle the derived promise.
- `scenarios.dfy` (module `Scenarios`) holds short programs, each run on a fresh runtime. Each one states what a caller observes afterwards.

Each state-changing method is proved against a pure rule. For example, `ResolvePromise` settles `promise2` exactly as `FirstWins(old state, Resolution(x, promise2))`. The properties of `Resolution`, `ExecutorOutcome` and `Store` are then proved as lemmas.

### Behaviour of the source that the model keeps as written

Where the code and the library's intended design differ, the model follows the code.

- **The cycle check does not return** (promise.js:12-14).
  - A promise resolved with itself is rejected with a TypeError. Execution then goes on, and `then` is called on the rejected promise anyway.
  - `ResolvePromise` states that a task for that promise was scheduled and that its handler is the latch's failure callback.
  - `Scenarios.SelfResolution` shows the whole sequence.
  - The error is a TypeError; no separate cycle-error type exists.
- **The constructor's `resolve` adopts only promises of the library** (promise.js:72-75).
  - It does so before it checks `status`. A `resolve(promise)` on an already settled promise still subscribes to the argument, though the settlement no longer changes.
  - A foreign thenable passed to `resolve` becomes the fulfilment value as it is (`Scenarios.ForeignThenableKeptAsValue`).
- **A plain element in `all` throws** (promise.js:217).
  - The loop passes the unbound name `value`, so it throws a ReferenceError.
  - The executor's catch block rejects the aggregate, and the loop stops (`Promise.All`, `Scenarios.AllOfPlainValue`).
  - An element whose `then` getter throws rejects with the getter's error instead.
- **`all([])` never settles** (promise.js:200-202).
  - `resolve` is only called from `processResultByKey`, so with no elements nothing is ever scheduled and the promise stays pending.
  - See `Promise.All` and `Scenarios.AllOfNothing`.
- **The queues are never cleared** (promise.js:80, 87).
  - `Reject` and `Resolve` leave both queues as they were.
  - Since a settled promise never changes again, nothing in the queues runs a second time.
- **`then()` does not pass a foreign thenable through** (promise.js:72-81, 100, 142).
  - `resolve(thenable)` stores the thenable as the fulfilment value, and the default handler `v => v` returns it. The derived promise then goes through `resolvePromise`, which follows the thenable.
  - So `new Promise(res => res(thenable)).then()` is fulfilled with what the thenable calls back with (`Scenarios.ThenableValueIsFollowed`). Only a plain value passes through unchanged (`Scenarios.FulfilledPassesThrough`).
- **`all` has no latch for foreign thenables** (promise.js:213-215).
  - Every success call of a foreign thenable element stores a value and increments the counter.
  - `processResultByKey` resolves only when the counter equals the length exactly.

## Model

| member | source | states |
|---|---|---|
| Values.IsObjectLike | promise.js:18 | The "object or function" test holds exactly for values other than undefined and the primitives (null among them). A value that fails it is always handed to `resolve` as it is. |
| Values.Innermost | promise.js:28-34 | Following foreign thenables whose first call is a success ends at a value whose first call is not a success. A value that does not succeed first is its own end, and the end refers to no promise the start does not. |
| Values.Resolution | promise.js:8-56 | The settlement `resolvePromise` makes before it returns. It never fulfils with a promise or with a thenable whose `then` is a function. It settles nothing exactly when the chain of first successes ends at another promise of the library or at a thenable that never calls back. A chain that ends at the target itself rejects with a TypeError. |
| Values.ResolutionFollowsInnermost | promise.js:28-34 | Resolving a value settles the target exactly as resolving the end of its chain of first successes does. |
| Values.NestedThenablesFlatten | promise.js:28-34 | The success callback resolves its argument again. So a value wrapped in any number of thenables, each succeeding with the next, settles the target exactly as the innermost value does. |
| Values.PlainIffFulfilledAsIs | promise.js:18-55 | `resolve(x)` is reached with `x` unchanged exactly when `x` is not an object or function, or its `then` is not a function. This holds in both directions. |
| Values.ExecutorOutcome | promise.js:70-96 | The constructor never fulfils its promise with a promise of the library: `resolve` adopts such a value instead of storing it. |
| Values.ExecutorOutcomeFirstDecides | promise.js:70-96 | The promise ends as the first executor call that does not hand `resolve` a promise of the library decides, and every call before that one adopts. The promise stays pending exactly when every call adopts. |
| Values.FirstRaise | promise.js:91-96 | The executor runs up to its first throw: none of the calls counted throws, and the call after them, if any, does. |
| Values.ExecutorOutcomeSnoc | promise.js:77-89 | One more `resolve`, `reject` or throw from the executor changes the promise only if nothing before it settled it. |
| Values.ExecutorOutcomeDecided | promise.js:91-96 | Once a prefix of the executor's calls has settled the promise, nothing the executor does afterwards changes it. |
| Values.Store | promise.js:199 | `resultArr[index] = value` on a JavaScript array. The array grows to cover the index, the index holds the value, and every other position keeps its element or reads undefined. |
| Values.StoreInOrderContents | promise.js:198-204 | After any sequence of writes, a position holds its own element's value if it was written and undefined otherwise. The array never outgrows the input. |
| Values.ResultsLandAtTheirIndex | promise.js:195-215 | Whatever order the elements settle in, once every position has been written, the result array equals the input values in input order. |
| Promises.HandlerOr | promise.js:100-101 | `then` uses the default handler exactly when the argument is missing or is that default itself; any other handler it uses is the argument. |
| Promises.ElementThrow | promise.js:209-217 | The throw of the loop of `all` on an element that is not a thenable is a ReferenceError (the unbound name `value`) for every element that is not an object. A throwing getter's error refers to no promise the element does not. |
| Promises.AllProgressEnd | promise.js:206-219 | When the loop of `all` ends after promises only, every element has its callback pair waiting and nothing has settled. When it ends at the first plain element, that element's throw is pending for the catch block. |
| Promises.AdoptionsSnoc | promise.js:72-75 | A `resolve(promise)` call of the executor whose subscription is in place extends the subscriptions of the calls before it by one. |
| Promises.AdoptionsGrow | promise.js:72-75 | The subscriptions made by earlier `resolve(promise)` calls survive a step in which the adopted promises keep their state, their queues only grow, and tasks are only added. |
| Promises.ElementsListening | promise.js:206-215 | The callback pairs of the elements of `all` already visited survive a step in which those elements keep their state, their queues only grow, and tasks are only added. |
| Promises.Runtime.Schedule | promise.js:114-121 | `setTimeout(fn, 0)` appends the task after everything already queued. |
| Promises.Runtime.RunCallbacks | promise.js:80 | Running a callback list schedules every queued continuation's task, once each, in push order. |
| Promises.Runtime.Next | promise.js:114-121 | The event loop takes the oldest queued task and removes it; an empty queue yields nothing. |
| Promises.RunJob | promise.js:140-158 | A task calls its handler on the source's value or reason. A default or user handler settles the derived promise by resolving what it returned, or by rejecting with what it threw. No other promise's settlement changes, no latch or aggregate changes, and the tasks and queues changed are exactly those of that resolution. The library's closures (resolve, reject, latch callbacks, `processResultByKey`) have the effects their rows below state, each with the same frame. A settled promise never changes. |
| Promises.RunHandlerJob | promise.js:114-121 | A default or user handler comes to its outcome: `v => v` returns its input, the default failure handler throws it, and a user function comes to its oracle. Only the derived promise is settled from that outcome, with exactly the tasks that settlement schedules. Only the adopted promise's queues change, and no latch or aggregate changes. |
| Promises.RunConstructorJob | promise.js:70-89 | A task running a constructor's `resolve` or `reject` settles that promise with the input if it was pending. It fulfils the derived promise with undefined and schedules exactly the callbacks of the two settlements, in that order. No other promise's state or queues change, and no latch or aggregate changes. |
| Promises.CallClosure | promise.js:70-89 | The `resolve` or `reject` closure given anything but a promise of the library settles its promise with that value if it was pending, schedules exactly the callbacks of that settlement, and changes nothing else. |
| Promises.RunAdoptingJob | promise.js:72-75 | A task running a constructor's `resolve` on a promise `q` of the library settles nothing. It pushes the closure pair onto `q` and schedules exactly what that `then` schedules. The `then` result is fresh and pending, and the derived promise adopts it: a fresh, unset latch's callback pair is the only thing on its queues. No other promise's queues change, and no latch or aggregate changes. |
| Promises.ResolveAdopting | promise.js:72-75 | The `resolve` closure given a promise `q` of the library pushes its closure pair onto `q` and returns the fresh, pending `then` result. It schedules exactly what that `then` schedules, and changes no settlement and no other queue. |
| Promises.AdoptPending | promise.js:18-34 | `resolvePromise` on a pending promise of the library with empty queues puts exactly one pair sharing a fresh, unset latch on its queues. It schedules nothing and changes nothing else. |
| Promises.RunSuccessJob | promise.js:28-34 | A task running the success callback of `resolvePromise` sets the latch. Only the first call of the pair resolves its promise with the value and schedules that promise's callbacks; a later call leaves it alone. A first call that reaches a promise of the library subscribes a fresh latch's pair to it and schedules what that `then` schedules. The derived promise is then fulfilled with undefined. Only that adopted promise's queues change, and no other latch or aggregate changes. |
| Promises.RunFailureJob | promise.js:35-41 | A task running the failure callback of `resolvePromise` sets the latch. Only the first call of the pair rejects its promise and schedules that promise's callbacks, and the derived promise is then fulfilled with undefined. No queue and no other latch or aggregate changes. |
| Promises.RunCollectJob | promise.js:198-204 | A task running the collector of `all` stores the value at its index and counts it. The aggregate's promise is fulfilled with the array exactly when the count reaches the input length, and the derived promise is fulfilled with undefined. Exactly the callbacks of those settlements are scheduled. No queue, other promise, latch or other aggregate changes. |
| Promises.ResolveUndefined | promise.js:52-55 | A closure's undefined return resolves the derived promise: fulfilled with undefined if it was pending, its queues kept, and exactly its fulfilment callbacks scheduled. |
| Promises.SettleDerived | promise.js:116-120 | A returned `x` goes through `resolvePromise`, and a thrown error rejects `promise2`; only the first settlement counts, no other promise's settlement changes, and the tasks added are exactly those of that settlement. |
| Promises.Latch.constructor | promise.js:21 | A fresh `called` latch starts unset. |
| Promises.Aggregate.constructor | promise.js:195-196 | `all` starts with an empty result array and a zero counter. |
| Promises.Aggregate.ProcessResultByKey | promise.js:198-204 | The value is stored at its index and the counter goes up by one. The aggregate is fulfilled with the array exactly when the counter equals the input length, and is otherwise unchanged. |
| Promises.Aggregate.Walk | promise.js:206-219 | The loop of `all` subscribes to each promise element in turn and stops at the first throw. `AllProgress` records what has been established. The elements keep their state, and their queues only grow. Unless a foreign thenable was called, the tasks added are exactly one for each element already settled, in input order (`ElementJobs`). Each promise element's queues are their contents before the loop followed by exactly the pairs pushed on it, one for each of its occurrences met while it was pending, in input order (`ElementQueues`). |
| Promises.Aggregate.Visit | promise.js:207-218 | A promise element gets exactly the pair (store at its index, reject the aggregate), and nothing else changes. A plain element, or one whose `then` getter throws, throws and changes nothing. |
| Promises.Aggregate.CallForeignThenInAll | promise.js:213-215 | Calling a foreign thenable's `then` inside `all` changes no promise other than the aggregate. |
| Promises.Promise.constructor | promise.js:60-69 | A new promise is pending, with undefined value and reason and two empty queues. |
| Promises.Promise.Reject | promise.js:83-89 | Only a pending promise changes: it becomes rejected with the reason, and exactly its rejection queue is scheduled, in push order. A settled promise, the fulfilment queue and both queues' contents stay as they are. |
| Promises.Promise.Resolve | promise.js:70-82 | A promise of the library is adopted by `then(resolve, reject)` whatever this promise's state; the new promise is returned and no settlement changes. Any other value fulfils a pending promise as it is and schedules exactly its fulfilment queue. |
| Promises.Promise.Then | promise.js:98-163 | A missing handler becomes `v => v` or the rethrow. The result is a fresh pending promise, and no handler runs on the spot. A pending receiver gets one continuation on each queue and nothing is scheduled. A settled receiver keeps its queues, and exactly one task (for its state) is appended. |
| Promises.Promise.RunExecutorCall | promise.js:92 | One executor call: `resolve` or `reject` settles as the first-wins rule says, and a throw is handed back unchanged for the catch block. A `resolve(promise)` subscribes this promise's closures to that promise, and no other promise's settlement changes. |
| Promises.Promise.RunExecutor | promise.js:91-96 | The executor's calls run in order up to the first throw. The state then is the first settlement among the calls before it, the queues stay empty, and every `resolve(promise)` among them has subscribed this promise's closures. Only the adopted promises change, only by gaining callbacks. The tasks added are exactly those of the adopting calls' `then`s, in call order (`AdoptionTasks`), so without adoption nothing is scheduled. Each adopted promise's queues are their snapshot followed by exactly the pairs pushed on it, one for each call that handed it over while it was pending (`AdopteeQueues`). |
| Promises.AdoptingStep | promise.js:72-75 | A `resolve(promise)` call of the executor leaves the state as the calls so far decide and adds its subscription to those before it. Its one `then` kept the adopted promise's state, pushed the pair if it was pending, and scheduled exactly that `then`'s task if it was settled. No other adopted promise's queues change. |
| Promises.PlainStep | promise.js:76-92 | Any other executor call settles as the calls so far decide, schedules nothing, keeps the earlier subscriptions and every adopted promise's state and queues, and hands a throw back. |
| Promises.ExecutorStep | promise.js:91-92 | One executor call, given the exact account so far, keeps it exact: the tasks are the earlier ones followed by this call's `then` task if it adopts, and the adopted promises' queues are their snapshots followed by the pushes so far. A call that does not adopt schedules nothing. |
| Promises.AdoptionStepExact | promise.js:72-92 | A call that adopted `q` through one `then` (leaving the other adopted promises alone) extends the exact account by its own task and push. A call that adopted nothing, and changed no task or adopted queue, keeps the account. |
| Promises.AdopteeQueuesSnoc | promise.js:72-75 | One more `then` on the adopted promise `q`, with the other adopted promises left alone, keeps every adopted promise's queues equal to its snapshot followed by the pushes so far. |
| Promises.AdopteesGained | promise.js:72-75 | Queues that are their snapshots from the start followed by the pushes are the start's queues followed by those pushes. |
| Promises.AdoptionTasksKept | promise.js:72-75 | The tasks the adopting calls owe depend only on the adopted promises' states, so a step that keeps those states keeps them. |
| Promises.NoAdoptionTasks | promise.js:76-92 | Calls none of which hands `resolve` a promise of the library schedule nothing. |
| Promises.SingleAdoption | promise.js:168-173 | For an executor whose one call is `resolve(q)` with a promise `q` of the library, the exact account (tasks and `q`'s queues, `q`'s state kept) amounts to exactly one `then` on `q`: the pair is pushed if `q` is pending, and that `then`'s task is scheduled if `q` is settled. |
| Promises.Promise.CatchThrow | promise.js:93-96 | The catch block's `reject(e)` leaves the promise as the whole executor decides and schedules nothing. It keeps every subscription made before the throw, and the exact tasks and queues of the adoptions. |
| Promises.Promise.Create | promise.js:59-97 | `new Promise(executor)` is settled with the first settling call of the executor, and a throw rejects it unless it was already settled. Every promise of the library handed to `resolve` before the throw has this promise's closures subscribed. Only those promises change, only by gaining callbacks, and no latch or aggregate changes. The tasks added are exactly those of the adopting calls' `then`s in call order, and each adopted promise gains exactly the pairs pushed on it while it was pending, in call order. |
| Promises.Promise.Execute | promise.js:91-96 | The try and catch blocks run on the fresh promise. They give the settlement, the subscriptions, and the exact tasks and adopted queues that `Create` states, relative to their own start. |
| Promises.Promise.ResolvedWith | promise.js:168-173 | `Promise.resolve(v)` is fulfilled with `v`, and nothing else changes or is scheduled. For a promise of the library it stays pending, and exactly one `then` on `v` subscribed its `resolve` and `reject`. That `then` kept `v`'s state, pushed the pair if `v` was pending, and scheduled exactly its task if `v` was settled; its result `d` is not the new promise. `v` is the only promise that changes, only by gaining callbacks. |
| Promises.Promise.RejectedWith | promise.js:174-179 | `Promise.reject(r)` is rejected with `r`, whatever `r` is. Nothing is scheduled, and nothing that existed before changes. |
| Promises.Promise.All | promise.js:192-221 | An empty input leaves the result pending and touches nothing. If the first non-promise element is not a thenable, the result is rejected with that element's throw. With promises only, the result is pending with an empty array, and every element's pair is on its queue or scheduled. The elements only gain callbacks. Unless a foreign thenable is called, the tasks added are exactly one for each element already settled, in input order. Each promise element also gains exactly one pair for each of its occurrences met while it was pending, in input order, and nothing else (`ElementPushes`). |
| Promises.Promise.AllExecutor | promise.js:194-219 | The executor of `all` makes the counters and runs the loop without settling the promise. It hands back the first element's throw for the catch block, or ends with every promise element subscribed. The task, queue and frame statements are the same as for `Promise.All`. |
| Promises.Promise.Round | promise.js:206-219 | One round of the loop of `all` keeps `AllProgress` true for one more element, and keeps the subscriptions of the elements before it. A promise element of the leading run adds exactly its own task, if it is settled, after those of the elements before, and exactly its pair on its own queues if it is pending; no other element's queues change. A plain element that is not a thenable adds no task and changes no element's queues. |
| Promises.Promise.SubscribeElement | promise.js:209-215 | A promise element inside the leading run of promises gets the pair (store at its index, reject the aggregate) through exactly one `then`, whose result is `d`: its state is kept, the pair is pushed if it is pending, and exactly that `then`'s task is scheduled if it is settled. Every earlier element keeps its pair, nothing settles, and the tasks are those of the earlier elements followed by this element's own. The queues of every element stay exact (`ElementQueues`). |
| Promises.Promise.VisitOther | promise.js:209-218 | An element past the leading run of promises. A promise met after a foreign thenable gets exactly one pair through one `then`. A plain element, or one whose `then` getter throws, throws its `ElementThrow`, schedules nothing and changes no element's queues. If the first element that is not a promise is not a thenable either, this is that element, and the loop ends there with the aggregate still pending. Calling a foreign thenable keeps only the frame stated. |
| Promises.AllProgressSnoc | promise.js:206-215 | One more promise element subscribed, while the earlier ones keep their pairs and nothing settles, extends the progress of the loop of `all` by one element. |
| Promises.ElementSubscribed | promise.js:209-215 | A round that subscribed the next promise element through one fresh `then` result, leaving the aggregate alone, extends `AllProgress` by one element. Its task, if any, follows those of the elements before. |
| Promises.ElementQueuesSnoc | promise.js:209-215 | One more promise element subscribed through `then`, with every other element's queues left alone, keeps each element's queues equal to its snapshot followed by its pushes (`ElementQueues`). The pushes include the new pair exactly when that element was pending. |
| Promises.ElementQueuesKept | promise.js:216-218 | A round that touched no element's queues keeps them exact. |
| Promises.ElementsGained | promise.js:206-219 | Queues that are their snapshots from before the loop followed by the pushes are the old queues followed by those pushes. |
| Promises.ResolvePromise | promise.js:8-56 | `promise2` ends exactly as the first-wins rule applied to `Resolution(x, promise2)` says. No other promise's settlement changes, and no aggregate or latch changes. The queues and tasks are those of the adoption: a promise of the library (or one reached through first successes) gets the latch's callback pair, and the tasks added are exactly those of the settlement and of that `then`. On a cycle the promise is rejected with a TypeError, and a task on the rejected promise is scheduled as well, whose handler is the latch's failure callback. |
| Promises.ResolveValue | promise.js:18-55 | For a value that is not a promise of the library: a throwing `then` getter rejects, a callable `then` is called, and anything else is resolved as it is. In each case the result matches `Resolution`, and the queues and tasks are those of the adoption. |
| Promises.CallForeignThen | promise.js:21-51 | The `called` latch: whatever calls a foreign thenable makes, in whatever order, `promise2` ends as its first call decides, later calls change nothing, and only this call's latch changes. |
| Promises.Deliver | promise.js:28-50 | One call of a foreign thenable: the first one decides the settlement and the adoption, and every later one finds the latch set and changes nothing at all. A throw is reported so that the call ends. |
| Promises.Succeed | promise.js:28-34 | The success callback resolves `y` only the first time either callback runs, and sets the latch. |
| Promises.Fail | promise.js:35-50 | The failure callback, and also the catch block, rejects only the first time, and sets the latch. |
| Scenarios.FulfilledPassesThrough | promise.js:100 | After its task runs, `Promise.resolve(v).then()` is fulfilled with the same plain `v`. |
| Scenarios.ThenableValueIsFollowed | promise.js:72-81 | `new Promise(res => res(thenable)).then()` fulfils the derived promise with the value the thenable calls back with, not with the thenable. |
| Scenarios.RejectedPassesThrough | promise.js:101 | After its task runs, `Promise.reject(r).then()` is rejected with the same `r`. |
| Scenarios.HandlerRecovers | promise.js:123-131 | A failure handler that returns the reason fulfils the derived promise with it. |
| Scenarios.ThenDefers | promise.js:110-122 | `then` on a fulfilled promise returns a pending promise and schedules exactly one task. |
| Scenarios.ChainPassesThrough | promise.js:137-148 | In `Promise.resolve(v).then().then()`, the first task fulfils the middle promise with `v` and schedules exactly one task: the pass-through of the second `then`. |
| Scenarios.SelfResolution | promise.js:12-14 | A task whose handler returns its own derived promise rejects it with a TypeError, and a failure task for it is still scheduled. |
| Scenarios.ThrowAfterResolve | promise.js:91-96 | A throw after `resolve(v)` in the executor leaves the promise fulfilled with `v`. |
| Scenarios.ExecutorThrows | promise.js:91-96 | An executor that throws `e` at once rejects the promise with `e`. |
| Scenarios.ForeignThenableKeptAsValue | promise.js:72-81 | `resolve(thenable)` in a constructor fulfils with the thenable itself. |
| Scenarios.ResolvedWithPromise | promise.js:168-173 | `Promise.resolve(Promise.resolve(v))` is pending, and its `resolve` waits as the only queued task, on the inner promise. Running that task fulfils it with `v`. |
| Scenarios.AllOfNothing | promise.js:192-221 | `Promise.all([])` stays pending, with nothing scheduled. |
| Scenarios.AllOfPending | promise.js:206-215 | `Promise.all([a])` with `a` pending schedules nothing and stays pending. It leaves exactly one callback pair on `a`: the collector for position 0 and the result's `reject`. |
| Scenarios.AllOfOnePending | promise.js:206-215 | After `Promise.all([a])` with `a` pending: the result and `a` are pending, nothing is scheduled, the counters are zero, and `a`'s queues hold exactly the collector for position 0 and the result's `reject`, deriving the same promise. |
| Scenarios.AllOfOneFulfilled | promise.js:198-215 | After `Promise.all([a])`, fulfilling `a` with `v` schedules the collector, and running it fulfils the result with `[v]`. Before that the result is pending. |
| Scenarios.AllOfOneRejected | promise.js:211-215 | After `Promise.all([a])`, rejecting `a` with `e` schedules the result's `reject`, and running it rejects the result with `e`. Before that the result is pending. |
| Scenarios.AllOfPlainValue | promise.js:216-218 | `Promise.all([v])` with a plain `v` is rejected, with a ReferenceError unless `v` is an object whose getter throws. |
| Scenarios.AllResultsInInputOrder | promise.js:195-204 | Running the callbacks of `all` once each, in any order, fulfils the result with the values in input order. The result is settled after no callback but the last. An empty input stays pending. |

## Left out

- `finally` (promise.js:180-191) is only a composition of `then` and `Promise.resolve` over an opaque callback, so it is not modelled.
- `static catch` (promise.js:164-167) is not modelled. It is declared `static` and calls `then` on the class, so it cannot work on an instance.
- `module.exports` and the spellings of the `ENUM` strings are not modelled; `Status` has three constructors instead.
- Host timing is not modelled. `setTimeout(…, 0)` is an append to `Runtime.tasks`, and a task runs only when a caller takes it with `Next` and runs it with `RunJob`. The model does not prove that every queued task eventually runs.
- User code is opaque:
  - a handler is `User(name)`, and what it returns or throws is the `oracle` argument of `RunJob`;
  - an executor is the script of `resolve`, `reject` and throw calls it makes before returning;
  - a later call of leaked `resolve`/`reject` closures is a direct call of `Promise.Resolve`/`Promise.Reject`.
- Foreign thenables are a script of the calls their `then` makes before it returns. Calls they make later, from their own timers, are not modelled.
- The getter of `then` is assumed to give the same answer on every read. `resolvePromise` reads it once. `all` reads it twice (promise.js:209 and 213), and a getter that changes between the two reads is not modelled.
- JavaScript typing is reduced to what the library asks. Objects and functions are both `Obj`, `null` is one of the `Primitive` values, and no primitive is computed on. Error messages are not modelled.
- The array `all` passes to `resolve` is a snapshot (`Array(resultArr)`). In JavaScript it is the same array object, so later stores through a foreign thenable's extra success calls would show through it; the model does not capture that aliasing.
- Promises.Aggregate.length: the input's length is fixed when `all` is called. `processResultByKey` reads `values.length` again on every call (promise.js:200), so an input array the caller grows after the call would in JavaScript keep the result pending where the model fulfils it. The model has no aliasing of the input array.
- Promises.Aggregate.Walk: after a foreign thenable element has been called, the exact tasks and the exact queues of the elements are no longer stated, only the frame (queues only grow, nothing else settles).
- Promises.Promise.Round: for a foreign thenable element, and for every round after one, states only the frame, not the exact tasks and queues.
- Promises.Promise.VisitOther: for a foreign thenable element, states only the frame. What its `then` calls store or settle is not stated.
- Promises.Promise.AllExecutor: like Promises.Promise.All, states the exact tasks and queues only when no foreign thenable element was called.
- Promises.Aggregate.CallForeignThenInAll: states only that no promise other than the aggregate changes. It does not state what each success or failure call stores or settles.
- Promises.Promise.All: for an input whose first non-promise element is a foreign thenable, states only the frame. It does not state the outcome, the tasks or the elements' exact queues.
- Promises.RunJob: for the library's closures (constructor closures, latch callbacks, the collector of `all`) it states the outcome only when the derived promise is not the promise the closure settles or adopts. `then` always makes the derived promise fresh, so that case never arises from the library's own calls.
- Scenarios.ChainPassesThrough: stops after the first task, so it does not run the second task, which FulfilledPassesThrough covers.
