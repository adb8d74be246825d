# android-futures: a verified model of Promise and Future

This project models the core of the `com.hanhuy.android.concurrent` library.

- **`Promise`** is a single-assignment future. It is a mutable object with:
  - two flags, `done` and `canceled`;
  - two result slots, `value` and `error`;
  - three callback queues: completion, success and failure;
  - two composition lists, `mapped` and `flatMapped`;
  - one `orElse` hook slot.

  The guarded `success`/`failure` complete a promise once. After that, two delivery passes drain its queues:
  - the background pass `completeAsync`;
  - the coordinator pass `completeOnUi`.
- **`Future`** supplies:
  - the `Try` result algebra;
  - the combinators built on promises: `sequence`, `join`, `recover` and `create`.

The model is sequential. Java's thread check decides which pass runs first. Here, each pass is instead a method that the environment calls after `Complete`, in whichever order it chooses.

Files, one module each:

- `Try.dfy` (module `Tries`) defines:
  - `Try` and its `create`/`map`;
  - the dynamically typed `Value` that promises carry;
  - `Throwable`, which is never null;
  - `Option`, which stands for a nullable reference.
- `Promise.dfy` (module `Promises`) holds the `Promise` class, with the source's fields and one method per operation. It also holds a `Scope`.
  - A `Scope` is a family of promises. It is a registry that gives each promise an identity and its `map`/`flatMap` children. Children are always younger than their parent, which is what makes the recursive `cancel` terminate.
  - The `Scope` keeps a ghost log of every delivery to a listener, as (listener, payload) pairs.
  - It also keeps a ghost log of the relays that `flatMap` subscribes to inner futures.
  - Callbacks are opaque listener identifiers, plus the two callbacks the library registers itself: the `flatMap` relay and the `recover` hook.
  - Transforms are Dafny function values.
- `Sequence.dfy` (module `Sequences`) models `sequence` in two parts:
  - The `Aggregator` class is the per-call state: the `items` array, the counter and the aggregate promise. Its `OnResult(i, t)` is the callback registered on input `i`.
  - The pure replay `Replay` of the arrivals specifies it. The lemmas prove what the aggregate completes with for every order of arrival.
- `Future.dfy` (module `Futures`) holds `Promise.create(value)`, `Future.create`, `recover` and `join`. The outcome of a computation that the library would run on a worker thread is passed in as a `Try`.

Four behaviours of the code are easy to miss, and the model keeps them:

- **`cancel` does not finish a promise** (`src/main/java/com/hanhuy/android/concurrent/Promise.java:258-280`). It never sets `done`, so a later `success` still completes a cancelled promise.
- **`cancel` also cancels children of a done promise** (`src/main/java/com/hanhuy/android/concurrent/Promise.java:265-270`). Its child loops run whether or not the promise is done; only the queue and list clearing and the `canceled` flag are guarded by `!done`.
- **A failed recovery reports the original error** (`src/main/java/com/hanhuy/android/concurrent/Future.java:56-59`, `src/main/java/com/hanhuy/android/concurrent/Promise.java:346-355`). When `recover`'s retry also fails, the result carries the original error, not the recovery's.
- **`failure(null)` succeeds** (`src/main/java/com/hanhuy/android/concurrent/Promise.java:66-69`, `src/main/java/com/hanhuy/android/concurrent/Future.java:158-161`). `Try.create(null, null)` is a success, so `failure(null)` succeeds with `null`.

## Model

| member | source | states |
|---|---|---|
| Tries.Create | src/main/java/com/hanhuy/android/concurrent/Future.java:157-161 | a failure exactly when an error is present, carrying that error; otherwise a success with the given value, which may be `Null` |
| Tries.Map | src/main/java/com/hanhuy/android/concurrent/Future.java:169-191 | a success maps to a success of `fn(value)`; a failure is returned with the same error and `fn` is not applied |
| Tries.CreateOfParts | src/main/java/com/hanhuy/android/concurrent/Future.java:157-161 | splitting a try into a value and a nullable error and re-creating it returns the same try |
| Tries.MapCompose | src/main/java/com/hanhuy/android/concurrent/Future.java:169-191 | mapping twice is mapping the composition |
| Promises.MakeOnComplete | src/main/java/com/hanhuy/android/concurrent/Promise.java:346-355 | a success passes through unchanged; a failure is replaced by the captured error |
| Promises.RecoverOutcome | src/main/java/com/hanhuy/android/concurrent/Future.java:53-64 | a success is forwarded; after a failure, a recovered value is adopted; a failed recovery reports the original error; every failing outcome carries the original error |
| Promises.FirstCompletionPersists | src/main/java/com/hanhuy/android/concurrent/Promise.java:61-70 | after two guarded completions the promise is as the first one left it; a promise that was pending with no error then holds exactly the first try |
| Promises.NotificationsShape | src/main/java/com/hanhuy/android/concurrent/Promise.java:78-79 | firing a queue delivers at most one payload per callback and always the same payload; a queue of listeners receives it in registration order |
| Promises.Scope.Fire | src/main/java/com/hanhuy/android/concurrent/Promise.java:89-93 | a listener receives the try; a `flatMap` relay completes its child through `complete(result)`: the try's slot is set, the other slot kept, and done set; a `recover` hook completes its result with the recovery outcome; the target of a library callback ends up done |
| Promises.Scope.FireAll | src/main/java/com/hanhuy/android/concurrent/Promise.java:78-79 | the callbacks fire in order, each with the try; every relay or hook target ends up done; every relay's child is completed through `complete(result)` with the fired try: its slot is set, the other slot kept |
| Promises.Scope.Subscribe | src/main/java/com/hanhuy/android/concurrent/Promise.java:89-94 | the subscription is logged; afterwards the child is done or its relay waits in the inner future's completion queue; a done inner future fires the relay at once, so the child is completed through `complete(result)` with the inner future's try (its slot set, the other slot kept), and the inner future keeps its queue; a pending one gains exactly the relay and leaves the child's result fields as they were; the inner future's queue stays routable; every earlier logged subscription that held still holds |
| Promises.Scope.SubscribeAll | src/main/java/com/hanhuy/android/concurrent/Promise.java:88-95 | the pairs are subscribed in order and logged; every new subscription holds; for a child whose inner future is none of the children, a done inner future completed it through `complete(result)` with its try (that try's slot set, the other slot kept) and kept its queue, a pending one holds its relay and the child's result fields are as they were; every inner future's completion queue only gained relays to the children; every routable queue stays routable |
| Promises.Scope.CancelAll | src/main/java/com/hanhuy/android/concurrent/Promise.java:265-270 | every listed child ends up done, or cancelled with its three queues and both lists empty; every registered promise either keeps its flag, queues and lists or was pending and is now cleared; a promise that does not descend from the owner keeps them; no `done`, `value` or `error` changes; every routable queue stays routable |
| Promises.Scope.CancelKid | src/main/java/com/hanhuy/android/concurrent/Promise.java:265-270 | one turn of a child loop: the child ends up done or cleared, every child an earlier turn cleared stays cleared, every registered promise keeps its flag, queues and lists or was pending and is now cleared, and one outside the owner's descendants keeps them |
| Promises.Promise.constructor | src/main/java/com/hanhuy/android/concurrent/Promise.java:53-55 | a fresh pending promise: not done, not cancelled, slots empty, queues and lists empty, no hook |
| Promises.Promise.Complete | src/main/java/com/hanhuy/android/concurrent/Promise.java:117-132 | a success sets `value`, a failure sets `error`, the other slot is kept, and the promise is done |
| Promises.Promise.Success | src/main/java/com/hanhuy/android/concurrent/Promise.java:61-64 | completes with the value only when not already done; a done promise is left unchanged |
| Promises.Promise.Failure | src/main/java/com/hanhuy/android/concurrent/Promise.java:66-70 | completes with `Try.create(null, error)` only when not already done; a done promise is left unchanged |
| Promises.Promise.FireHook | src/main/java/com/hanhuy/android/concurrent/Promise.java:73-76 | the hook fires at most once, with the result, and its slot is cleared; a `recover` hook completes its result with the recovery outcome and a relay its child with the result; the result fields and `map` children are untouched; the family stays well formed and every routable queue stays routable |
| Promises.Promise.Drain | src/main/java/com/hanhuy/android/concurrent/Promise.java:78-81 | every completion callback fires in registration order with the result, and the queue is left empty; every relayed child is completed through `complete(result)` with the result: its slot set, the other slot kept; the family stays well formed and every routable queue stays routable |
| Promises.Promise.SettleMapped | src/main/java/com/hanhuy/android/concurrent/Promise.java:83-100 | each `map` child is settled by guarded completion with `Try.map` of the result by its transform: `success(fn(value))` on a success, `failure(error)` on a failure |
| Promises.Promise.SettleFlatMappedSuccess | src/main/java/com/hanhuy/android/concurrent/Promise.java:88-95 | each `flatMap` child, in order, is subscribed to the inner future its transform names for the value, and the subscription is logged; afterwards every such child is done or its relay waits in that inner future's completion queue; for a child whose inner future is not itself one of the `flatMap` children: an inner future done when the loop began completed the child through `complete(result)` with its try (that try's slot set, the other slot kept), a pending one holds the child's relay in its completion queue and the child's result fields are as they were; every inner future's completion queue only gained relays to `flatMap` children; every routable queue stays routable |
| Promises.Promise.SettleFlatMappedFailure | src/main/java/com/hanhuy/android/concurrent/Promise.java:101-103 | every `flatMap` child is settled by the guarded `failure(error)`: a pending child fails with the error, a done one is left as it was |
| Promises.Promise.ClearChildren | src/main/java/com/hanhuy/android/concurrent/Promise.java:106-109 | both composition lists are emptied and the family stays well formed |
| Promises.Promise.Notify | src/main/java/com/hanhuy/android/concurrent/Promise.java:73-81 | the hook, then the completion queue, fire with the result; hook slot and queue are left empty; a `recover` result gets the recovery outcome, every relayed child the result; `map` children and `flatMap` children that no callback targets are untouched; nothing else about the promise changes; the family stays well formed and every routable queue stays routable |
| Promises.Promise.SettleChildren | src/main/java/com/hanhuy/android/concurrent/Promise.java:83-104 | every `map` child is settled with `Try.map` of the result; on a failure every `flatMap` child is settled by `failure(error)`; on a success every one is subscribed to its inner future and the subscriptions are logged; for a child whose inner future is none of the children: a done inner future completed it through `complete(result)` with its try (that try's slot set, the other slot kept), a pending one holds its relay and the child's result fields are as they were; every inner future's completion queue only gained relays to the children; promises that are neither kind of child are untouched; every routable queue stays routable |
| Promises.Promise.SettleAndClear | src/main/java/com/hanhuy/android/concurrent/Promise.java:83-109 | the child loops, then both composition lists are emptied, with the same guarantees for every child (a done inner future's try given through `complete(result)`, or the relay in a pending inner future's queue with the child untouched), inner futures' queues grown only by relays to the children, every routable queue still routable and the family kept well formed |
| Promises.Promise.CompleteAsync | src/main/java/com/hanhuy/android/concurrent/Promise.java:72-112 | the whole background pass: the delivery log grows by the hook's delivery and then the queue's, in order; hook, queue and both lists end up empty; each `map` child is settled with `Try.map` of the result; on a failure each `flatMap` child is settled by `failure(error)`; on a success each is subscribed, and a child that no callback targets, whose inner future is neither a child nor a callback target, is completed through `complete(result)` with that inner future's try (its slot set, the other slot kept) if it was done when the pass began, and otherwise waits in its completion queue with its result fields unchanged, so the inner future's own background pass later completes it with the inner try; every other inner future's completion queue only gained relays to this promise's children; the `recover` result and every relayed child are completed through `complete(result)`, with the recovery outcome and the result respectively (that try's slot set, the other slot kept); every routable queue stays routable; the result and the coordinator queues are untouched |
| Promises.Promise.CompleteOnUi | src/main/java/com/hanhuy/android/concurrent/Promise.java:174-189 | only the queue matching the variant fires, in registration order: success callbacks with the value or failure callbacks with the error; both queues end up empty |
| Promises.Promise.OrElse | src/main/java/com/hanhuy/android/concurrent/Promise.java:191-197 | a done promise fires the hook at once with `Try.create(value, error)`; a pending one installs it in the slot, replacing any earlier hook |
| Promises.Promise.OnComplete | src/main/java/com/hanhuy/android/concurrent/Promise.java:199-206 | a done promise fires the callback at once with its try; a pending one appends it to the completion queue |
| Promises.Promise.OnSuccess | src/main/java/com/hanhuy/android/concurrent/Promise.java:208-215 | fires at once after a success, is dropped after a failure (neither queued nor fired), and is queued while pending |
| Promises.Promise.OnFailure | src/main/java/com/hanhuy/android/concurrent/Promise.java:217-224 | fires at once after a failure, is dropped after a success, and is queued while pending |
| Promises.Promise.Map | src/main/java/com/hanhuy/android/concurrent/Promise.java:228-242 | a done promise completes a fresh child at once with `Try.map` of its try, never applying `fn` to a failure; a pending one appends (child, fn) to `mapped` |
| Promises.Promise.FlatMap | src/main/java/com/hanhuy/android/concurrent/Promise.java:246-256 | a done failure fails the fresh child with the same error; a done success returns the inner future itself; a pending promise appends (child, fn) to `flatMapped`; the fresh child is registered with this promise as its owner, with no hook and empty queues and lists; when this promise is pending, so is the child, with empty slots |
| Promises.Promise.Cancel | src/main/java/com/hanhuy/android/concurrent/Promise.java:259-280 | returns true iff the promise was not done; a pending promise ends up cancelled with its three queues and both lists empty, a done one keeps them; every child listed beforehand ends up done or cleared the same way; every registered promise either keeps its flag, queues and lists or was pending and is now cleared, and one that does not descend from this promise keeps them; `done`, `value` and `error` never change; every routable queue stays routable |
| Promises.Promise.ClearQueues | src/main/java/com/hanhuy/android/concurrent/Promise.java:260-264 | the three callback queues are emptied |
| Promises.Promise.CancelChildren | src/main/java/com/hanhuy/android/concurrent/Promise.java:265-270 | every child in `mapped` and `flatMapped` ends up done, or cancelled with its queues and lists empty; this promise is unchanged; every registered promise keeps its flag, queues and lists or was pending and is now cleared, and one outside this promise's descendants keeps them; every routable queue stays routable |
| Promises.Promise.MarkCanceled | src/main/java/com/hanhuy/android/concurrent/Promise.java:276-277 | `canceled` is set |
| Promises.Promise.IsFailed | src/main/java/com/hanhuy/android/concurrent/Promise.java:293-295 | failed exactly when the recorded try is a failure |
| Promises.Promise.GetValue | src/main/java/com/hanhuy/android/concurrent/Promise.java:298-304 | the value exactly when done, succeeded and not cancelled; the "not done" error when pending or failed; the "canceled" error for a succeeded cancelled promise |
| Promises.Promise.GetError | src/main/java/com/hanhuy/android/concurrent/Promise.java:307-311 | fails, with the not-failed error, exactly when the promise is neither done nor failed; otherwise it yields the error slot as it stands, including a pending promise whose error is set, and a done promise's nullable error |
| Sequences.Step | src/main/java/com/hanhuy/android/concurrent/Future.java:130-143 | one input's callback: a success fills its slot, counts it and completes the aggregate exactly when the counter reaches the input count; a failure completes a pending aggregate with that failure; other slots are untouched and a completed aggregate keeps its outcome |
| Sequences.Replay | src/main/java/com/hanhuy/android/concurrent/Future.java:125-145 | the aggregator's state after the callbacks ran in the given order: one slot per input, and a counter that never exceeds the number of arrivals |
| Sequences.Start | src/main/java/com/hanhuy/android/concurrent/Future.java:119-123 | before any arrival: `count` empty slots, a zero counter, the aggregate pending |
| Sequences.ReplayFrozen | src/main/java/com/hanhuy/android/concurrent/Future.java:136-142 | once the aggregate is completed, later arrivals cannot change it |
| Sequences.ReplaySuccesses | src/main/java/com/hanhuy/android/concurrent/Future.java:131-138 | while only successes arrive: the counter equals the number of arrivals; each value sits in its input's slot; untouched slots stay empty; the aggregate completes exactly when the count is reached |
| Sequences.AllSucceed | src/main/java/com/hanhuy/android/concurrent/Future.java:125-138 | when all inputs succeed, in any order, the aggregate succeeds with a list of `count` items holding input i's value at index i |
| Sequences.FirstFailureWins | src/main/java/com/hanhuy/android/concurrent/Future.java:140-143 | the first failure to arrive fails the aggregate with that input's error, whatever arrives later |
| Sequences.SucceedsIffAll | src/main/java/com/hanhuy/android/concurrent/Future.java:118-148 | for one arrival per input: with no inputs the aggregate never completes; otherwise it completes, and succeeds iff every input succeeded |
| Sequences.Aggregator.constructor | src/main/java/com/hanhuy/android/concurrent/Future.java:119-123 | a fresh pending aggregate promise, `count` empty slots and a zero counter, matching the empty replay |
| Sequences.Aggregator.OnResult | src/main/java/com/hanhuy/android/concurrent/Future.java:128-144 | the slots, the counter and the aggregate promise stay equal to the replay of all arrivals, this one appended |
| Futures.Of | src/main/java/com/hanhuy/android/concurrent/Promise.java:56-60 | a fresh promise already succeeded with the value |
| Futures.Create | src/main/java/com/hanhuy/android/concurrent/Future.java:73-87 | the promise succeeds with the callable's value or fails with what it threw |
| Futures.Recover | src/main/java/com/hanhuy/android/concurrent/Future.java:51-71 | a fresh result promise; a done source completes it at once with the recovery outcome; a pending source keeps the hook in its `orElse` slot, and the result stays pending |
| Futures.Discard | src/main/java/com/hanhuy/android/concurrent/Future.java:107-112 | `join`'s transform ignores the list and returns `null` |
| Futures.Join | src/main/java/com/hanhuy/android/concurrent/Future.java:102-113 | a fresh aggregate, with a fresh array and a fresh pending promise that has no hook and an empty completion queue; the discarding `map` child is queued as its only composition; that child, the promise `join` returns, is a fresh pending promise of the same family with null value, no error, not cancelled, no hook, empty queues and lists and a routable queue, so the aggregate's background pass later completes it with `Null` when every input succeeded or the first failure's error (see `Futures.JoinOutcome`); the family grows by the aggregate's promise and then the child |
| Futures.JoinOutcome | src/main/java/com/hanhuy/android/concurrent/Future.java:102-113 | once every input has completed: the join succeeds with `Null` when all inputs succeeded, otherwise it fails with the first failure's error |

## Left out

- Threads are not modelled. Thread identity, the `Looper` check and the `Handler`/`AsyncTask` dispatch are replaced by the two explicit pass methods, which the environment runs in either order.
- `synchronized` monitors, `notifyAll` and the blocking `get()`/`get(timeout)` are not modelled. They are concurrency and timing machinery; the model is sequential.
- Logging through `Log.v` and `v(...)` has no effect on state.
- The signalling promises `completeAsyncPromise`/`completeUiPromise` and the `noCompletionPromises` flag are left out. They only let another thread observe that a pass has run. The model has no flag for an owed pass: it is the caller's job to run each pass once after `Complete`.
- `GuavaAdapter.java` is not part of this model. It only converts between function-interface types.
- `isDone` and `isCancelled` are read as the fields `done` and `canceled` directly.
- Promises.Scope.Subscribe: the inner future that a `flatMap` transform returns is named by its position in the family's registry, because a Dafny function value cannot allocate, so every inner future must exist before `flatMap` is called; naming it by index rather than by reference keeps the framing of the registry simple. The ghost `subscriptions` log records which inner future each child was subscribed to. Right after a pass, every subscription it logged holds (the child is done or its relay waits in the inner queue); no later operation is promised to keep that, and `cancel` on the inner future empties its queue.
- Promises.Promise.FlatMap: every inner future a transform can name must already be registered when `flatMap` is called, and be older than the child. A transform that creates its future when applied (`v -> Future.create(...)`) is therefore not modelled, although the library accepts it.
- Promises.Promise.CompleteAsync: some corner cases go unpromised, all of them cases where one promise plays two parts in the same pass.
  - On a failure, a `flatMap` child that a callback of this same promise also targets is only said to be done.
  - A relayed child that is also one of this promise's own `flatMap` children is not said to hold the result. The library never queues a relay to a promise's own child on that promise, but the model does not carry that invariant.
  - On a success, the subscription outcome (the inner try given through `complete(result)`, or the relay queued) is not promised for a child that a callback of this promise targets. It is also not promised for a child whose inner future is one of this promise's `map` or `flatMap` children, or a callback target. Such a promise is completed by the same pass before or during the `flatMapped` loop, so its state when the loop reaches it is not its state when the pass began.
  - A `recover` result that is also targeted from the completion queue is not promised the recovery outcome either. In the model, recovery hooks are installed with `orElse` only.
- Promises.Scope.SubscribeAll: the subscription outcome is promised only for a child whose inner future is not itself one of the children being subscribed; such an inner future may be completed by an earlier subscription in the same loop.
- Promises.Promise.SettleFlatMappedSuccess: the subscription outcome is not promised for a child whose inner future is itself one of this promise's `flatMap` children, for the same reason as in `SubscribeAll`.
- Promises.Promise.SettleChildren: besides the exclusion of `SettleFlatMappedSuccess`, the subscription outcome is not promised for a child whose inner future is one of the `map` children, which the `mapped` loop completes first.
- Promises.Promise.SettleAndClear: has the same exclusions as `SettleChildren`.
- Promises.Promise.Cancel: only the children in this promise's own `mapped` and `flatMapped` lists are promised to end up done or cleared. Deeper descendants, which the recursion also reaches, are promised only to be kept or cleared. Stating it for the whole subtree needs a reachability invariant over every level's lists, which the model does not carry.
- Promises.Promise.CancelChildren: like `Cancel`, only the children in the lists it walks are promised to end up done or cleared; deeper descendants are promised only to be kept or cleared.
- Promises.Scope.CancelAll: only the promises in the list it walks are promised to end up done or cleared; their descendants are promised only to be kept or cleared.
- Futures.Join: only the path where every input is still pending is modelled. In the library, an input that is already done fires its callback while `sequence` registers it (`src/main/java/com/hanhuy/android/concurrent/Future.java:128`, through `src/main/java/com/hanhuy/android/concurrent/Promise.java:200-202`). So the aggregate can be done before `.map` runs, and `.map` then takes its fast path (`src/main/java/com/hanhuy/android/concurrent/Promise.java:230-235`). The model's `Join` builds a pending aggregate and leaves its completion to `OnResult`.
- Transforms and callbacks never throw. In the library, a `map` transform that throws on the fast path (`src/main/java/com/hanhuy/android/concurrent/Promise.java:235`) escapes to the caller. A transform or callback that throws inside the background pass (`src/main/java/com/hanhuy/android/concurrent/Promise.java:74-93`) or the coordinator pass (`src/main/java/com/hanhuy/android/concurrent/Promise.java:177-181`) ends that pass midway, with later children unsettled and the lists not cleared. The model makes every transform a total function and every callback a total step.
- Promises.Promise.Complete: a second `complete` on a promise whose passes have already run throws in the library, at `clear()` on the immutable empty lists (`src/main/java/com/hanhuy/android/concurrent/Promise.java:80`, `106-107`, `183-184`), after its fields have been overwritten. The model's unguarded `Complete` succeeds. The library reaches it only through a relay or a recovery hook, which fires once.
- Futures.Create: the asynchronous run of the callable collapses into the call itself, so the promise is returned already completed rather than pending.
- Futures.Recover: the intermediate `Future.create(recovery)` promise and its callback are collapsed into the hook. The hook carries the one recovery attempt's outcome as a `Try`, and completes the result with it directly.
- Sequences.Aggregator.OnResult: it is not modelled how `sequence` registers its callbacks on the input futures. The environment calls `OnResult` once per input, and nothing else completes the aggregate promise.
- The `List` view `Arrays.asList(items)` is modelled as a snapshot of `items`. This is indistinguishable, because no slot is written after the aggregate succeeds.
- The `instanceof` dispatch in `recover` and `join` is left out: every future in the model is a `Promise`, and `join`'s inputs carry `Value`s.
- Java's `int` counter in `sequence` is unbounded here. It never exceeds the input count, so this makes no difference.
