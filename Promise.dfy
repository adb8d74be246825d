/** The single-assignment promise of Promise.java: a mutable state machine that
    is completed once, queues callbacks and composition continuations while it
    is pending, and hands them to two delivery passes once it is done.

    Callbacks are opaque listener identifiers, plus the two kinds of callback
    the library itself registers (the relay `flatMap` subscribes to an inner
    future, and the hook `recover` installs). A delivery to a listener is
    recorded in the ghost log of the promise's `Scope`. */
module Promises {
  import opened Tries

  /** What created a promise: `map`, `flatMap`, `recover`, or anything else. */
  datatype Kind = Root | MapChild | FlatChild | RecoverChild

  datatype Callback =
    | Listener(id: nat)
      /** `pair.first.complete(result)`: relays an inner future's try verbatim
          into the child of a `flatMap` (Promise.java:89-94). */
    | Relay(target: Promise)
      /** The callback `recover` registers (Future.java:53-64). `attempt` is
          the outcome the single run of the recovery computation produces. */
    | RecoveryHook(target: Promise, attempt: Try<Value>)

  /** What a listener receives: a whole try (completion callbacks), a value
      (success callbacks) or an error (failure callbacks). */
  datatype Payload = OfTry(t: Try<Value>) | OfValue(v: Value) | OfError(e: Throwable)

  datatype Delivery = Delivery(listener: nat, payload: Payload)

  /** The `IllegalStateException`s of `getValue` and `getError`. */
  datatype StateError = NotDone | Canceled | DidNotFail

  datatype Checked<+T> = Ok(value: T) | Err(err: StateError)

  /** The try the callback built by `makeOnComplete(error)` completes its
      promise with: a success passes through, a failure is replaced by
      `error`. */
  function MakeOnComplete(error: Throwable, v: Try<Value>): (r: Try<Value>)
    ensures v.Success? ==> r == v
    ensures v.Failure? ==> r == Failure(error)
  {
    if v.Failure? then Failure(error) else v
  }

  /** The try `recover` completes its result with, given the original try and
      the outcome of the one recovery attempt: a success is forwarded
      unchanged; after a failure the recovered value is adopted, and a failed
      recovery reports the ORIGINAL error, not the recovery's. */
  function RecoverOutcome(original: Try<Value>, attempt: Try<Value>): (r: Try<Value>)
    ensures original.Success? ==> r == original
    ensures original.Failure? && attempt.Success? ==> r == attempt
    ensures original.Failure? && attempt.Failure? ==> r == Failure(original.error)
    ensures r.Failure? ==> original.Failure? && r.error == original.error
  {
    match original
    case Success(_) => original
    case Failure(e) => MakeOnComplete(e, attempt)
  }

  /** The listener delivery one callback produces: library callbacks act on
      promises instead and leave no trace in the log. */
  function Note(cb: Callback, p: Payload): seq<Delivery>
  {
    if cb.Listener? then [Delivery(cb.id, p)] else []
  }

  /** The deliveries firing `cbs` in order produces. */
  function Notifications(cbs: seq<Callback>, p: Payload): (d: seq<Delivery>)
    decreases |cbs|
  {
    if cbs == [] then []
    else Notifications(cbs[..|cbs| - 1], p) + Note(cbs[|cbs| - 1], p)
  }

  /** Firing only listeners delivers to each of them, in order, and firing
      any callbacks delivers at most one payload per callback. */
  lemma {:induction false} NotificationsShape(cbs: seq<Callback>, p: Payload)
    ensures |Notifications(cbs, p)| <= |cbs|
    ensures forall k :: 0 <= k < |Notifications(cbs, p)| ==> Notifications(cbs, p)[k].payload == p
    ensures (forall k :: 0 <= k < |cbs| ==> cbs[k].Listener?) ==>
      Notifications(cbs, p) == seq(|cbs|, k requires 0 <= k < |cbs| => Delivery(cbs[k].id, p))
    decreases |cbs|
  {
    if cbs != [] {
      NotificationsShape(cbs[..|cbs| - 1], p);
    }
  }

  /** The delivery the recovery hook produces, when one is installed. */
  function HookNote(hook: Option<Callback>, p: Payload): seq<Delivery>
  {
    if hook.Some? then Note(hook.value, p) else []
  }

  /** The listener deliveries of the background pass: the recovery hook's
      first, then the completion queue's in registration order, every one
      receiving the try. */
  function AsyncDeliveries(hook: Option<Callback>, queue: seq<Callback>, r: Try<Value>): seq<Delivery>
  {
    HookNote(hook, OfTry(r)) + Notifications(queue, OfTry(r))
  }

  function ToDeliveries(ids: seq<nat>, p: Payload): (d: seq<Delivery>)
    ensures |d| == |ids|
    ensures forall k :: 0 <= k < |ids| ==> d[k] == Delivery(ids[k], p)
  {
    seq(|ids|, k requires 0 <= k < |ids| => Delivery(ids[k], p))
  }

  /** The deliveries of the coordinator pass: only the queue that matches the
      variant fires, in registration order, success listeners with the value
      and failure listeners with the error. */
  function UiDeliveries(successes: seq<nat>, failures: seq<nat>, r: Try<Value>): (d: seq<Delivery>)
    ensures r.Success? ==> (|d| == |successes| &&
      forall k :: 0 <= k < |successes| ==> d[k] == Delivery(successes[k], OfValue(r.value)))
    ensures r.Failure? ==> (|d| == |failures| &&
      forall k :: 0 <= k < |failures| ==> d[k] == Delivery(failures[k], OfError(r.error)))
  {
    match r
    case Success(v) => ToDeliveries(successes, OfValue(v))
    case Failure(e) => ToDeliveries(failures, OfError(e))
  }

  /** The result fields of a promise: `done`, `value` and `error`. */
  datatype Slots = Slots(done: bool, value: Value, error: Option<Throwable>)

  /** The guarded `success`/`failure` with try `r` took a promise from
      `before` to `after`: a done promise is left as it was; otherwise a
      success sets the value, a failure the error, the other slot is kept,
      and the promise is done. */
  ghost predicate SettledFrom(before: Slots, after: Slots, r: Try<Value>)
  {
    if before.done then after == before
    else
      && after.done
      && (r.Success? ==> after.value == r.value && after.error == before.error)
      && (r.Failure? ==> after.error == Some(r.error) && after.value == before.value)
  }

  /** The effect of `complete(r)`, unguarded: a success sets the value, a
      failure the error, the other slot is kept, and the promise is done. */
  ghost predicate CompletedWith(before: Slots, after: Slots, r: Try<Value>)
  {
    && after.done
    && (r.Success? ==> after.value == r.value && after.error == before.error)
    && (r.Failure? ==> after.error == Some(r.error) && after.value == before.value)
  }

  /** Only the first guarded completion counts: a second one, whatever its
      try, leaves the promise as the first one left it, and a promise that
      was pending with no error then holds exactly the first try. */
  lemma FirstCompletionPersists(a: Slots, b: Slots, c: Slots, r1: Try<Value>, r2: Try<Value>)
    requires SettledFrom(a, b, r1) && SettledFrom(b, c, r2)
    ensures b.done && c == b
    ensures !a.done && a.error == None ==> Create(c.value, c.error) == r1
  {
  }

  /** `p` belongs to the promise family `s` whose registry is `all`. */
  ghost predicate InScope(p: Promise, s: Scope, all: seq<Promise>)
  {
    p.scope == s && p.id < |all| && all[p.id] == p
  }

  /** Every inner future `f` can produce is older than the child `c` of the
      `flatMap` that registered `f`. A transform names the future it returns
      by its position in the family's registry. */
  ghost predicate Yields(f: Value -> nat, c: Promise)
  {
    forall v :: f(v) < c.id
  }

  /** A callback queued on `p` may be fired by `p`'s passes: a library
      callback targets a younger promise, a relay always a `flatMap` child and
      a recovery hook always a `recover` result. */
  ghost predicate Routable(cb: Callback, p: Promise)
  {
    cb.Listener? || (p.id < cb.target.id && Typed(cb))
  }

  /** A relay targets a `flatMap` child and a recovery hook a `recover`
      result, so the two never share a target. */
  ghost predicate Typed(cb: Callback)
  {
    cb.Listener? || cb.target.kind == if cb.Relay? then FlatChild else RecoverChild
  }

  /** The children of a list of (child, transform) pairs. */
  function Firsts<X>(pairs: seq<(Promise, X)>): (r: seq<Promise>)
    ensures |r| == |pairs| && forall k :: 0 <= k < |pairs| ==> r[k] == pairs[k].0
  {
    seq(|pairs|, k requires 0 <= k < |pairs| => pairs[k].0)
  }

  function Target(cb: Callback): set<Promise>
  {
    if cb.Listener? then {} else {cb.target}
  }

  function Targets(cbs: seq<Callback>): set<Promise>
  {
    set k | 0 <= k < |cbs| && !cbs[k].Listener? :: cbs[k].target
  }

  /** `c` is done, or waits for a relay from `inner`. */
  ghost predicate Subscribed(c: Promise, inner: Promise)
    reads c`done, inner`onCompletionQueue
  {
    c.done || Relay(c) in inner.onCompletionQueue
  }

  /** What subscribing `c` to `inner` did, given their result fields
      `c0` and `inner0` when the pass began: a done inner future completed
      the child with its try verbatim; a pending one holds the relay in its
      completion queue and has left the child as it was. */
  ghost predicate Relayed(c0: Slots, c: Promise, inner0: Slots, inner: Promise)
    reads c`done, c`value, c`error, inner`onCompletionQueue
  {
    if inner0.done then CompletedWith(c0, c.Snapshot(), Create(inner0.value, inner0.error))
    else Relay(c) in inner.onCompletionQueue && c.Snapshot() == c0
  }

  /** A completion queue went from `before` to `after` by gaining only
      relays to promises in `kids`. */
  ghost predicate Grown(before: seq<Callback>, after: seq<Callback>, kids: set<Promise>)
  {
    before <= after && forall j :: |before| <= j < |after| ==> after[j].Relay? && after[j].target in kids
  }

  /** The subscriptions the `flatMapped` loop makes for the value `v`: each
      child, paired with the inner future its transform names. */
  function Relays(fs: seq<(Promise, Value -> nat)>, all: seq<Promise>, v: Value): (r: seq<(Promise, Promise)>)
    requires forall k :: 0 <= k < |fs| ==> fs[k].1(v) < |all|
    ensures |r| == |fs|
    ensures forall k :: 0 <= k < |fs| ==> r[k] == (fs[k].0, all[fs[k].1(v)])
  {
    seq(|fs|, k requires 0 <= k < |fs| => (fs[k].0, all[fs[k].1(v)]))
  }

  /** The fields `cancel` writes: the flag, the three callback queues and the
      two composition lists. */
  datatype CancelFields = CancelFields(canceled: bool, completions: seq<Callback>, successes: seq<nat>,
    failures: seq<nat>, mapped: seq<(Promise, Value -> Value)>, flatMapped: seq<(Promise, Value -> nat)>)

  /** What `cancel` leaves in a pending promise: cancelled, with every queue
      and list empty. */
  const Cleared := CancelFields(true, [], [], [], [], [])

  /** A cancel pass either left a promise's registrations as they were or
      found it pending and cleared them. */
  ghost predicate KeptOrCleared(before: CancelFields, after: CancelFields, done: bool)
  {
    after == before || (!done && after == Cleared)
  }

  /** A family of promises: the registry that gives every promise an identity
      (older promises have smaller ones) and the log of listener
      deliveries. */
  class Scope {
    var all: seq<Promise>
    ghost var log: seq<Delivery>
    /** The relays subscribed so far, as (flatMap child, inner future). */
    ghost var subscriptions: seq<(Promise, Promise)>

    constructor ()
      ensures Valid() && all == [] && log == [] && subscriptions == []
    {
      all := [];
      log := [];
      subscriptions := [];
    }

    ghost function Members(): set<Promise>
      reads this`all
    {
      set i | 0 <= i < |all| :: all[i]
    }

    /** The promises with identity `lo` or more: those created after the
        first `lo`. */
    ghost function From(lo: nat): set<Promise>
      reads this`all
    {
      set i | lo <= i < |all| :: all[i]
    }

    ghost predicate Registered(p: Promise)
      reads this`all
    {
      InScope(p, this, all)
    }

    /** The promise with identity `i` is the one with identity `root` or was
        created, through a chain of owners, by a `map`, `flatMap` or
        `recover` on it. */
    ghost predicate Descends(i: nat, root: nat)
      reads this`all
      decreases i
    {
      i == root || (root < i < |all| && 0 <= all[i].owner < i && Descends(all[i].owner, root))
    }

    /** A descendant of a child is a descendant of the child's owner. */
    lemma {:induction false} DescendsOfChild(i: nat, c: Promise, root: nat)
      requires Registered(c) && c.owner == root && root < c.id && Descends(i, c.id)
      ensures Descends(i, root)
      decreases i
    {
      if i != c.id {
        DescendsOfChild(all[i].owner, c, root);
      }
    }

    /** Every registered promise knows its place, and its `map` and `flatMap`
        children are registered younger promises of the right kind. */
    ghost predicate Valid()
      reads this`all, Members()`mapped, Members()`flatMapped
    {
      forall i :: 0 <= i < |all| ==>
        all[i].scope == this && all[i].id == i && all[i].Linked(all)
    }

    /** Fires one callback with the try `r`, on the caller's thread. */
    method Fire(cb: Callback, r: Try<Value>)
      modifies this`log, Target(cb)`done, Target(cb)`value, Target(cb)`error
      ensures log == old(log) + Note(cb, OfTry(r))
      ensures !cb.Listener? ==> cb.target.done
      ensures cb.Relay? ==> CompletedWith(old(cb.target.Snapshot()), cb.target.Snapshot(), r)
      ensures cb.RecoveryHook? ==>
        CompletedWith(old(cb.target.Snapshot()), cb.target.Snapshot(), RecoverOutcome(r, cb.attempt))
    {
      match cb
      case Listener(id) =>
        log := log + [Delivery(id, OfTry(r))];
      case Relay(t) =>
        t.Complete(r);
      case RecoveryHook(t, attempt) =>
        t.Complete(RecoverOutcome(r, attempt));
    }

    /** Fires `cbs` in order with the try `r`. */
    method FireAll(cbs: seq<Callback>, r: Try<Value>)
      requires forall k :: 0 <= k < |cbs| ==> Typed(cbs[k])
      modifies this`log, Targets(cbs)`done, Targets(cbs)`value, Targets(cbs)`error
      ensures log == old(log) + Notifications(cbs, OfTry(r))
      ensures forall k :: 0 <= k < |cbs| && !cbs[k].Listener? ==> cbs[k].target.done
      ensures forall k :: 0 <= k < |cbs| && cbs[k].Relay? ==>
        CompletedWith(old(cbs[k].target.Snapshot()), cbs[k].target.Snapshot(), r)
    {
      for n := 0 to |cbs|
        invariant log == old(log) + Notifications(cbs[..n], OfTry(r))
        invariant forall k :: 0 <= k < n && !cbs[k].Listener? ==> cbs[k].target.done
        invariant forall k :: 0 <= k < |cbs| && cbs[k].Relay? ==>
          var t := cbs[k].target;
          CompletedWith(old(t.Snapshot()), t.Snapshot(), r) || (n <= k && t.Snapshot() == old(t.Snapshot()))
      {
        assert cbs[..n + 1][..n] == cbs[..n];
        Fire(cbs[n], r);
      }
      assert cbs[..|cbs|] == cbs;
    }

    /** `inner.onComplete(cb)` with the relay of the `flatMap` child `c`. */
    method Subscribe(c: Promise, inner: Promise)
      requires inner.scope == this && inner.id < c.id && c.kind == FlatChild
      modifies this`log, this`subscriptions, c`done, c`value, c`error,
        inner`onCompletionQueue
      ensures log == old(log) && subscriptions == old(subscriptions) + [(c, inner)]
      ensures Subscribed(c, inner)
      ensures forall k :: 0 <= k < |old(subscriptions)| ==>
        old(Subscribed(subscriptions[k].0, subscriptions[k].1)) ==> Subscribed(subscriptions[k].0, subscriptions[k].1)
      ensures old(c.done) ==> c.done
      ensures old(inner.done) ==> CompletedWith(old(c.Snapshot()), c.Snapshot(), old(inner.Recorded()))
      ensures inner.onCompletionQueue == old(inner.onCompletionQueue) ||
        inner.onCompletionQueue == old(inner.onCompletionQueue) + [Relay(c)]
      ensures old(inner.done) ==> inner.onCompletionQueue == old(inner.onCompletionQueue)
      ensures !old(inner.done) ==> inner.onCompletionQueue == old(inner.onCompletionQueue) + [Relay(c)]
      ensures !old(inner.done) ==> c.Snapshot() == old(c.Snapshot())
      ensures old(inner.QueueOk()) ==> inner.QueueOk()
    {
      inner.OnComplete(Relay(c));
      subscriptions := subscriptions + [(c, inner)];
    }

    /** The `flatMapped` loop of the background pass on a success, given the
        (child, inner future) pairs its transforms yield: subscribes each
        child in turn. `kids` and `inners` hold the children and the inner
        futures. A child whose inner future is not one of `kids` ends up with
        that future's try if it was done, or waits in its queue. */
    method SubscribeAll(rs: seq<(Promise, Promise)>, ghost kids: set<Promise>, ghost inners: set<Promise>)
      requires forall k :: 0 <= k < |rs| ==>
        rs[k].1.scope == this && rs[k].1.id < rs[k].0.id && rs[k].0.kind == FlatChild
      requires forall k :: 0 <= k < |rs| ==> rs[k].0 in kids && rs[k].1 in inners
      requires forall j, k :: 0 <= j < k < |rs| ==> rs[j].0 != rs[k].0
      modifies this`log, this`subscriptions, kids`done, kids`value, kids`error,
        inners`onCompletionQueue
      ensures log == old(log) && subscriptions == old(subscriptions) + rs
      ensures forall k :: |old(subscriptions)| <= k < |subscriptions| ==>
        Subscribed(subscriptions[k].0, subscriptions[k].1)
      ensures forall k :: 0 <= k < |rs| && rs[k].1 !in kids ==>
        Relayed(old(rs[k].0.Snapshot()), rs[k].0, old(rs[k].1.Snapshot()), rs[k].1)
      ensures forall i :: 0 <= i < |all| ==> old(all[i].QueueOk()) ==> all[i].QueueOk()
      ensures forall k :: 0 <= k < |rs| && rs[k].1 !in kids && old(rs[k].1.done) ==>
          rs[k].1.onCompletionQueue == old(rs[k].1.onCompletionQueue)
      ensures forall q :: q in inners ==> Grown(old(q.onCompletionQueue), q.onCompletionQueue, kids)
    {
      for n := 0 to |rs|
        invariant log == old(log)
        invariant subscriptions == old(subscriptions) + rs[..n]
        invariant forall k :: |old(subscriptions)| <= k < |subscriptions| ==>
          Subscribed(subscriptions[k].0, subscriptions[k].1)
        invariant forall k :: 0 <= k < n && rs[k].1 !in kids ==>
          Relayed(old(rs[k].0.Snapshot()), rs[k].0, old(rs[k].1.Snapshot()), rs[k].1)
        invariant forall k :: n <= k < |rs| ==> rs[k].0.Snapshot() == old(rs[k].0.Snapshot())
        invariant forall i :: 0 <= i < |all| ==> old(all[i].QueueOk()) ==> all[i].QueueOk()
        invariant forall k :: 0 <= k < |rs| && rs[k].1 !in kids && old(rs[k].1.done) ==>
          rs[k].1.onCompletionQueue == old(rs[k].1.onCompletionQueue)
        invariant forall q :: q in inners ==> Grown(old(q.onCompletionQueue), q.onCompletionQueue, kids)
      {
        var c, inner := rs[n].0, rs[n].1;
        assert rs[..n + 1] == rs[..n] + [(c, inner)];
        label before:
        Subscribe(c, inner);
        forall k | 0 <= k < n && rs[k].1 !in kids
          ensures Relayed(old(rs[k].0.Snapshot()), rs[k].0, old(rs[k].1.Snapshot()), rs[k].1)
        {
          ghost var c0, i0 := old(rs[k].0.Snapshot()), old(rs[k].1.Snapshot());
          assert old@before(Relayed(c0, rs[k].0, i0, rs[k].1));
        }
      }
      assert rs[..|rs|] == rs;
    }

    /** The child loops of `cancel`: cancels each of `kids`, all younger
        than the promise with identity `bound`. */
    method CancelAll(ghost bound: nat, kids: seq<Promise>)
      requires Valid() && bound < |all|
      requires forall k :: 0 <= k < |kids| ==> Registered(kids[k]) && bound < kids[k].id && kids[k].owner == bound
      modifies From(bound + 1)`canceled, From(bound + 1)`onCompletionQueue, From(bound + 1)`onSuccessQueue,
        From(bound + 1)`onFailureQueue, From(bound + 1)`mapped, From(bound + 1)`flatMapped
      decreases |all| - bound, 1
      ensures Valid()
      ensures forall i :: 0 <= i < |all| ==>
        KeptOrCleared(old(all[i].Registrations()), all[i].Registrations(), all[i].done)
      ensures forall i :: 0 <= i < |all| && !Descends(i, bound) ==>
        all[i].Registrations() == old(all[i].Registrations())
      ensures forall i :: 0 <= i < |all| ==> old(all[i].QueueOk()) ==> all[i].QueueOk()
      ensures forall k :: 0 <= k < |kids| ==> kids[k].done || kids[k].Registrations() == Cleared
    {
      for n := 0 to |kids|
        invariant Valid()
        invariant forall i :: 0 <= i < |all| ==>
          KeptOrCleared(old(all[i].Registrations()), all[i].Registrations(), all[i].done)
        invariant forall i :: 0 <= i < |all| && !Descends(i, bound) ==>
          all[i].Registrations() == old(all[i].Registrations())
        invariant forall k :: 0 <= k < n ==> kids[k].done || kids[k].Registrations() == Cleared
      {
        CancelKid(bound, kids, n);
      }
      forall i | 0 <= i < |all| && old(all[i].QueueOk())
        ensures all[i].QueueOk()
      {
        assert all[i].orElseCallback == old(all[i].orElseCallback);
      }
    }

    /** One turn of a child loop of `cancel`: cancels `kids[n]`. Whatever an
        earlier turn cleared stays cleared. */
    method CancelKid(ghost bound: nat, kids: seq<Promise>, n: nat)
      requires Valid() && bound < |all| && n < |kids|
      requires forall k :: 0 <= k < |kids| ==> Registered(kids[k]) && bound < kids[k].id && kids[k].owner == bound
      modifies From(bound + 1)`canceled, From(bound + 1)`onCompletionQueue, From(bound + 1)`onSuccessQueue,
        From(bound + 1)`onFailureQueue, From(bound + 1)`mapped, From(bound + 1)`flatMapped
      decreases |all| - bound, 0
      ensures Valid()
      ensures forall i :: 0 <= i < |all| ==>
        KeptOrCleared(old(all[i].Registrations()), all[i].Registrations(), all[i].done)
      ensures forall i :: 0 <= i < |all| && !Descends(i, bound) ==>
        all[i].Registrations() == old(all[i].Registrations())
      ensures forall k :: 0 <= k < |kids| ==>
        (k == n || old(kids[k].done || kids[k].Registrations() == Cleared)) ==>
        kids[k].done || kids[k].Registrations() == Cleared
    {
      var _ := kids[n].Cancel();
      forall i | 0 <= i < |all| && Descends(i, kids[n].id)
        ensures Descends(i, bound)
      {
        DescendsOfChild(i, kids[n], bound);
      }
    }
  }

  class Promise {
    const scope: Scope
    ghost const id: nat
    /** The identity of the promise whose `map`, `flatMap` or `recover`
        created this one. */
    ghost const owner: int
    ghost const kind: Kind

    var done: bool
    var canceled: bool
    var value: Value
    var error: Option<Throwable>
    var orElseCallback: Option<Callback>
    var onCompletionQueue: seq<Callback>
    var onSuccessQueue: seq<nat>
    var onFailureQueue: seq<nat>
    var mapped: seq<(Promise, Value -> Value)>
    var flatMapped: seq<(Promise, Value -> nat)>

    /** The children of this promise are promises `all` registers. */
    ghost predicate Linked(all: seq<Promise>)
      reads this`mapped, this`flatMapped
    {
      && (forall k :: 0 <= k < |mapped| ==> ChildIn(mapped[k].0, MapChild, all))
      && (forall j, k :: 0 <= j < k < |mapped| ==> mapped[j].0 != mapped[k].0)
      && (forall k :: 0 <= k < |flatMapped| ==>
            ChildIn(flatMapped[k].0, FlatChild, all) &&
            Yields(flatMapped[k].1, flatMapped[k].0))
      && (forall j, k :: 0 <= j < k < |flatMapped| ==> flatMapped[j].0 != flatMapped[k].0)
    }

    ghost predicate ChildIn(c: Promise, k: Kind, all: seq<Promise>)
    {
      InScope(c, scope, all) && c.kind == k && c.owner == id && id < c.id
    }

    /** The callbacks waiting on this promise may be fired by its passes. */
    ghost predicate QueueOk()
      reads this`onCompletionQueue, this`orElseCallback
    {
      && (forall k :: 0 <= k < |onCompletionQueue| ==> Routable(onCompletionQueue[k], this))
      && (orElseCallback.Some? ==> Routable(orElseCallback.value, this))
    }

    lemma LinkedGrow(all: seq<Promise>, all': seq<Promise>)
      requires Linked(all) && all <= all'
      ensures Linked(all')
    {
    }

    /** The try the fields hold: `Try.create(value, error)`. */
    function Recorded(): (t: Try<Value>)
      reads this`value, this`error
      ensures t.Failure? <==> error.Some?
      ensures t.Success? ==> t.value == value
      ensures t.Failure? ==> error == Some(t.error)
    {
      Create(value, error)
    }

    function Snapshot(): (r: Slots)
      reads this`done, this`value, this`error
      ensures r.done == done && r.value == value && r.error == error
    {
      Slots(done, value, error)
    }

    function Registrations(): (r: CancelFields)
      reads this`canceled, this`onCompletionQueue, this`onSuccessQueue, this`onFailureQueue,
        this`mapped, this`flatMapped
    {
      CancelFields(canceled, onCompletionQueue, onSuccessQueue, onFailureQueue, mapped, flatMapped)
    }

    /** The fields record `r` (the state a delivery pass is started in). */
    ghost predicate Records(r: Try<Value>)
      reads this`done, this`value, this`error
    {
      done && (r.Success? ==> value == r.value) && (r.Failure? ==> error == Some(r.error))
    }

    /** `Promise.create()`: a fresh pending promise of the family `s`. */
    constructor (s: Scope, ghost owner: int, ghost kind: Kind)
      requires s.Valid()
      modifies s`all
      ensures s.Valid() && s.all == old(s.all) + [this]
      ensures scope == s && id == |old(s.all)| && this.owner == owner && this.kind == kind
      ensures !done && !canceled && value == Null && error == None
      ensures orElseCallback == None && onCompletionQueue == [] && onSuccessQueue == []
      ensures onFailureQueue == [] && mapped == [] && flatMapped == []
      ensures QueueOk()
    {
      scope := s;
      id := |s.all|;
      this.owner := owner;
      this.kind := kind;
      done, canceled := false, false;
      value, error := Null, None;
      orElseCallback := None;
      onCompletionQueue, onSuccessQueue, onFailureQueue := [], [], [];
      mapped, flatMapped := [], [];
      new;
      ghost var before := s.all;
      s.all := s.all + [this];
      forall i | 0 <= i < |before|
        ensures s.all[i].Linked(s.all)
      {
        s.all[i].LinkedGrow(before, s.all);
      }
    }

    /** `complete(result)` without the thread dispatch: records the try, sets
        `done`, and owes both delivery passes, which the environment then runs
        as `CompleteAsync` and `CompleteOnUi` in the order the calling thread
        dictates. Unguarded: the library calls it only through `success`,
        `failure`, a relay or a recovery hook. */
    method Complete(result: Try<Value>)
      modifies this`done, this`value, this`error
      ensures CompletedWith(old(Snapshot()), Snapshot(), result)
    {
      match result {
        case Success(v) => value := v;
        case Failure(e) => error := Some(e);
      }
      done := true;
    }

    /** `success(v)`: completes only a promise that is not done yet, so the
        first completion's result persists. */
    method Success(v: Value)
      modifies this`done, this`value, this`error
      ensures SettledFrom(old(Snapshot()), Snapshot(), Try.Success(v))
    {
      if !done {
        Complete(Try.Success(v));
      }
    }

    /** `failure(error)`: `Try.create(null, error)` when not done yet, so a
        null error succeeds with `Null`. */
    method Failure(e: Option<Throwable>)
      modifies this`done, this`value, this`error
      ensures SettledFrom(old(Snapshot()), Snapshot(), Create(Null, e))
    {
      if !done {
        Complete(Create(Null, e));
      }
    }

    ghost function MapKids(): set<Promise>
      reads this`mapped
    {
      set k | 0 <= k < |mapped| :: mapped[k].0
    }

    ghost function FlatKids(): set<Promise>
      reads this`flatMapped
    {
      set k | 0 <= k < |flatMapped| :: flatMapped[k].0
    }

    ghost function Inners(v: Value): set<Promise>
      reads this`flatMapped, scope`all
    {
      set k | 0 <= k < |flatMapped| && flatMapped[k].1(v) < |scope.all| :: scope.all[flatMapped[k].1(v)]
    }

    /** The first step of the background pass: the recovery hook fires (at
        most once) and its slot is cleared. */
    method FireHook(result: Try<Value>)
      requires scope.Valid() && (orElseCallback.Some? ==> Routable(orElseCallback.value, this))
      requires MapReady()
      modifies this`orElseCallback, scope`log, HookTarget()`done, HookTarget()`value,
        HookTarget()`error
      ensures scope.Valid()
      ensures forall i :: 0 <= i < |scope.all| ==> old(scope.all[i].QueueOk()) ==> scope.all[i].QueueOk()
      ensures orElseCallback == None
      ensures scope.log == old(scope.log) + HookNote(old(orElseCallback), OfTry(result))
      ensures old(orElseCallback).Some? && !old(orElseCallback).value.Listener? ==>
        old(orElseCallback).value.target.done
      ensures old(orElseCallback).Some? && old(orElseCallback).value.Relay? ==>
        var t := old(orElseCallback).value.target;
        CompletedWith(old(t.Snapshot()), t.Snapshot(), result)
      ensures old(orElseCallback).Some? && old(orElseCallback).value.RecoveryHook? ==>
        var t := old(orElseCallback).value.target;
        CompletedWith(old(t.Snapshot()), t.Snapshot(), RecoverOutcome(result, old(orElseCallback).value.attempt))
      ensures done == old(done) && value == old(value) && error == old(error)
      ensures onSuccessQueue == old(onSuccessQueue) && onFailureQueue == old(onFailureQueue) && canceled == old(canceled)
      ensures forall k :: 0 <= k < |mapped| ==> mapped[k].0.Snapshot() == old(mapped[k].0.Snapshot())
    {
      if orElseCallback.Some? {
        scope.Fire(orElseCallback.value, result);
        orElseCallback := None;
      }
    }

    ghost function HookTarget(): set<Promise>
      reads this`orElseCallback
    {
      if orElseCallback.Some? then Target(orElseCallback.value) else {}
    }

    /** The promises that the callbacks waiting on this promise complete. */
    ghost function CallbackTargets(): set<Promise>
      reads this`orElseCallback, this`onCompletionQueue
    {
      HookTarget() + Targets(onCompletionQueue)
    }

    /** The second step of the background pass: the completion queue fires
        in registration order and is emptied. */
    method Drain(result: Try<Value>)
      requires scope.Valid() && forall k :: 0 <= k < |onCompletionQueue| ==> Routable(onCompletionQueue[k], this)
      requires MapReady()
      modifies this`onCompletionQueue, scope`log, Targets(onCompletionQueue)`done,
        Targets(onCompletionQueue)`value, Targets(onCompletionQueue)`error
      ensures scope.Valid()
      ensures forall i :: 0 <= i < |scope.all| ==> old(scope.all[i].QueueOk()) ==> scope.all[i].QueueOk()
      ensures onCompletionQueue == []
      ensures scope.log == old(scope.log) + Notifications(old(onCompletionQueue), OfTry(result))
      ensures forall k :: 0 <= k < |old(onCompletionQueue)| && !old(onCompletionQueue)[k].Listener? ==>
        old(onCompletionQueue)[k].target.done
      ensures forall k :: 0 <= k < |old(onCompletionQueue)| && old(onCompletionQueue)[k].Relay? ==>
        var t := old(onCompletionQueue)[k].target;
        CompletedWith(old(t.Snapshot()), t.Snapshot(), result)
      ensures done == old(done) && value == old(value) && error == old(error)
      ensures onSuccessQueue == old(onSuccessQueue) && onFailureQueue == old(onFailureQueue) && canceled == old(canceled)
      ensures forall k :: 0 <= k < |mapped| ==> mapped[k].0.Snapshot() == old(mapped[k].0.Snapshot())
    {
      var queue := onCompletionQueue;
      scope.FireAll(queue, result);
      onCompletionQueue := [];
    }

    /** The `mapped` loop of the background pass: each child is completed
        with `Try.map` of the result by its transform. */
    method SettleMapped(result: Try<Value>)
      requires Records(result)
      requires MapReady()
      modifies MapKids()`done, MapKids()`value, MapKids()`error
      ensures forall k :: 0 <= k < |mapped| ==>
        var c := mapped[k].0;
        SettledFrom(old(c.Snapshot()), c.Snapshot(), Tries.Map(result, mapped[k].1))
    {
      for n := 0 to |mapped|
        invariant forall k :: 0 <= k < n ==>
          var c := mapped[k].0;
          SettledFrom(old(c.Snapshot()), c.Snapshot(), Tries.Map(result, mapped[k].1))
        invariant forall k :: n <= k < |mapped| ==> unchanged(mapped[k].0)
      {
        var c := mapped[n].0;
        assert c in MapKids();
        if result.Success? {
          c.Success(mapped[n].1(value));
        } else {
          c.Failure(error);
        }
      }
    }

    /** Every `flatMap` child is a younger `flatMap` child, and every inner
        future its transform can name is an older promise of the family. */
    ghost predicate FlatReady(all: seq<Promise>)
      reads this`flatMapped
    {
      forall k :: 0 <= k < |flatMapped| ==>
        flatMapped[k].0.kind == FlatChild && id < flatMapped[k].0.id &&
        forall v :: flatMapped[k].1(v) < |all| && all[flatMapped[k].1(v)].scope == scope &&
          all[flatMapped[k].1(v)].id < flatMapped[k].0.id
    }

    /** The `flatMap` children are distinct. */
    ghost predicate FlatDistinct()
      reads this`flatMapped
    {
      forall j, k :: 0 <= j < k < |flatMapped| ==> flatMapped[j].0 != flatMapped[k].0
    }

    /** The `map` children are distinct younger `map` children. */
    ghost predicate MapReady()
      reads this`mapped
    {
      && (forall k :: 0 <= k < |mapped| ==> mapped[k].0.kind == MapChild && id < mapped[k].0.id)
      && (forall j, k :: 0 <= j < k < |mapped| ==> mapped[j].0 != mapped[k].0)
    }

    /** The `flatMap` children are `flatMap` children. */
    ghost predicate FlatKinds()
      reads this`flatMapped
    {
      forall k :: 0 <= k < |flatMapped| ==> flatMapped[k].0.kind == FlatChild
    }

    lemma KindsOfValid()
      requires scope.Valid() && scope.Registered(this)
      ensures MapReady() && FlatKinds()
    {
      assert scope.all[id].Linked(scope.all);
    }

    lemma ReadyOfValid()
      requires scope.Valid() && scope.Registered(this)
      ensures MapReady() && FlatReady(scope.all) && FlatDistinct()
    {
      assert scope.all[id].Linked(scope.all);
      forall k, v | 0 <= k < |flatMapped|
        ensures flatMapped[k].1(v) < |scope.all| && scope.all[flatMapped[k].1(v)].scope == scope &&
          scope.all[flatMapped[k].1(v)].id < flatMapped[k].0.id
      {
        assert Yields(flatMapped[k].1, flatMapped[k].0);
      }
    }

    /** The `flatMapped` loop of the background pass on a success: each
        transform yields an inner future, and the child is subscribed to it.
        A child whose inner future is not itself one of these children ends
        up with that future's try if it was done, or waits in its queue. */
    method SettleFlatMappedSuccess()
      requires FlatReady(scope.all) && FlatDistinct() && done
      modifies scope`log, scope`subscriptions, FlatKids()`done, FlatKids()`value, FlatKids()`error, Inners(value)`onCompletionQueue
      ensures scope.log == old(scope.log) && onCompletionQueue == old(onCompletionQueue)
      ensures scope.subscriptions == old(scope.subscriptions) + Relays(flatMapped, scope.all, value)
      ensures forall k :: |old(scope.subscriptions)| <= k < |scope.subscriptions| ==>
        Subscribed(scope.subscriptions[k].0, scope.subscriptions[k].1)
      ensures var rs := Relays(flatMapped, scope.all, value);
        forall k :: 0 <= k < |rs| && rs[k].1 !in FlatKids() ==>
          Relayed(old(rs[k].0.Snapshot()), rs[k].0, old(rs[k].1.Snapshot()), rs[k].1)
      ensures forall i :: 0 <= i < |scope.all| ==> old(scope.all[i].QueueOk()) ==> scope.all[i].QueueOk()
      ensures forall q :: q in Inners(value) ==> Grown(old(q.onCompletionQueue), q.onCompletionQueue, FlatKids())
    {
      var rs := Relays(flatMapped, scope.all, value);
      forall k | 0 <= k < |rs|
        ensures rs[k].0 == flatMapped[k].0 && rs[k].1 in Inners(value)
      {
      }
      assert this !in FlatKids();
      scope.SubscribeAll(rs, FlatKids(), Inners(value));
    }

    /** The `flatMapped` loop of the background pass on a failure. */
    method SettleFlatMappedFailure(e: Throwable)
      requires forall k :: 0 <= k < |flatMapped| ==> flatMapped[k].0.id > id
      modifies FlatKids()`done, FlatKids()`value, FlatKids()`error
      ensures forall k :: 0 <= k < |flatMapped| ==>
        SettledFrom(old(flatMapped[k].0.Snapshot()), flatMapped[k].0.Snapshot(), Try.Failure(e))
    {
      for n := 0 to |flatMapped|
        invariant forall k :: 0 <= k < |flatMapped| ==>
          var c := flatMapped[k].0;
          SettledFrom(old(c.Snapshot()), c.Snapshot(), Try.Failure(e)) ||
          (n <= k && c.Snapshot() == old(c.Snapshot()))
      {
        var c := flatMapped[n].0;
        assert c in FlatKids();
        c.Failure(Some(e));
      }
    }

    /** The last step of the background pass: both composition lists are
        emptied. */
    method ClearChildren()
      requires scope.Valid() && scope.Registered(this)
      modifies this`mapped, this`flatMapped
      ensures scope.Valid() && mapped == [] && flatMapped == []
    {
      mapped, flatMapped := [], [];
    }

    /** The callback half of the background pass: the recovery hook, then
        the completion queue. No `map` child is a callback target. */
    method Notify(result: Try<Value>, ghost targets: set<Promise>)
      requires scope.Valid() && QueueOk() && MapReady() && FlatKinds() && targets == CallbackTargets()
      modifies this`orElseCallback, this`onCompletionQueue, scope`log, targets`done,
        targets`value, targets`error
      ensures scope.Valid()
      ensures scope.log == old(scope.log) + AsyncDeliveries(old(orElseCallback), old(onCompletionQueue), result)
      ensures orElseCallback == None && onCompletionQueue == []
      ensures done == old(done) && value == old(value) && error == old(error)
      ensures onSuccessQueue == old(onSuccessQueue) && onFailureQueue == old(onFailureQueue) && canceled == old(canceled)
      ensures mapped == old(mapped) && flatMapped == old(flatMapped) && scope.all == old(scope.all)
      ensures forall k :: 0 <= k < |mapped| ==> mapped[k].0.Snapshot() == old(mapped[k].0.Snapshot())
      ensures forall k :: 0 <= k < |flatMapped| && flatMapped[k].0 !in targets ==>
        flatMapped[k].0.Snapshot() == old(flatMapped[k].0.Snapshot())
      ensures scope.subscriptions == old(scope.subscriptions)
      ensures forall i :: 0 <= i < |scope.all| ==> old(scope.all[i].QueueOk()) ==> scope.all[i].QueueOk()
      ensures (old(orElseCallback).Some? && old(orElseCallback).value.RecoveryHook? &&
               old(orElseCallback).value.target !in Targets(old(onCompletionQueue))) ==>
        var t := old(orElseCallback).value.target;
        CompletedWith(old(t.Snapshot()), t.Snapshot(), RecoverOutcome(result, old(orElseCallback).value.attempt))
      ensures forall k :: 0 <= k < |old(onCompletionQueue)| && old(onCompletionQueue)[k].Relay? ==>
        var t := old(onCompletionQueue)[k].target;
        CompletedWith(old(t.Snapshot()), t.Snapshot(), result)
    {
      ghost var hook, queue, log := orElseCallback, onCompletionQueue, scope.log;
      FireHook(result);
      Drain(result);
      assert (log + HookNote(hook, OfTry(result))) + Notifications(queue, OfTry(result)) ==
        log + (HookNote(hook, OfTry(result)) + Notifications(queue, OfTry(result)));
    }

    /** The child loops of the background pass: every `map` child is
        settled and every `flatMap` child failed or subscribed. The promises
        in `spare`, which are neither kind of child, keep their state. */
    method SettleChildren(result: Try<Value>, ghost spare: set<Promise>, ghost kids: set<Promise>, ghost inners: set<Promise>)
      requires MapReady() && FlatReady(scope.all) && FlatDistinct() && Records(result)
      requires forall c :: c in spare ==> c.kind != MapChild && c !in FlatKids()
      requires kids == MapKids() + FlatKids() && inners == Inners(value)
      modifies scope`log, kids`done, kids`value, kids`error, inners`onCompletionQueue, scope`subscriptions
      ensures scope.log == old(scope.log) && onCompletionQueue == old(onCompletionQueue)
      ensures done == old(done) && value == old(value) && error == old(error)
      ensures onSuccessQueue == old(onSuccessQueue) && onFailureQueue == old(onFailureQueue) && canceled == old(canceled)
      ensures mapped == old(mapped) && flatMapped == old(flatMapped) && scope.all == old(scope.all)
      ensures forall c :: c in spare ==> c.Snapshot() == old(c.Snapshot())
      ensures forall k :: 0 <= k < |old(mapped)| ==>
        var c := old(mapped)[k].0;
        SettledFrom(old(c.Snapshot()), c.Snapshot(), Tries.Map(result, old(mapped)[k].1))
      ensures result.Failure? ==> forall k :: 0 <= k < |old(flatMapped)| ==>
        var c := old(flatMapped)[k].0;
        SettledFrom(old(c.Snapshot()), c.Snapshot(), result)
      ensures result.Failure? ==> forall k :: 0 <= k < |old(flatMapped)| ==> old(flatMapped)[k].0.done
      ensures result.Success? ==>
        scope.subscriptions == old(scope.subscriptions) + Relays(old(flatMapped), scope.all, value)
      ensures forall k :: |old(scope.subscriptions)| <= k < |scope.subscriptions| ==>
        Subscribed(scope.subscriptions[k].0, scope.subscriptions[k].1)
      ensures result.Failure? ==> scope.subscriptions == old(scope.subscriptions)
      ensures result.Success? ==> var rs := Relays(old(flatMapped), scope.all, value);
        forall k :: 0 <= k < |rs| && rs[k].1 !in kids ==>
          Relayed(old(rs[k].0.Snapshot()), rs[k].0, old(rs[k].1.Snapshot()), rs[k].1)
      ensures forall i :: 0 <= i < |scope.all| ==> old(scope.all[i].QueueOk()) ==> scope.all[i].QueueOk()
      ensures forall q :: q in inners ==> Grown(old(q.onCompletionQueue), q.onCompletionQueue, kids)
    {
      SettleMapped(result);
      match result {
        case Success(_) => SettleFlatMappedSuccess();
        case Failure(e) => SettleFlatMappedFailure(e);
      }
    }

    /** The child half of the background pass: the child loops, then both
        composition lists are emptied. */
    method SettleAndClear(result: Try<Value>, ghost spare: set<Promise>, ghost kids: set<Promise>, ghost inners: set<Promise>)
      requires scope.Valid() && scope.Registered(this) && Records(result)
      requires forall c :: c in spare ==> c.kind != MapChild && c !in FlatKids()
      requires kids == MapKids() + FlatKids() && inners == Inners(value)
      modifies this`mapped, this`flatMapped, scope`log, kids`done, kids`value, kids`error,
        inners`onCompletionQueue, scope`subscriptions
      ensures scope.log == old(scope.log) && onCompletionQueue == old(onCompletionQueue)
      ensures orElseCallback == old(orElseCallback)
      ensures done == old(done) && value == old(value) && error == old(error)
      ensures onSuccessQueue == old(onSuccessQueue) && onFailureQueue == old(onFailureQueue) && canceled == old(canceled)
      ensures scope.Valid() && scope.all == old(scope.all) && mapped == [] && flatMapped == []
      ensures forall c :: c in spare ==> c.Snapshot() == old(c.Snapshot())
      ensures forall k :: 0 <= k < |old(mapped)| ==>
        var c := old(mapped)[k].0;
        SettledFrom(old(c.Snapshot()), c.Snapshot(), Tries.Map(result, old(mapped)[k].1))
      ensures result.Failure? ==> forall k :: 0 <= k < |old(flatMapped)| ==>
        var c := old(flatMapped)[k].0;
        SettledFrom(old(c.Snapshot()), c.Snapshot(), result)
      ensures result.Failure? ==> forall k :: 0 <= k < |old(flatMapped)| ==> old(flatMapped)[k].0.done
      ensures result.Success? ==>
        scope.subscriptions == old(scope.subscriptions) + Relays(old(flatMapped), scope.all, value)
      ensures forall k :: |old(scope.subscriptions)| <= k < |scope.subscriptions| ==>
        Subscribed(scope.subscriptions[k].0, scope.subscriptions[k].1)
      ensures result.Failure? ==> scope.subscriptions == old(scope.subscriptions)
      ensures result.Success? ==> var rs := Relays(old(flatMapped), scope.all, value);
        forall k :: 0 <= k < |rs| && rs[k].1 !in kids ==>
          Relayed(old(rs[k].0.Snapshot()), rs[k].0, old(rs[k].1.Snapshot()), rs[k].1)
      ensures forall i :: 0 <= i < |scope.all| ==> old(scope.all[i].QueueOk()) ==> scope.all[i].QueueOk()
      ensures forall q :: q in inners ==> Grown(old(q.onCompletionQueue), q.onCompletionQueue, kids)
    {
      ReadyOfValid();
      SettleChildren(result, spare, kids, inners);
      ClearChildren();
    }

    /** `completeAsync(result)`, the background pass: fires the recovery hook
        at most once and clears it, fires every completion callback in
        registration order, settles each `map` and `flatMap` child, and leaves
        the completion queue and both composition lists empty. */
    method CompleteAsync(result: Try<Value>)
      requires scope.Valid() && scope.Registered(this) && QueueOk() && Records(result)
      requires FlatReady(scope.all)
      modifies this`orElseCallback, this`onCompletionQueue, this`mapped, this`flatMapped,
        scope`log, scope`subscriptions, HookTarget()`done, HookTarget()`value, HookTarget()`error,
        Targets(onCompletionQueue)`done, Targets(onCompletionQueue)`value,
        Targets(onCompletionQueue)`error, MapKids()`done, MapKids()`value, MapKids()`error,
        FlatKids()`done, FlatKids()`value, FlatKids()`error, Inners(value)`onCompletionQueue
      ensures scope.Valid() && scope.all == old(scope.all) && value == old(value)
      ensures result.Success? ==> var rs := Relays(old(flatMapped), scope.all, value);
        forall k :: (0 <= k < |rs| && rs[k].0 !in old(CallbackTargets()) &&
                     rs[k].1 !in old(MapKids() + FlatKids() + CallbackTargets())) ==>
          Relayed(old(rs[k].0.Snapshot()), rs[k].0, old(rs[k].1.Snapshot()), rs[k].1)
      ensures forall i :: 0 <= i < |scope.all| ==> old(scope.all[i].QueueOk()) ==> scope.all[i].QueueOk()
      ensures forall q :: q in old(Inners(value)) && q != this ==>
        Grown(old(q.onCompletionQueue), q.onCompletionQueue, old(MapKids() + FlatKids()))
      ensures scope.log == old(scope.log) + AsyncDeliveries(old(orElseCallback), old(onCompletionQueue), result)
      ensures orElseCallback == None && onCompletionQueue == [] && mapped == [] && flatMapped == []
      ensures done && value == old(value) && error == old(error) && canceled == old(canceled)
      ensures onSuccessQueue == old(onSuccessQueue) && onFailureQueue == old(onFailureQueue)
      ensures forall k :: 0 <= k < |old(mapped)| ==>
        var c := old(mapped)[k].0;
        SettledFrom(old(c.Snapshot()), c.Snapshot(), Tries.Map(result, old(mapped)[k].1))
      ensures result.Failure? ==> forall k :: 0 <= k < |old(flatMapped)| ==> old(flatMapped)[k].0.done
      ensures result.Failure? ==> forall k :: 0 <= k < |old(flatMapped)| ==>
        var c := old(flatMapped)[k].0;
        c !in old(CallbackTargets()) ==> SettledFrom(old(c.Snapshot()), c.Snapshot(), result)
      ensures result.Success? ==>
        scope.subscriptions == old(scope.subscriptions) + Relays(old(flatMapped), scope.all, value)
      ensures forall k :: |old(scope.subscriptions)| <= k < |scope.subscriptions| ==>
        Subscribed(scope.subscriptions[k].0, scope.subscriptions[k].1)
      ensures result.Failure? ==> scope.subscriptions == old(scope.subscriptions)
      ensures (old(orElseCallback).Some? && old(orElseCallback).value.RecoveryHook? &&
               old(orElseCallback).value.target !in Targets(old(onCompletionQueue))) ==>
        var t := old(orElseCallback).value.target;
        CompletedWith(old(t.Snapshot()), t.Snapshot(), RecoverOutcome(result, old(orElseCallback).value.attempt))
      ensures forall k :: 0 <= k < |old(onCompletionQueue)| && old(onCompletionQueue)[k].Relay? ==>
        var t := old(onCompletionQueue)[k].target;
        t !in old(FlatKids()) ==> CompletedWith(old(t.Snapshot()), t.Snapshot(), result)
    {
      KindsOfValid();
      ghost var hook, targets, spare := orElseCallback, CallbackTargets(), CallbackTargets() - FlatKids();
      ghost var kids, inners := MapKids() + FlatKids(), Inners(value);
      if hook.Some? && hook.value.RecoveryHook? {
        assert hook.value.target in spare;
      }
      Notify(result, targets);
      label notified:
      SettleAndClear(result, spare, kids, inners);
      if hook.Some? && hook.value.RecoveryHook? {
        var t := hook.value.target;
        assert t.Snapshot() == old@notified(t.Snapshot());
      }
    }

    /** `completeOnUi(result)`, the coordinator pass: fires the queue that
        matches the variant and empties both. */
    method CompleteOnUi(result: Try<Value>)
      requires Records(result)
      modifies this`onSuccessQueue, this`onFailureQueue, scope`log
      ensures scope.log == old(scope.log) + UiDeliveries(old(onSuccessQueue), old(onFailureQueue), result)
      ensures onSuccessQueue == [] && onFailureQueue == []
    {
      match result {
        case Success(_) =>
          for n := 0 to |onSuccessQueue|
            invariant scope.log == old(scope.log) + ToDeliveries(onSuccessQueue[..n], OfValue(value))
          {
            assert ToDeliveries(onSuccessQueue[..n + 1], OfValue(value)) ==
              ToDeliveries(onSuccessQueue[..n], OfValue(value)) + [Delivery(onSuccessQueue[n], OfValue(value))];
            scope.log := scope.log + [Delivery(onSuccessQueue[n], OfValue(value))];
          }
          assert onSuccessQueue[..|onSuccessQueue|] == onSuccessQueue;
        case Failure(e) =>
          for n := 0 to |onFailureQueue|
            invariant scope.log == old(scope.log) + ToDeliveries(onFailureQueue[..n], OfError(e))
          {
            assert ToDeliveries(onFailureQueue[..n + 1], OfError(e)) ==
              ToDeliveries(onFailureQueue[..n], OfError(e)) + [Delivery(onFailureQueue[n], OfError(e))];
            scope.log := scope.log + [Delivery(onFailureQueue[n], OfError(e))];
          }
          assert onFailureQueue[..|onFailureQueue|] == onFailureQueue;
      }
      onFailureQueue := [];
      onSuccessQueue := [];
    }

    /** `orElse(fn)`: a done promise fires the hook at once with its try;
        a pending one installs it in the single slot, replacing any earlier
        hook. */
    method OrElse(cb: Callback)
      requires Routable(cb, this)
      modifies this`orElseCallback, scope`log, Target(cb)`done, Target(cb)`value,
        Target(cb)`error
      ensures old(QueueOk()) ==> QueueOk()
      ensures old(done) ==> (orElseCallback == old(orElseCallback) &&
        scope.log == old(scope.log) + Note(cb, OfTry(old(Recorded()))))
      ensures old(done) && !cb.Listener? ==>
        CompletedWith(old(cb.target.Snapshot()), cb.target.Snapshot(),
          if cb.Relay? then old(Recorded()) else RecoverOutcome(old(Recorded()), cb.attempt))
      ensures !old(done) ==> (orElseCallback == Some(cb) && scope.log == old(scope.log) &&
        unchanged(Target(cb)))
    {
      if done {
        scope.Fire(cb, Create(value, error));
      } else {
        orElseCallback := Some(cb);
      }
    }

    /** `onComplete(fn)`: a done promise fires the callback at once with its
        try; a pending one queues it for the background pass. */
    method OnComplete(cb: Callback)
      requires Routable(cb, this)
      modifies this`onCompletionQueue, scope`log, Target(cb)`done, Target(cb)`value,
        Target(cb)`error
      ensures old(QueueOk()) ==> QueueOk()
      ensures old(done) ==> (onCompletionQueue == old(onCompletionQueue) &&
        scope.log == old(scope.log) + Note(cb, OfTry(old(Recorded()))))
      ensures old(done) && !cb.Listener? ==>
        CompletedWith(old(cb.target.Snapshot()), cb.target.Snapshot(),
          if cb.Relay? then old(Recorded()) else RecoverOutcome(old(Recorded()), cb.attempt))
      ensures !old(done) ==> (onCompletionQueue == old(onCompletionQueue) + [cb] &&
        scope.log == old(scope.log) && unchanged(Target(cb)))
    {
      if done {
        scope.Fire(cb, Create(value, error));
      } else {
        onCompletionQueue := onCompletionQueue + [cb];
      }
    }

    /** `onSuccess(fn)`: fires at once after a success, is dropped after a
        failure, and is queued for the coordinator pass while pending. */
    method OnSuccess(listener: nat)
      modifies this`onSuccessQueue, scope`log
      ensures old(done) && old(error).None? ==> (onSuccessQueue == old(onSuccessQueue) &&
        scope.log == old(scope.log) + [Delivery(listener, OfValue(value))])
      ensures old(done) && old(error).Some? ==> (onSuccessQueue == old(onSuccessQueue) &&
        scope.log == old(scope.log))
      ensures !old(done) ==> (onSuccessQueue == old(onSuccessQueue) + [listener] &&
        scope.log == old(scope.log))
    {
      if done && error.None? {
        scope.log := scope.log + [Delivery(listener, OfValue(value))];
      } else if !done {
        onSuccessQueue := onSuccessQueue + [listener];
      }
    }

    /** `onFailure(fn)`: fires at once after a failure, is dropped after a
        success, and is queued for the coordinator pass while pending. */
    method OnFailure(listener: nat)
      modifies this`onFailureQueue, scope`log
      ensures old(done) && old(error).Some? ==> (onFailureQueue == old(onFailureQueue) &&
        scope.log == old(scope.log) + [Delivery(listener, OfError(old(error).value))])
      ensures old(done) && old(error).None? ==> (onFailureQueue == old(onFailureQueue) &&
        scope.log == old(scope.log))
      ensures !old(done) ==> (onFailureQueue == old(onFailureQueue) + [listener] &&
        scope.log == old(scope.log))
    {
      if done && error.Some? {
        scope.log := scope.log + [Delivery(listener, OfError(error.value))];
      } else if !done {
        onFailureQueue := onFailureQueue + [listener];
      }
    }

    /** `map(fn)`: a done promise completes the child at once with `Try.map`
        of its try by `fn`; a pending one queues the pair for the background
        pass. */
    method Map(fn: Value -> Value) returns (child: Promise)
      requires scope.Valid() && scope.Registered(this)
      modifies scope`all, this`mapped
      ensures scope.Valid() && fresh(child) && scope.all == old(scope.all) + [child]
      ensures child.scope == scope && child.kind == MapChild && child.owner == id
      ensures !child.canceled && child.orElseCallback == None && child.onCompletionQueue == []
      ensures child.onSuccessQueue == [] && child.onFailureQueue == []
      ensures child.mapped == [] && child.flatMapped == []
      ensures child.done == old(done)
      ensures old(done) ==> mapped == old(mapped) && child.Recorded() == Tries.Map(old(Recorded()), fn)
      ensures !old(done) ==> mapped == old(mapped) + [(child, fn)] && child.value == Null && child.error == None
    {
      child := new Promise(scope, id, MapChild);
      if done {
        if error.Some? {
          child.Failure(error);
        } else {
          child.Success(fn(value));
        }
      } else {
        mapped := mapped + [(child, fn)];
        assert scope.all[id] == this;
      }
    }

    /** `flatMap(fn)`: a done failure fails the fresh child at once; a done
        success bypasses the child and returns the inner future `fn(value)`
        names; a pending promise queues the pair for the background pass.
        The inner futures belong to the same family. */
    method FlatMap(fn: Value -> nat) returns (r: Promise)
      requires scope.Valid() && scope.Registered(this)
      requires forall v :: fn(v) < |scope.all|
      modifies scope`all, this`flatMapped
      ensures scope.Valid() && |scope.all| == |old(scope.all)| + 1 && old(scope.all) <= scope.all
      ensures fresh(scope.all[|old(scope.all)|]) && scope.all[|old(scope.all)|].kind == FlatChild
      ensures var c := scope.all[|old(scope.all)|];
        && c.scope == scope && c.owner == id && !c.canceled && c.orElseCallback == None
        && c.onCompletionQueue == [] && c.onSuccessQueue == [] && c.onFailureQueue == []
        && c.mapped == [] && c.flatMapped == []
      ensures old(done) && old(error).Some? ==> (r == scope.all[|old(scope.all)|] &&
        flatMapped == old(flatMapped) && r.done && r.Recorded() == Try.Failure(old(error).value))
      ensures old(done) && old(error).None? ==> r == scope.all[fn(old(value))] && flatMapped == old(flatMapped)
      ensures !old(done) ==> (r == scope.all[|old(scope.all)|] && !r.done && r.value == Null &&
        r.error == None && flatMapped == old(flatMapped) + [(r, fn)])
    {
      var child := new Promise(scope, id, FlatChild);
      r := child;
      if done {
        if error.Some? {
          child.Failure(error);
        } else {
          r := scope.all[fn(value)];
        }
      } else {
        flatMapped := flatMapped + [(child, fn)];
        assert scope.all[id] == this;
      }
    }

    /** `cancel(b)`: when not done, the three queues are emptied; every child
        still in `mapped` or `flatMapped` is cancelled (done or not);
        when not done, both lists are emptied and `canceled` is set. Never sets
        `done`; reports whether the promise was not done. */
    method Cancel() returns (r: bool)
      requires scope.Valid() && scope.Registered(this)
      modifies scope.From(id)`canceled, scope.From(id)`onCompletionQueue, scope.From(id)`onSuccessQueue,
        scope.From(id)`onFailureQueue, scope.From(id)`mapped, scope.From(id)`flatMapped
      decreases |scope.all| - id, 3
      ensures scope.Valid()
      ensures r == !old(done)
      ensures done == old(done) && value == old(value) && error == old(error)
      ensures !old(done) ==> Registrations() == Cleared
      ensures old(done) ==> Registrations() == old(Registrations())
      ensures orElseCallback == old(orElseCallback)
      ensures forall k :: 0 <= k < |old(mapped)| ==>
        old(mapped)[k].0.done || old(mapped)[k].0.Registrations() == Cleared
      ensures forall k :: 0 <= k < |old(flatMapped)| ==>
        old(flatMapped)[k].0.done || old(flatMapped)[k].0.Registrations() == Cleared
      ensures forall i :: 0 <= i < |scope.all| ==>
        KeptOrCleared(old(scope.all[i].Registrations()), scope.all[i].Registrations(), scope.all[i].done)
      ensures forall i :: 0 <= i < |scope.all| && !scope.Descends(i, id) ==>
        scope.all[i].Registrations() == old(scope.all[i].Registrations())
      ensures forall i :: 0 <= i < |scope.all| ==> old(scope.all[i].QueueOk()) ==> scope.all[i].QueueOk()
    {
      if !done {
        ClearQueues();
      }
      CancelChildren();
      if !done {
        ClearChildren();
        MarkCanceled();
      }
      r := !done;
    }

    /** The first step of `cancel` on a pending promise: the three callback
        queues are emptied. */
    method ClearQueues()
      requires scope.Valid()
      modifies this`onCompletionQueue, this`onSuccessQueue, this`onFailureQueue
      ensures scope.Valid()
      ensures onCompletionQueue == [] && onSuccessQueue == [] && onFailureQueue == []
    {
      onCompletionQueue, onSuccessQueue, onFailureQueue := [], [], [];
    }

    method MarkCanceled()
      requires scope.Valid()
      modifies this`canceled
      ensures scope.Valid() && canceled
    {
      canceled := true;
    }

    /** The two child loops of `cancel`: every child still listed in
        `mapped` or `flatMapped` is cancelled, and this promise and every
        older one are left as they were. */
    method CancelChildren()
      requires scope.Valid() && scope.Registered(this)
      modifies scope.From(id + 1)`canceled, scope.From(id + 1)`onCompletionQueue, scope.From(id + 1)`onSuccessQueue,
        scope.From(id + 1)`onFailureQueue, scope.From(id + 1)`mapped, scope.From(id + 1)`flatMapped
      decreases |scope.all| - id, 2
      ensures unchanged(this)
      ensures scope.Valid()
      ensures forall k :: 0 <= k < |mapped| ==> mapped[k].0.done || mapped[k].0.Registrations() == Cleared
      ensures forall k :: 0 <= k < |flatMapped| ==>
        flatMapped[k].0.done || flatMapped[k].0.Registrations() == Cleared
      ensures forall i :: 0 <= i < |scope.all| ==>
        KeptOrCleared(old(scope.all[i].Registrations()), scope.all[i].Registrations(), scope.all[i].done)
      ensures forall i :: 0 <= i < |scope.all| && !scope.Descends(i, id) ==>
        scope.all[i].Registrations() == old(scope.all[i].Registrations())
      ensures forall i :: 0 <= i < |scope.all| ==> old(scope.all[i].QueueOk()) ==> scope.all[i].QueueOk()
    {
      assert scope.all[id].Linked(scope.all);
      scope.CancelAll(id, Firsts(mapped));
      scope.CancelAll(id, Firsts(flatMapped));
    }



    /** `isFailed()`: an error is recorded. */
    function IsFailed(): (r: bool)
      reads this`value, this`error
      ensures r <==> Recorded().Failure?
    {
      error.Some?
    }

    /** `getValue()`: fails when not done or failed, then when canceled
        (a canceled promise that was completed afterwards); otherwise the
        value. */
    function GetValue(): (r: Checked<Value>)
      reads this
      ensures r.Ok? <==> done && Recorded().Success? && !canceled
      ensures r.Ok? ==> r.value == value && Recorded() == Try.Success(r.value)
      ensures r == Err(Canceled) <==> done && !IsFailed() && canceled
      ensures !done || IsFailed() ==> r == Err(NotDone)
    {
      if !done || IsFailed() then Err(NotDone)
      else if canceled then Err(Canceled)
      else Ok(value)
    }

    /** `getError()`: fails only when neither done nor failed; otherwise the
        (nullable) error. */
    function GetError(): (r: Checked<Option<Throwable>>)
      reads this
      ensures r.Err? <==> !done && error.None?
      ensures r.Err? ==> r.err == DidNotFail
      ensures done ==> r == Ok(ErrorOf(Recorded()))
      ensures r.Ok? ==> r.value == error
    {
      if !done && !IsFailed() then Err(DidNotFail) else Ok(error)
    }
  }
}
