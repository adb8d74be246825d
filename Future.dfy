/** The combinators of Future.java built on promises: `create`, `recover`,
    `sequence` (see module `Sequences`) and `join`. A computation the
    library runs on a worker thread is given by the try its single run
    produces. */
module Futures {
  import opened Tries
  import opened Promises
  import opened Sequences

  /** `Promise.create(value)`: a fresh promise already succeeded with
      `value`; both delivery passes are owed and have nothing to fire. */
  method Of(s: Scope, v: Value) returns (p: Promise)
    requires s.Valid()
    modifies s`all
    ensures s.Valid() && fresh(p) && s.all == old(s.all) + [p] && p.scope == s
    ensures p.done && p.Recorded() == Success(v) && !p.canceled
    ensures p.orElseCallback == None && p.onCompletionQueue == [] && p.onSuccessQueue == []
    ensures p.onFailureQueue == [] && p.mapped == [] && p.flatMapped == []
  {
    p := new Promise(s, -1, Root);
    p.Success(v);
  }

  /** `Future.create(callable)` once its task has run: the promise succeeds
      with the value the callable returned (possibly `Null`), or fails with
      what it threw. */
  method Create(s: Scope, outcome: Try<Value>) returns (p: Promise)
    requires s.Valid()
    modifies s`all
    ensures s.Valid() && fresh(p) && s.all == old(s.all) + [p] && p.scope == s
    ensures p.done && p.Recorded() == outcome && !p.canceled
    ensures p.orElseCallback == None && p.onCompletionQueue == [] && p.onSuccessQueue == []
    ensures p.onFailureQueue == [] && p.mapped == [] && p.flatMapped == []
  {
    p := new Promise(s, -1, Root);
    match outcome {
      case Success(v) => p.Success(v);
      case Failure(e) => p.Failure(Some(e));
    }
  }

  /** `p.recover(recovery)`, where `attempt` is what the one run of
      `recovery` produces: a fresh result promise, and the hook installed
      with `orElse`. A done `p` fires the hook at once; a pending one keeps
      it for its background pass. */
  method Recover(p: Promise, attempt: Try<Value>) returns (r: Promise)
    requires p.scope.Valid() && p.scope.Registered(p)
    modifies p.scope`all, p`orElseCallback, p.scope`log
    ensures p.scope.Valid() && fresh(r) && p.scope.all == old(p.scope.all) + [r]
    ensures r.scope == p.scope && r.kind == RecoverChild && !r.canceled
    ensures r.orElseCallback == None && r.onCompletionQueue == [] && r.onSuccessQueue == []
    ensures r.onFailureQueue == [] && r.mapped == [] && r.flatMapped == []
    ensures p.scope.log == old(p.scope.log)
    ensures old(p.QueueOk()) ==> p.QueueOk()
    ensures old(p.done) ==> (p.orElseCallback == old(p.orElseCallback) && r.done &&
      r.Recorded() == RecoverOutcome(old(p.Recorded()), attempt))
    ensures !old(p.done) ==> (p.orElseCallback == Some(RecoveryHook(r, attempt)) && !r.done &&
      r.Recorded() == Success(Null))
  {
    r := new Promise(p.scope, p.id, RecoverChild);
    p.OrElse(RecoveryHook(r, attempt));
  }

  /** The transform `join` maps the aggregate with: it discards the list. */
  function Discard(items: Value): (r: Value)
    ensures r == Null
  {
    Null
  }

  /** `join(list)` over `count` inputs: `sequence(list).map(discard)`.
      The aggregate is pending, so the `map` child waits in its `mapped`
      list for the aggregate's background pass. */
  method Join(s: Scope, count: nat) returns (agg: Aggregator, joined: Promise)
    requires s.Valid()
    modifies s`all
    ensures fresh(agg) && fresh(agg.items) && fresh(agg.promise)
    ensures agg.Valid() && agg.arrivals == [] && agg.count == count
    ensures s.Valid() && s.all == old(s.all) + [agg.promise, joined]
    ensures fresh(joined) && joined.kind == MapChild && !joined.done
    ensures joined.scope == s && joined.owner == agg.promise.id
    ensures joined.value == Null && joined.error == None && !joined.canceled
    ensures joined.orElseCallback == None && joined.onCompletionQueue == []
    ensures joined.onSuccessQueue == [] && joined.onFailureQueue == []
    ensures joined.mapped == [] && joined.flatMapped == [] && joined.QueueOk()
    ensures agg.promise.mapped == [(joined, Discard)] && agg.promise.flatMapped == []
    ensures !agg.promise.done && agg.promise.orElseCallback == None && agg.promise.onCompletionQueue == []
  {
    agg := new Aggregator(s, count);
    joined := agg.promise.Map(Discard);
  }

  /** What `join` completes with, once every one of its `count > 0` inputs
      has completed (each once, in any order): `Null` when all of them
      succeeded, otherwise the error of the first failure to arrive. */
  lemma JoinOutcome(count: nat, arrivals: seq<Arrival>)
    requires InRange(count, arrivals) && Distinct(arrivals) && 0 < |arrivals| == count
    ensures Replay(count, arrivals).outcome.Some?
    ensures (forall k :: 0 <= k < |arrivals| ==> arrivals[k].outcome.Success?) ==>
      Tries.Map(Replay(count, arrivals).outcome.value, Discard) == Success(Null)
    ensures (exists k :: 0 <= k < |arrivals| && arrivals[k].outcome.Failure?) ==>
      Tries.Map(Replay(count, arrivals).outcome.value, Discard) ==
        Failure(arrivals[FirstFailure(arrivals)].outcome.error)
  {
    SucceedsIffAll(count, arrivals);
    if exists k :: 0 <= k < |arrivals| && arrivals[k].outcome.Failure? {
      FirstFailureWins(count, arrivals, FirstFailure(arrivals));
    }
  }
}
