/** `Future.sequence` (Future.java:118-148): an aggregate promise over `count`
    inputs. Each input's completion callback writes a success into its slot
    of `items` and counts it, completing the aggregate with the whole list
    once every input has succeeded; a failure fails the aggregate at once.
    The aggregate is completed through the guarded `success`/`failure`, so
    whatever completes it first persists. */
module Sequences {
  import opened Tries
  import opened Promises

  /** The completion of input `index` with `outcome`. */
  datatype Arrival = Arrival(index: nat, outcome: Try<Value>)

  /** The aggregator's state: the slots, the success counter, and the
      aggregate's try once it is completed. */
  datatype Aggregate = Aggregate(items: seq<Value>, completed: nat, outcome: Option<Try<Value>>)

  /** Before any input completes: `count` empty slots, nothing counted. */
  function Start(count: nat): (a: Aggregate)
    ensures |a.items| == count && a.completed == 0 && a.outcome == None
    ensures forall i :: 0 <= i < count ==> a.items[i] == Null
  {
    Aggregate(seq(count, _ => Null), 0, None)
  }

  /** The completion of a guarded `success`/`failure` with `t`: only the
      first one counts. */
  function Settle(outcome: Option<Try<Value>>, t: Try<Value>): Option<Try<Value>>
  {
    if outcome.None? then Some(t) else outcome
  }

  /** One run of the callback registered on input `arrival.index`. */
  function Step(count: nat, a: Aggregate, arrival: Arrival): (r: Aggregate)
    requires arrival.index < |a.items|
    ensures |r.items| == |a.items|
    ensures a.outcome.Some? ==> r.outcome == a.outcome
    ensures forall i :: 0 <= i < |a.items| && i != arrival.index ==> r.items[i] == a.items[i]
    ensures arrival.outcome.Success? ==>
      r.items[arrival.index] == arrival.outcome.value && r.completed == a.completed + 1 &&
      (a.outcome.None? ==> (r.outcome.Some? <==> r.completed == count))
    ensures arrival.outcome.Failure? ==>
      r.items == a.items && r.completed == a.completed &&
      (a.outcome.None? ==> r.outcome == Some(arrival.outcome))
  {
    match arrival.outcome
    case Success(v) =>
      var items := a.items[arrival.index := v];
      var completed := a.completed + 1;
      Aggregate(items, completed,
        if count == completed then Settle(a.outcome, Success(Items(items))) else a.outcome)
    case Failure(e) =>
      Aggregate(a.items, a.completed, Settle(a.outcome, Failure(e)))
  }

  /** Every arrival names one of the `count` inputs. */
  ghost predicate InRange(count: nat, arrivals: seq<Arrival>)
  {
    forall k :: 0 <= k < |arrivals| ==> arrivals[k].index < count
  }

  /** Each input completes at most once: the callbacks fire once each. */
  ghost predicate Distinct(arrivals: seq<Arrival>)
  {
    forall j, k :: 0 <= j < k < |arrivals| ==> arrivals[j].index != arrivals[k].index
  }

  /** The state after the arrivals, in the order they happened. */
  function Replay(count: nat, arrivals: seq<Arrival>): (a: Aggregate)
    requires InRange(count, arrivals)
    ensures |a.items| == count
    ensures a.completed <= |arrivals|
    decreases |arrivals|
  {
    if arrivals == [] then Start(count)
    else Step(count, Replay(count, arrivals[..|arrivals| - 1]), arrivals[|arrivals| - 1])
  }

  /** Once the aggregate is completed, later arrivals cannot change it. */
  lemma {:induction false} ReplayFrozen(count: nat, arrivals: seq<Arrival>, more: seq<Arrival>)
    requires InRange(count, arrivals + more)
    requires InRange(count, arrivals) && Replay(count, arrivals).outcome.Some?
    ensures Replay(count, arrivals + more).outcome == Replay(count, arrivals).outcome
    decreases |more|
  {
    if more == [] {
      assert arrivals + more == arrivals;
    } else {
      var all := arrivals + more;
      var more' := more[..|more| - 1];
      assert all[..|all| - 1] == arrivals + more';
      assert InRange(count, arrivals + more') by {
        forall k | 0 <= k < |arrivals + more'|
          ensures (arrivals + more')[k].index < count
        {
          assert (arrivals + more')[k] == all[k];
        }
      }
      ReplayFrozen(count, arrivals, more');
    }
  }

  /** While only successes arrive, for distinct inputs: the counter is the
      number of arrivals, each arrived value sits in its input's slot, every
      other slot is untouched, and the aggregate completes exactly when the
      count is reached. */
  lemma {:induction false} ReplaySuccesses(count: nat, arrivals: seq<Arrival>)
    requires InRange(count, arrivals) && Distinct(arrivals)
    requires forall k :: 0 <= k < |arrivals| ==> arrivals[k].outcome.Success?
    ensures Replay(count, arrivals).completed == |arrivals|
    ensures forall k :: 0 <= k < |arrivals| ==>
      Replay(count, arrivals).items[arrivals[k].index] == arrivals[k].outcome.value
    ensures forall i :: 0 <= i < count && (forall k :: 0 <= k < |arrivals| ==> arrivals[k].index != i) ==>
      Replay(count, arrivals).items[i] == Null
    ensures |arrivals| < count ==> Replay(count, arrivals).outcome == None
    ensures 0 < |arrivals| == count ==>
      Replay(count, arrivals).outcome == Some(Success(Items(Replay(count, arrivals).items)))
    decreases |arrivals|
  {
    if arrivals != [] {
      var init := arrivals[..|arrivals| - 1];
      var last := arrivals[|arrivals| - 1];
      assert forall k :: 0 <= k < |init| ==> init[k] == arrivals[k];
      ReplaySuccesses(count, init);
      var a := Replay(count, init);
      var r := Replay(count, arrivals);
      assert r == Step(count, a, last);
      forall k | 0 <= k < |arrivals|
        ensures r.items[arrivals[k].index] == arrivals[k].outcome.value
      {
        if k < |arrivals| - 1 {
          assert arrivals[k].index != last.index;
        }
      }
      if |arrivals| == count {
        assert a.outcome == None && a.completed + 1 == count;
        assert r.outcome == Settle(a.outcome, Success(Items(r.items)));
      }
    }
  }

  /** In any order of arrival, when every one of the `count` inputs
      succeeds the aggregate succeeds with the list holding input i's value
      at index i. (With no inputs nothing ever arrives, see
      `SucceedsIffAll`.) */
  lemma AllSucceed(count: nat, arrivals: seq<Arrival>)
    requires InRange(count, arrivals) && Distinct(arrivals) && 0 < |arrivals| == count
    requires forall k :: 0 <= k < |arrivals| ==> arrivals[k].outcome.Success?
    ensures Replay(count, arrivals).outcome.Some?
    ensures Replay(count, arrivals).outcome.value.Success?
    ensures Replay(count, arrivals).outcome.value.value.Items?
    ensures |Replay(count, arrivals).outcome.value.value.elems| == count
    ensures forall k :: 0 <= k < |arrivals| ==>
      Replay(count, arrivals).outcome.value.value.elems[arrivals[k].index] == arrivals[k].outcome.value
  {
    ReplaySuccesses(count, arrivals);
  }

  /** The first failure among distinct inputs fails the aggregate with its
      error, and nothing arriving later changes that. */
  lemma FirstFailureWins(count: nat, arrivals: seq<Arrival>, f: nat)
    requires InRange(count, arrivals) && Distinct(arrivals)
    requires f < |arrivals| && arrivals[f].outcome.Failure?
    requires forall k :: 0 <= k < f ==> arrivals[k].outcome.Success?
    ensures Replay(count, arrivals).outcome == Some(Failure(arrivals[f].outcome.error))
  {
    var before := arrivals[..f];
    assert forall k :: 0 <= k < f ==> before[k] == arrivals[k];
    ReplaySuccesses(count, before);
    assert f < count by {
      RoomForAnother(count, before, arrivals[f].index);
    }
    var upto := arrivals[..f + 1];
    assert upto[..f] == before;
    assert InRange(count, upto);
    assert Replay(count, upto).outcome == Some(Failure(arrivals[f].outcome.error));
    assert upto + arrivals[f + 1..] == arrivals;
    ReplayFrozen(count, upto, arrivals[f + 1..]);
  }

  /** `n` distinct inputs below `count`, and one more distinct from them,
      need `n < count`. */
  lemma RoomForAnother(count: nat, arrivals: seq<Arrival>, other: nat)
    requires InRange(count, arrivals) && Distinct(arrivals) && other < count
    requires forall k :: 0 <= k < |arrivals| ==> arrivals[k].index != other
    ensures |arrivals| < count
  {
    var used := set k | 0 <= k < |arrivals| :: arrivals[k].index;
    IndexCount(arrivals);
    assert used + {other} <= Below(count);
    SubsetSize(used + {other}, Below(count));
  }

  lemma {:induction false} IndexCount(arrivals: seq<Arrival>)
    requires Distinct(arrivals)
    ensures |set k | 0 <= k < |arrivals| :: arrivals[k].index| == |arrivals|
    decreases |arrivals|
  {
    if arrivals != [] {
      var init := arrivals[..|arrivals| - 1];
      assert forall k :: 0 <= k < |init| ==> init[k] == arrivals[k];
      IndexCount(init);
      var s := set k | 0 <= k < |init| :: init[k].index;
      assert (set k | 0 <= k < |arrivals| :: arrivals[k].index) == s + {arrivals[|arrivals| - 1].index};
      assert arrivals[|arrivals| - 1].index !in s;
    }
  }

  /** The numbers below `n`. */
  function Below(n: nat): (s: set<nat>)
    ensures |s| == n
    ensures forall x: nat :: x in s <==> x < n
  {
    if n == 0 then {} else Below(n - 1) + {n - 1}
  }

  lemma {:induction false} SubsetSize(a: set<nat>, b: set<nat>)
    requires a <= b
    ensures |a| <= |b|
    decreases |b|
  {
    if a != {} {
      var x :| x in a;
      SubsetSize(a - {x}, b - {x});
    }
  }

  /** For a complete round of distinct arrivals, over at least one input:
      the aggregate succeeds if and only if every input succeeds, and fails
      otherwise. For no inputs the aggregate never completes. */
  lemma SucceedsIffAll(count: nat, arrivals: seq<Arrival>)
    requires InRange(count, arrivals) && Distinct(arrivals) && |arrivals| == count
    ensures count == 0 ==> Replay(count, arrivals).outcome == None
    ensures count > 0 ==> Replay(count, arrivals).outcome.Some?
    ensures count > 0 ==> (Replay(count, arrivals).outcome.value.Success? <==>
      forall k :: 0 <= k < |arrivals| ==> arrivals[k].outcome.Success?)
  {
    if forall k :: 0 <= k < |arrivals| ==> arrivals[k].outcome.Success? {
      ReplaySuccesses(count, arrivals);
    } else {
      var f := FirstFailure(arrivals);
      FirstFailureWins(count, arrivals, f);
    }
  }

  /** The position of the earliest failure. */
  function FirstFailure(arrivals: seq<Arrival>): (f: nat)
    requires exists k :: 0 <= k < |arrivals| && arrivals[k].outcome.Failure?
    ensures f < |arrivals| && arrivals[f].outcome.Failure?
    ensures forall k :: 0 <= k < f ==> arrivals[k].outcome.Success?
  {
    if arrivals[0].outcome.Failure? then 0
    else
      assert exists k :: 0 <= k < |arrivals[1..]| && arrivals[1..][k].outcome.Failure? by {
        var k :| 0 <= k < |arrivals| && arrivals[k].outcome.Failure?;
        assert arrivals[1..][k - 1] == arrivals[k];
      }
      1 + FirstFailure(arrivals[1..])
  }

  /** The slots, the counter and the aggregate promise of one `sequence`
      call. The callbacks on the inputs are the calls of `OnResult`. */
  class Aggregator {
    const count: nat
    const items: array<Value>
    var completed: nat
    const promise: Promise
    /** The arrivals so far, in order. */
    ghost var arrivals: seq<Arrival>

    /** The fields are the replay of the arrivals, and the aggregate is
        completed exactly when the replay completes it, with its try. */
    ghost predicate Valid()
      reads this, items, promise`done, promise`value, promise`error
    {
      && items.Length == count
      && InRange(count, arrivals)
      && items[..] == Replay(count, arrivals).items
      && completed == Replay(count, arrivals).completed
      && promise.done == Replay(count, arrivals).outcome.Some?
      && (!promise.done ==> promise.error == None)
      && (promise.done ==> promise.Recorded() == Replay(count, arrivals).outcome.value)
    }

    /** The setup of `sequence(list)` with `list.size() == count`: a fresh
        pending promise, `count` empty slots and a zero counter. */
    constructor (s: Scope, count: nat)
      requires s.Valid()
      modifies s`all
      ensures Valid() && arrivals == [] && this.count == count && fresh(items)
      ensures s.Valid() && s.all == old(s.all) + [promise] && fresh(promise) && promise.id == |old(s.all)|
      ensures promise.scope == s && promise.kind == Root && promise.QueueOk()
      ensures promise.orElseCallback == None && promise.onCompletionQueue == []
      ensures promise.mapped == [] && promise.flatMapped == [] && !promise.canceled
      ensures !promise.done
    {
      this.count := count;
      items := new Value[count](_ => Null);
      completed := 0;
      promise := new Promise(s, -1, Root);
      arrivals := [];
      new;
      assert items[..] == Start(count).items;
    }

    /** The callback registered on input `i`, run with its try: a success
        fills slot `i`, counts, and completes the aggregate with the list
        when every input has succeeded; a failure fails the aggregate. */
    method OnResult(i: nat, t: Try<Value>)
      requires Valid() && i < count
      modifies items, this`completed, this`arrivals, promise`done, promise`value, promise`error
      ensures Valid() && arrivals == old(arrivals) + [Arrival(i, t)]
    {
      ghost var before := Replay(count, arrivals);
      arrivals := arrivals + [Arrival(i, t)];
      assert arrivals[..|arrivals| - 1] == old(arrivals);
      assert Replay(count, arrivals) == Step(count, before, Arrival(i, t));
      match t {
        case Success(v) =>
          items[i] := v;
          completed := completed + 1;
          if count == completed {
            promise.Success(Items(items[..]));
          }
        case Failure(e) =>
          promise.Failure(Some(e));
      }
    }
  }
}
