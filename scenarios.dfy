/**
 * Short programs against the library, each run on a runtime of its own:
 * they put the promises, `then` and the task queue together and state what
 * the caller observes afterwards.
 */
module Scenarios {
  import opened Values
  import opened Promises

  /** `Promise.resolve(v).then()`: with no handlers, once the one scheduled
      task has run, the new promise holds the same value. */
  method FulfilledPassesThrough(v: JsValue) returns (status: Status, sameValue: bool)
    requires Refs(v) == {} && IsPlain(v)
    ensures status == Fulfilled && sameValue
  {
    var rt := new Runtime();
    var p; ghost var dp;
    p, dp := Promise.ResolvedWith(v, rt);
    var q := p.Then(None, None, rt);
    var job := rt.Next();
    assert job == Some(Job(Identity, p, true, q));
    ghost var outcome, latch, d, latch', d' := RunJob(job.value, Returned(Undefined), rt);
    PlainIffFulfilledAsIs(v, q);
    status, sameValue := q.status, q.value == v;
  }

  /** `Promise.reject(r).then()`: the default failure handler rethrows, so the
      new promise is rejected with the same reason, whatever it is. */
  method RejectedPassesThrough(r: JsValue) returns (status: Status, sameReason: bool)
    requires Refs(r) == {}
    ensures status == Rejected && sameReason
  {
    var rt := new Runtime();
    var p := Promise.RejectedWith(r, rt);
    var q := p.Then(None, None, rt);
    var job := rt.Next();
    assert job == Some(Job(Rethrow, p, false, q));
    ghost var outcome, latch, d, latch', d' := RunJob(job.value, Returned(Undefined), rt);
    status, sameReason := q.status, q.reason == r;
  }

  /** `Promise.reject(r).then(undefined, e => e)`: a failure handler that
      returns the reason recovers, and the new promise is fulfilled with it. */
  method HandlerRecovers(r: JsValue) returns (status: Status, valueIsReason: bool)
    requires Refs(r) == {} && IsPlain(r)
    ensures status == Fulfilled && valueIsReason
  {
    var rt := new Runtime();
    var p := Promise.RejectedWith(r, rt);
    var q := p.Then(None, Some(User(0)), rt);
    var job := rt.Next();
    assert job == Some(Job(User(0), p, false, q));
    ghost var outcome, latch, d, latch', d' := RunJob(job.value, Returned(r), rt);
    PlainIffFulfilledAsIs(r, q);
    status, valueIsReason := q.status, q.value == r;
  }

  /** `then` on a fulfilled promise calls nothing on the spot: the new promise
      is pending and exactly one task waits in the queue. */
  method ThenDefers(v: JsValue) returns (status: Status, queued: nat)
    requires Refs(v) == {} && !v.Promise?
    ensures status == Pending && queued == 1
  {
    var rt := new Runtime();
    var p; ghost var dp;
    p, dp := Promise.ResolvedWith(v, rt);
    var q := p.Then(Some(User(0)), None, rt);
    status := q.status;
    queued := |rt.tasks|;
  }

  /** `p2 = p.then(() => p2)`: the handler's promise resolved with itself is
      rejected with a TypeError; because the cycle check does not return, a
      callback pair is also attached to the rejected promise, whose failure
      task is already in the queue. */
  method SelfResolution(v: JsValue) returns (status: Status, typeError: bool, extraTask: bool)
    requires Refs(v) == {} && !v.Promise?
    ensures status == Rejected && typeError
    ensures extraTask
  {
    var rt := new Runtime();
    var p; ghost var dp;
    p, dp := Promise.ResolvedWith(v, rt);
    var p2 := p.Then(Some(User(0)), None, rt);
    var job := rt.Next();
    assert job == Some(Job(User(0), p, true, p2));
    // the handler returns p2 itself
    ghost var outcome, latch, d, latch', d' := RunJob(job.value, Returned(Promise(p2)), rt);
    status, typeError := p2.status, p2.reason == TypeError;
    var n := |rt.tasks|;
    extraTask := n > 0 && rt.tasks[n - 1].handler.OnFailure? && rt.tasks[n - 1].handler.target == p2;
  }

  /** `Promise.resolve(v).then().then()`: running the first task fulfils the
      middle promise with the value, and that schedules exactly one task,
      the pass-through of the second `then` on the middle promise. */
  method ChainPassesThrough(v: JsValue) returns (status: Status, sameValue: bool, queued: nat, passThrough: bool)
    requires Refs(v) == {} && IsPlain(v)
    ensures status == Fulfilled && sameValue
    ensures queued == 1 && passThrough
  {
    var rt := new Runtime();
    var p; ghost var dp;
    p, dp := Promise.ResolvedWith(v, rt);
    var q := p.Then(None, None, rt);
    var r := q.Then(None, None, rt);
    var job := rt.Next();
    assert job == Some(Job(Identity, p, true, q));
    ghost var outcome, latch, d, latch', d' := RunJob(job.value, Returned(Undefined), rt);
    PlainIffFulfilledAsIs(v, q);
    status, sameValue := q.status, q.value == v;
    queued := |rt.tasks|;
    passThrough := queued > 0 && rt.tasks[0] == Job(Identity, q, true, r);
  }

  /** `Promise.resolve(Promise.resolve(v))`: the outer promise adopts the
      inner, already fulfilled one, so its `resolve` waits as the only task
      in the queue; running that task fulfils it with `v`. */
  method ResolvedWithPromise(v: JsValue) returns (pendingFirst: bool, adopts: bool, status: Status, sameValue: bool)
    requires Refs(v) == {} && !v.Promise?
    ensures pendingFirst && adopts && status == Fulfilled && sameValue
  {
    var rt := new Runtime();
    var q; ghost var dq;
    q, dq := Promise.ResolvedWith(v, rt);
    var p; ghost var d;
    p, d := Promise.ResolvedWith(Promise(q), rt);
    assert rt.tasks == [Job(ResolveOf(p), q, true, d)];
    pendingFirst := p.status == Pending;
    adopts := |rt.tasks| == 1 && rt.tasks[0].handler == ResolveOf(p) && rt.tasks[0].source == q && rt.tasks[0].onFulfilled;
    var job := rt.Next();
    ghost var outcome, latch, d0, latch', d' := RunJob(job.value, Returned(Undefined), rt);
    status, sameValue := p.status, p.value == v;
  }

  /** `new Promise((resolve, reject) => { resolve(v); throw e })`: the throw
      comes after the promise settled and changes nothing. */
  method ThrowAfterResolve(v: JsValue, e: JsValue) returns (status: Status, sameValue: bool)
    requires Refs(v) == {} && Refs(e) == {} && !v.Promise?
    ensures status == Fulfilled && sameValue
  {
    var rt := new Runtime();
    var p; ghost var subs;
    p, subs := Promise.Create([CallResolve(v), Raise(e)], rt);
    status, sameValue := p.status, p.value == v;
  }

  /** `new Promise((resolve, reject) => { throw e })`: rejected with `e`. */
  method ExecutorThrows(e: JsValue) returns (status: Status, sameReason: bool)
    requires Refs(e) == {}
    ensures status == Rejected && sameReason
  {
    var rt := new Runtime();
    var p; ghost var subs;
    p, subs := Promise.Create([Raise(e)], rt);
    status, sameReason := p.status, p.reason == e;
  }

  /** `new Promise(resolve => resolve(thenable))`: the constructor's `resolve`
      adopts only promises of this library, so a foreign thenable becomes
      the value itself. */
  method ForeignThenableKeptAsValue(script: seq<ForeignCall<Promise>>) returns (status: Status, valueIsThenable: bool)
    requires forall k | 0 <= k < |script| :: Refs(CallPayload(script[k])) == {}
    ensures status == Fulfilled && valueIsThenable
  {
    var rt := new Runtime();
    var p; ghost var subs;
    p, subs := Promise.Create([CallResolve(Obj(Method(script)))], rt);
    status, valueIsThenable := p.status, p.value == Obj(Method(script));
  }

  /** `new Promise(resolve => resolve(thenable)).then()` where the thenable's
      `then` calls its success callback with `y`: the promise holds the
      thenable itself, but the pass-through task hands it to the resolution
      procedure, which follows it, so the new promise is fulfilled with `y`
      and not with the thenable. */
  method ThenableValueIsFollowed(y: JsValue) returns (status: Status, valueIsY: bool, valueIsThenable: bool)
    requires Refs(y) == {} && IsPlain(y)
    ensures status == Fulfilled && valueIsY && !valueIsThenable
  {
    var rt := new Runtime();
    var thenable := Obj(Method([CallSuccess(y)]));
    var p; ghost var subs;
    p, subs := Promise.Create([CallResolve(thenable)], rt);
    assert p.Settled() == Some(Fulfillment(thenable));
    var q := p.Then(None, None, rt);
    var job := rt.Next();
    assert job == Some(Job(Identity, p, true, q));
    assert Resolution(thenable, q) == Some(Fulfillment(y));
    ghost var outcome, latch, d, latch', d' := RunJob(job.value, Returned(Undefined), rt);
    PlainIffFulfilledAsIs(y, q);
    status, valueIsY, valueIsThenable := q.status, q.value == y, q.value == thenable;
  }

  /** `Promise.all([])`: nothing is scheduled and the result stays pending. */
  method AllOfNothing() returns (status: Status, queued: nat)
    ensures status == Pending && queued == 0
  {
    var rt := new Runtime();
    var p, agg, derived, states := Promise.All([], rt);
    status := p.status;
    queued := |rt.tasks|;
  }

  /** `Promise.all([a])` with `a` pending: the result `p` and the queue stay
      as they were, and `a` holds exactly one callback pair, the collector
      for position 0 and the rejection of `p`, both deriving `d`. */
  method AllOfOnePending() returns (rt: Runtime, a: Promise, p: Promise, agg: Aggregate, ghost d: Promise)
    ensures fresh(rt) && fresh(rt.Repr) && rt.Valid() && a in rt.Repr && p in rt.Repr && agg in rt.Repr
    ensures agg.target == p && agg.length == 1 && agg.resultArr == [] && agg.orderIndex == 0
    ensures a.Settled() == None && p.Settled() == None && a != p && d != p && rt.tasks == []
    ensures a.onResolvedCallbacks == [Job(Collect(agg, 0), a, true, d)]
    ensures a.onRejectedCallbacks == [Job(RejectOf(p), a, false, d)]
  {
    rt := new Runtime();
    ghost var subs;
    a, subs := Promise.Create([], rt);
    assert a.status == Pending && PromisePrefix([Promise(a)]) == 1;
    ghost var derived, states;
    p, agg, derived, states := Promise.All([Promise(a)], rt);
    assert ElementJobs([Promise(a)], agg, derived, states) == [];
    assert |derived| == 1 && derived[..0] == [] && states[0] == Pending;
    assert ElementPushes(a, true, [Promise(a)], agg, derived[..0], states) == [];
    assert ElementPushes(a, false, [Promise(a)], agg, derived[..0], states) == [];
    d := derived[0];
  }

  /** `Promise.all([a])` with a pending promise `a`: nothing is scheduled,
      the result stays pending, and `a` has callbacks waiting. */
  method AllOfPending() returns (status: Status, queued: nat, subscribed: bool)
    ensures status == Pending && queued == 0 && subscribed
  {
    var rt, a, p, agg; ghost var d;
    rt, a, p, agg, d := AllOfOnePending();
    status := p.status;
    queued := |rt.tasks|;
    // exactly one pair: the collector for position 0 and the rejection of `p`
    var d' := if a.onResolvedCallbacks == [] then p else a.onResolvedCallbacks[0].derived;
    subscribed := a.onResolvedCallbacks == [Job(Collect(agg, 0), a, true, d')]
                  && a.onRejectedCallbacks == [Job(RejectOf(p), a, false, d')];
  }

  /** `Promise.all([a])`, then `a` fulfilled with `v`: the one task the
      fulfilment schedules is the collector for position 0, and running it
      fulfils the result with `[v]`. */
  method AllOfOneFulfilled(v: JsValue) returns (pendingFirst: bool, status: Status, valueIsArray: bool)
    requires Refs(v) == {} && !v.Promise?
    ensures pendingFirst && status == Fulfilled && valueIsArray
  {
    var rt, a, p, agg; ghost var d;
    rt, a, p, agg, d := AllOfOnePending();
    pendingFirst := p.status == Pending;
    var ret := a.Resolve(v, rt);
    var job := rt.Next();
    assert job == Some(Job(Collect(agg, 0), a, true, d));
    ghost var outcome, latch, d0, latch', d' := RunJob(job.value, Returned(Undefined), rt);
    assert agg.resultArr == Store([], 0, v) == [v];
    status, valueIsArray := p.status, p.value == Array([v]);
  }

  /** `Promise.all([a])`, then `a` rejected with `e`: the one task is the
      result's `reject`, and running it rejects the result with `e`. */
  method AllOfOneRejected(e: JsValue) returns (pendingFirst: bool, status: Status, sameReason: bool)
    requires Refs(e) == {}
    ensures pendingFirst && status == Rejected && sameReason
  {
    var rt, a, p, agg; ghost var d;
    rt, a, p, agg, d := AllOfOnePending();
    pendingFirst := p.status == Pending;
    a.Reject(e, rt);
    var job := rt.Next();
    assert job == Some(Job(RejectOf(p), a, false, d));
    ghost var outcome, latch, d0, latch', d' := RunJob(job.value, Returned(Undefined), rt);
    status, sameReason := p.status, p.reason == e;
  }

  /** `Promise.all([v])` with a value that is not a thenable: the loop reads
      an undeclared name and the executor's catch rejects the result with a
      ReferenceError. */
  method AllOfPlainValue(v: JsValue) returns (status: Status, elementThrow: bool, referenceError: bool)
    requires Refs(v) == {} && !v.Promise? && !IsForeignThenable(v)
    ensures status == Rejected && elementThrow
    ensures !v.Obj? ==> referenceError
  {
    var rt := new Runtime();
    var p, agg, derived, states := Promise.All([v], rt);
    status, elementThrow, referenceError := p.status, p.reason == ElementThrow(v), p.reason == ReferenceError;
  }

  /** The callbacks of `all` running in any order, each once, with the value
      of its own element: the result lists the values in input order, and
      it is handed to `resolve` when the last callback has run, not before
      (`settledEarly` records a settlement after any earlier callback).
      With no elements nothing runs and the result stays pending. */
  method AllResultsInInputOrder(values: seq<JsValue>, order: seq<nat>) returns (status: Status, inputOrder: bool, settledEarly: bool)
    requires forall k | 0 <= k < |values| :: Refs(values[k]) == {}
    requires |order| == |values| && forall k | 0 <= k < |order| :: order[k] < |values|
    requires forall i | 0 <= i < |values| :: i in order
    ensures values != [] ==> status == Fulfilled && inputOrder
    ensures values == [] ==> status == Pending
    ensures !settledEarly
  {
    var rt := new Runtime();
    var p := new Promise(rt);
    var agg := new Aggregate(p, |values|, rt);
    var k := 0;
    settledEarly := false;
    while k < |order|
      invariant 0 <= k <= |order|
      invariant rt.Valid() && agg in rt.Repr && p in rt.Repr && agg.target == p && agg.length == |values|
      invariant agg.resultArr == StoreInOrder(values, order[..k]) && agg.orderIndex == k
      invariant p.Settled() == if 0 < k == |values| then Some(Fulfillment(Array(agg.resultArr))) else None
      invariant !settledEarly
    {
      assert order[..k + 1][..k] == order[..k];
      agg.ProcessResultByKey(values[order[k]], order[k], rt);
      k := k + 1;
      if k < |order| && p.Settled().Some? {
        settledEarly := true;
      }
    }
    assert order[..k] == order;
    ResultsLandAtTheirIndex(values, order);
    status, inputOrder := p.status, p.value == Array(values);
  }
}
