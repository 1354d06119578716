/**
 * The values a promise library sees, and the pure rules that decide what
 * happens to them: the resolution procedure (`resolvePromise`), the first
 * settlement made by an executor, and the sparse-array writes of `all`.
 *
 * `P` stands for the library's own promise class; module Promises
 * instantiates it. Keeping it a parameter lets these rules be stated and
 * proved without the heap.
 */
module Values {

  datatype Option<T> = None | Some(value: T)

  /** A JavaScript value, classified by what the resolution procedure asks of it. */
  datatype Value<P> =
    | Undefined
      // any primitive: number, string, boolean, symbol, and also null
      // (`typeof` is neither 'object' nor 'function', or the value is null)
    | Primitive(n: int)
      // an ordinary object or function; `member` says what reading `.then` does
    | Obj(member: ThenMember<P>)
      // a JavaScript array, such as the result array of `all`
    | Array(items: seq<Value<P>>)
      // the error objects the library itself creates
    | TypeError
    | ReferenceError
      // an instance of the library's own promise class
    | Promise(p: P)

  /** What reading the `then` member of an object yields. */
  datatype ThenMember<P> =
    | NotCallable
      // an accessor whose getter throws `error`
    | ThrowingGetter(error: Value<P>)
      // a callable `then` written by someone else (a foreign thenable): the
      // calls it makes, in order, before it returns, when it is called with
      // a success and a failure callback
    | Method(script: seq<ForeignCall<P>>)

  /** One thing a foreign `then` does with the two callbacks it was handed. */
  datatype ForeignCall<P> =
    | CallSuccess(y: Value<P>)
    | CallFailure(r: Value<P>)
    | Throw(e: Value<P>)

  /** One thing a user executor does with the `resolve` and `reject` it was handed. */
  datatype ExecutorCall<P> =
    | CallResolve(v: Value<P>)
    | CallReject(r: Value<P>)
    | Raise(e: Value<P>)

  /** A `resolve` call with a promise of this library, which adopts it
      instead of settling. */
  predicate Adopts<P>(c: ExecutorCall<P>)
  {
    c.CallResolve? && c.v.Promise?
  }

  /** The final state of a promise: a value or a reason. */
  datatype Settlement<P> = Fulfillment(value: Value<P>) | Rejection(reason: Value<P>)

  /** The test that decides whether the resolution procedure looks for a
      `then` member: objects other than null, and functions. Undefined, null
      and the other primitives are not, and they are always plain. */
  predicate IsObjectLike<P>(x: Value<P>): (b: bool)
    ensures b <==> !(x.Undefined? || x.Primitive?)
    ensures !b ==> IsPlain(x)
  {
    x.Obj? || x.Array? || x.TypeError? || x.ReferenceError? || x.Promise?
  }

  /** A value the resolution procedure hands to `resolve` as it is: not an
      object, or an object whose `then` is not a function. */
  predicate IsPlain<P>(x: Value<P>)
  {
    !x.Promise? && !(x.Obj? && !x.member.NotCallable?)
  }

  /** Only the first settlement counts: a promise already settled keeps its state. */
  function FirstWins<P>(current: Option<Settlement<P>>, attempt: Option<Settlement<P>>): Option<Settlement<P>>
  {
    if current.Some? then current else attempt
  }

  /** Every promise a value refers to, however deeply nested. */
  ghost function Refs<P>(v: Value<P>): set<P>
  {
    match v
    case Promise(p) => {p}
    case Obj(ThrowingGetter(e)) => Refs(e)
    case Obj(Method(script)) => set i, p | 0 <= i < |script| && p in Refs(CallPayload(script[i])) :: p
    case Array(items) => set i, p | 0 <= i < |items| && p in Refs(items[i]) :: p
    case _ => {}
  }

  function CallPayload<P>(c: ForeignCall<P>): Value<P>
  {
    match c
    case CallSuccess(y) => y
    case CallFailure(r) => r
    case Throw(e) => e
  }

  function ExecutorPayload<P>(c: ExecutorCall<P>): Value<P>
  {
    match c
    case CallResolve(v) => v
    case CallReject(r) => r
    case Raise(e) => e
  }

  // ---------------------------------------------------------------------
  // The resolution procedure
  // ---------------------------------------------------------------------

  /** A foreign thenable whose first call is a success: the resolution
      procedure goes on with the value that call passes. */
  predicate SucceedsFirst<P>(x: Value<P>)
  {
    x.Obj? && x.member.Method? && |x.member.script| > 0 && x.member.script[0].CallSuccess?
  }

  /** Where the resolution procedure ends up: each foreign thenable whose
      first call is a success is followed to the value it passes. */
  function Innermost<P>(x: Value<P>): (r: Value<P>)
    ensures !SucceedsFirst(r)
    ensures !SucceedsFirst(x) ==> r == x
    ensures Refs(r) <= Refs(x)
  {
    if SucceedsFirst(x) then
      assert Refs(x.member.script[0].y) == Refs(CallPayload(x.member.script[0]));
      Innermost(x.member.script[0].y)
    else x
  }

  /**
   * The settlement `resolvePromise(x, target, ...)` makes on `target` before
   * it returns, or None when it only subscribes (to a promise of the library,
   * or to a foreign thenable that has not called back yet).
   *  - `x` is `target` itself: a TypeError rejection.
   *  - a promise of the library: nothing yet; its outcome arrives later.
   *  - an object whose `then` getter throws: rejection with that error.
   *  - a foreign thenable: the first of its calls decides (the `called`
   *    latch); a success value is resolved again, so chains flatten.
   *  - anything else is fulfilled with as it is.
   * A fulfilment value is never a thenable or a promise, and nothing is
   * settled exactly when the procedure ends at another promise of the
   * library or at a thenable that makes no call.
   */
  function Resolution<P(==)>(x: Value<P>, target: P): (r: Option<Settlement<P>>)
    ensures r.Some? && r.value.Fulfillment? ==> IsPlain(r.value.value)
    ensures r.None? <==>
      (Innermost(x).Promise? && Innermost(x) != Promise(target)) || Innermost(x) == Obj(Method([]))
    ensures Innermost(x) == Promise(target) ==> r == Some(Rejection(TypeError))
  {
    if x == Promise(target) then Some(Rejection(TypeError))
    else match x
      case Promise(_) => None
      case Obj(ThrowingGetter(e)) => Some(Rejection(e))
      case Obj(Method(script)) =>
        if script == [] then None
        else (match script[0]
          case CallSuccess(y) => Resolution(y, target)
          case CallFailure(r) => Some(Rejection(r))
          case Throw(e) => Some(Rejection(e)))
      case _ => Some(Fulfillment(x))
  }

  /** Resolving a value comes to the same as resolving where it ends up. */
  lemma {:induction false} ResolutionFollowsInnermost<P>(x: Value<P>, target: P)
    ensures Resolution(x, target) == Resolution(Innermost(x), target)
  {
    if SucceedsFirst(x) && x != Promise(target) {
      ResolutionFollowsInnermost(x.member.script[0].y, target);
    }
  }

  /** A value wrapped in `n` foreign thenables that each succeed with the next. */
  function Nested<P>(n: nat, v: Value<P>): (r: Value<P>)
    ensures n > 0 ==> IsObjectLike(r) && !r.Promise?
  {
    if n == 0 then v else Obj(Method([CallSuccess(Nested(n - 1, v))]))
  }

  /** Adoption flattens any depth of nested thenables (the success callback
      resolves its argument again). */
  lemma {:induction false} NestedThenablesFlatten<P>(n: nat, v: Value<P>, target: P)
    ensures Resolution(Nested(n, v), target) == Resolution(v, target)
  {
    if n > 0 {
      NestedThenablesFlatten(n - 1, v, target);
    }
  }

  /** `resolve(x)` is called with `x` unchanged exactly when `x` is not an
      object or function, or its `then` is not a function. */
  lemma PlainIffFulfilledAsIs<P>(x: Value<P>, target: P)
    ensures Resolution(x, target) == Some(Fulfillment(x)) <==> IsPlain(x)
  {
  }

  // ---------------------------------------------------------------------
  // The executor of the constructor
  // ---------------------------------------------------------------------

  /** The first call of an executor that settles the promise: `resolve` with
      a value that is not a promise of the library, `reject`, or a throw.
      `resolve(promise)` only subscribes and settles nothing by itself. */
  function ExecutorOutcome<P>(calls: seq<ExecutorCall<P>>): (r: Option<Settlement<P>>)
    ensures r.Some? && r.value.Fulfillment? ==> !r.value.value.Promise?
  {
    if calls == [] then None
    else match calls[0]
      case CallResolve(v) => if v.Promise? then ExecutorOutcome(calls[1..]) else Some(Fulfillment(v))
      case CallReject(r) => Some(Rejection(r))
      case Raise(e) => Some(Rejection(e))
  }

  /** The settlement a call of the executor makes when it is the first to settle. */
  function Decision<P>(c: ExecutorCall<P>): Settlement<P>
  {
    match c
      case CallResolve(v) => Fulfillment(v)
      case CallReject(r) => Rejection(r)
      case Raise(e) => Rejection(e)
  }

  /** How many calls of the executor run before the first throw ends it
      (all of them when none throws). */
  function FirstRaise<P>(calls: seq<ExecutorCall<P>>): (n: nat)
    ensures n <= |calls|
    ensures forall k | 0 <= k < n :: !calls[k].Raise?
    ensures n < |calls| ==> calls[n].Raise?
  {
    if calls == [] || calls[0].Raise? then 0 else 1 + FirstRaise(calls[1..])
  }

  /** The outcome is the decision of the first call that does not adopt a
      promise, and there is none exactly when every call adopts one. */
  lemma {:induction false} ExecutorOutcomeFirstDecides<P>(calls: seq<ExecutorCall<P>>)
    ensures ExecutorOutcome(calls).None? <==> forall k | 0 <= k < |calls| :: Adopts(calls[k])
    ensures ExecutorOutcome(calls).Some? ==> exists k | 0 <= k < |calls| ::
              !Adopts(calls[k]) && ExecutorOutcome(calls) == Some(Decision(calls[k]))
              && (forall j | 0 <= j < k :: Adopts(calls[j]))
  {
    if calls != [] {
      ExecutorOutcomeFirstDecides(calls[1..]);
      if Adopts(calls[0]) {
        if ExecutorOutcome(calls).Some? {
          var k :| 0 <= k < |calls[1..]| && !Adopts(calls[1..][k])
            && ExecutorOutcome(calls[1..]) == Some(Decision(calls[1..][k]))
            && (forall j | 0 <= j < k :: Adopts(calls[1..][j]));
          assert forall j | 0 <= j < k + 1 :: Adopts(calls[j]) by {
            forall j | 0 <= j < k + 1 ensures Adopts(calls[j]) {
              if j > 0 { assert calls[j] == calls[1..][j - 1]; }
            }
          }
          assert calls[k + 1] == calls[1..][k];
        }
      } else {
        assert !Adopts(calls[0]) && ExecutorOutcome(calls) == Some(Decision(calls[0]));
      }
      forall k | 0 <= k < |calls[1..]| ensures calls[1..][k] == calls[k + 1] { }
    }
  }

  /** Running one more call of the executor: it counts only if nothing before it settled. */
  lemma {:induction false} ExecutorOutcomeSnoc<P>(calls: seq<ExecutorCall<P>>, c: ExecutorCall<P>)
    ensures ExecutorOutcome(calls + [c]) == FirstWins(ExecutorOutcome(calls), ExecutorOutcome([c]))
  {
    if calls == [] {
      assert calls + [c] == [c];
    } else {
      assert (calls + [c])[0] == calls[0];
      assert (calls + [c])[1..] == calls[1..] + [c];
      if calls[0].CallResolve? && calls[0].v.Promise? {
        ExecutorOutcomeSnoc(calls[1..], c);
      }
    }
  }

  /** Once some prefix of the executor has settled the promise, nothing after it matters. */
  lemma {:induction false} ExecutorOutcomeDecided<P>(calls: seq<ExecutorCall<P>>, rest: seq<ExecutorCall<P>>)
    requires ExecutorOutcome(calls).Some?
    ensures ExecutorOutcome(calls + rest) == ExecutorOutcome(calls)
  {
    assert calls != [];
    assert (calls + rest)[0] == calls[0];
    assert (calls + rest)[1..] == calls[1..] + rest;
    if calls[0].CallResolve? && calls[0].v.Promise? {
      ExecutorOutcomeDecided(calls[1..], rest);
    }
  }

  // ---------------------------------------------------------------------
  // The result array of `all`
  // ---------------------------------------------------------------------

  /** How many elements at the front of `xs` are promises of the library. */
  function PromisePrefix<P>(xs: seq<Value<P>>): (k: nat)
    ensures k <= |xs|
    ensures forall j | 0 <= j < k :: xs[j].Promise?
    ensures k < |xs| ==> !xs[k].Promise?
  {
    if xs == [] || !xs[0].Promise? then 0 else 1 + PromisePrefix(xs[1..])
  }

  /** `arr[index] = v` on a JavaScript array: writing past the end grows the
      array, and the holes in between read as undefined. */
  function Store<P>(arr: seq<Value<P>>, index: nat, v: Value<P>): (r: seq<Value<P>>)
    ensures |r| == if index < |arr| then |arr| else index + 1
    ensures r[index] == v
    ensures forall k | 0 <= k < |r| && k != index :: r[k] == if k < |arr| then arr[k] else Undefined
  {
    if index < |arr| then arr[index := v]
    else arr + seq(index - |arr|, _ => Undefined) + [v]
  }

  /** The result array after the callbacks for positions `order[0]`,
      `order[1]`, ... have each stored the value of their own position. */
  function StoreInOrder<P>(values: seq<Value<P>>, order: seq<nat>): seq<Value<P>>
    requires forall k | 0 <= k < |order| :: order[k] < |values|
  {
    if order == [] then []
    else
      var last := order[|order| - 1];
      Store(StoreInOrder(values, order[..|order| - 1]), last, values[last])
  }

  /** After any sequence of writes: a position holds its own value when it
      was written, undefined otherwise, and every written position is inside. */
  lemma {:induction false} StoreInOrderContents<P>(values: seq<Value<P>>, order: seq<nat>)
    requires forall k | 0 <= k < |order| :: order[k] < |values|
    ensures |StoreInOrder(values, order)| <= |values|
    ensures forall j | j in order :: j < |StoreInOrder(values, order)|
    ensures forall j | 0 <= j < |StoreInOrder(values, order)| ::
      StoreInOrder(values, order)[j] == if j in order then values[j] else Undefined
  {
    if order != [] {
      var init := order[..|order| - 1];
      var last := order[|order| - 1];
      StoreInOrderContents(values, init);
      assert order == init + [last];
      forall j | j in order ensures j in init || j == last { }
    }
  }

  /** Whatever order the elements settle in, once every position has been
      written once, each value sits at its own input index. */
  lemma ResultsLandAtTheirIndex<P>(values: seq<Value<P>>, order: seq<nat>)
    requires forall k | 0 <= k < |order| :: order[k] < |values|
    requires forall i | 0 <= i < |values| :: i in order
    ensures StoreInOrder(values, order) == values
  {
    StoreInOrderContents(values, order);
    var r := StoreInOrder(values, order);
    if |values| > 0 {
      assert |values| - 1 in order;
    }
    assert |r| == |values|;
  }
}
