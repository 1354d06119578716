/**
 * The promise library itself: the settlement state machine (class Promise),
 * the resolution procedure (ResolvePromise with its `called` latch), the
 * aggregate combinator (Promise.All with class Aggregate), and the
 * `setTimeout` queue that runs every handler later (class Runtime).
 *
 * Closures are represented by data: a Handler names the function a job
 * calls, and a Job is the task `then` creates, which calls the handler on
 * the source's value or reason and settles the derived promise from what
 * the call returned or threw.
 */
module Promises {
  import opened Values

  type JsValue = Value<Promise>

  /** ENUM: the three states of a promise. */
  datatype Status = Pending | Fulfilled | Rejected

  /** The functions a job can call with the source's value or reason. */
  datatype Handler =
      // the identity, the default for a missing onFulfilled
    | Identity
      // throws its argument again, the default for a missing onRejected
    | Rethrow
      // a function of the caller's; what it returns or throws is decided when it runs
    | User(name: nat)
      // the `resolve` and `reject` closures made by the constructor of `p`
    | ResolveOf(p: Promise)
    | RejectOf(p: Promise)
      // the two callbacks `resolvePromise` hands to a thenable, sharing one latch
    | OnSuccess(latch: Latch, target: Promise)
    | OnFailure(latch: Latch, target: Promise)
      // stores a value at position `index` of the result of `all`
    | Collect(agg: Aggregate, index: nat)

  /** A task made by `then`: call `handler` on the value (or, when `onFulfilled`
      is false, the reason) of `source`, then settle `derived` from the result. */
  datatype Job = Job(handler: Handler, source: Promise, onFulfilled: bool, derived: Promise)

  /** What calling a handler came to: a return value or a thrown error. */
  datatype Outcome = Returned(v: JsValue) | Threw(e: JsValue)

  ghost function HandlerRefs(h: Handler): set<object>
  {
    match h
    case ResolveOf(p) => {p}
    case RejectOf(p) => {p}
    case OnSuccess(l, t) => {l, t}
    case OnFailure(l, t) => {l, t}
    case Collect(a, _) => {a}
    case _ => {}
  }

  ghost function JobRefs(j: Job): set<object>
  {
    HandlerRefs(j.handler) + {j.source, j.derived}
  }

  ghost function OutcomeRefs(o: Outcome): set<object>
  {
    match o
    case Returned(v) => Refs(v)
    case Threw(e) => Refs(e)
  }

  /** The handler `then` uses for an argument: the argument itself when it
      is a function (Some), else the default. */
  function HandlerOr(h: Option<Handler>, default: Handler): (r: Handler)
    ensures r == default <==> h.None? || h.value == default
    ensures r != default ==> Some(r) == h
  {
    if h.Some? then h.value else default
  }

  /** What `derived` is settled with once the handler's call came to `o`:
      a returned value goes through the resolution procedure, a thrown error
      rejects. */
  function OutcomeResolution(o: Outcome, derived: Promise): Option<Settlement<Promise>>
  {
    match o
    case Returned(x) => Resolution(x, derived)
    case Threw(e) => Some(Rejection(e))
  }

  /** The promise one of the library's closures settles, if the handler is one. */
  function Settles(h: Handler): Promise?
  {
    match h
    case ResolveOf(p) => p
    case RejectOf(p) => p
    case OnSuccess(_, t) => t
    case OnFailure(_, t) => t
    case Collect(a, _) => a.target
    case _ => null
  }

  /** The handlers whose only effect is their result. */
  predicate IsPure(h: Handler)
  {
    h.Identity? || h.Rethrow? || h.User?
  }

  /** What a pure handler comes to on `input`; a user function comes to
      whatever the environment says (`oracle`). */
  function PureOutcome(h: Handler, input: JsValue, oracle: Outcome): Outcome
    requires IsPure(h)
  {
    match h
    case Identity => Returned(input)
    case Rethrow => Threw(input)
    case User(_) => oracle
  }

  /** A callable `then` written by someone else. */
  predicate IsForeignThenable(x: JsValue)
  {
    x.Obj? && x.member.Method?
  }

  /** What the loop of `all` throws on an element that is neither a promise
      of the library nor a foreign thenable: the error of a throwing `then`
      getter, or else the ReferenceError of the unbound name `value`. */
  function ElementThrow(x: JsValue): (e: JsValue)
    ensures !IsObjectLike(x) ==> e == ReferenceError
    ensures Refs(e) <= Refs(x)
  {
    if x.Obj? && x.member.ThrowingGetter? then x.member.error else ReferenceError
  }

  /** The pair of jobs `q.then(f, r)` made with result `d` is waiting to run:
      both on the queues of a pending `q`, or the matching one scheduled. */
  ghost predicate Listening(q: Promise, f: Handler, r: Handler, d: Promise, rt: Runtime)
    reads q`status, q`onResolvedCallbacks, q`onRejectedCallbacks, rt`tasks
  {
    match q.status
    case Pending => Job(f, q, true, d) in q.onResolvedCallbacks && Job(r, q, false, d) in q.onRejectedCallbacks
    case Fulfilled => Job(f, q, true, d) in rt.tasks
    case Rejected => Job(r, q, false, d) in rt.tasks
  }

  /** What a sequence holds, any sequence it begins holds too. */
  lemma InPrefix<T>(x: T, a: seq<T>, b: seq<T>)
    requires a <= b
    ensures x in a ==> x in b
  {
    if x in a {
      var i :| 0 <= i < |a| && a[i] == x;
      assert b[i] == x;
    }
  }

  /** The jobs `q.then(f, r)` with result `d` schedules at once: none while
      `q` is pending, else the one that matches its state. */
  function ThenJobs(q: Promise, f: Handler, r: Handler, d: Promise): seq<Job>
    reads q`status
  {
    JobsOn(q.status, q, f, r, d)
  }

  /** The jobs of `q.then(f, r)` with result `d` when `q` is in state `s`. */
  function JobsOn(s: Status, q: Promise, f: Handler, r: Handler, d: Promise): seq<Job>
  {
    match s
    case Pending => []
    case Fulfilled => [Job(f, q, true, d)]
    case Rejected => [Job(r, q, false, d)]
  }

  /** The callbacks the settlement of `p` schedules, when `p` was `before`:
      the queue that matches its new state if it was pending, else none. */
  function Notified(before: Status, p: Promise): seq<Job>
    reads p
  {
    if before != Pending then []
    else match p.status
      case Pending => []
      case Fulfilled => p.onResolvedCallbacks
      case Rejected => p.onRejectedCallbacks
  }

  /** The mark `q.then(f, r)` with result `d` leaves on the queues of `q`:
      one callback on each while `q` is pending, none once it is settled. */
  twostate predicate Pushed(q: Promise, new f: Handler, new r: Handler, new d: Promise)
    reads q
  {
    if q.status == Pending then
      q.onResolvedCallbacks == old(q.onResolvedCallbacks) + [Job(f, q, true, d)]
      && q.onRejectedCallbacks == old(q.onRejectedCallbacks) + [Job(r, q, false, d)]
    else
      q.onResolvedCallbacks == old(q.onResolvedCallbacks) && q.onRejectedCallbacks == old(q.onRejectedCallbacks)
  }

  /** The queues of every promise of `S` but `except` are as they were. */
  twostate predicate QueuesKept(S: set<object>, except: Promise?)
    reads S
  {
    forall q: Promise | q in S && q != except ::
      q.onResolvedCallbacks == old(q.onResolvedCallbacks) && q.onRejectedCallbacks == old(q.onRejectedCallbacks)
  }

  /** The promise of the library `resolvePromise(x, ...)` ends up subscribing
      to, after following the foreign thenables that succeed at once. */
  function Adoptee(x: JsValue): Promise?
  {
    if Innermost(x).Promise? then Innermost(x).p else null
  }

  /** `Adoptee(x)` as a set: the only existing promise besides `promise2`
      whose fields `resolvePromise(x, promise2, ...)` may change. */
  function AdopteeSet(x: JsValue): set<Promise>
  {
    if Adoptee(x) == null then {} else {Adoptee(x)}
  }

  /**
   * The tasks and queues `resolvePromise(x, promise2, ...)` leaves behind.
   * The callbacks of `promise2` are scheduled if it was settled now. When
   * `x` ends up at a promise of the library, a callback pair sharing the
   * fresh `latch` is handed to its `then`, which made `d`. That call may
   * also schedule at once, after those callbacks. Nothing else is
   * scheduled, and no other queue changes.
   */
  twostate predicate Adoption(S: set<object>, x: JsValue, promise2: Promise, new latch: Latch?, new d: Promise?, rt: Runtime)
    reads S, rt, promise2, latch, Adoptee(x)
  {
    QueuesKept(S, Adoptee(x))
    && (if Adoptee(x) == null then latch == null && d == null
        else
          latch != null && d != null && fresh(latch) && fresh(d) && !latch.called
          && Pushed(Adoptee(x), OnSuccess(latch, promise2), OnFailure(latch, promise2), d))
    && rt.tasks == old(rt.tasks) + Notified(old(promise2.status), promise2) + AdoptionJobs(x, promise2, latch, d)
  }

  /** The job the adopting `then` call of `resolvePromise(x, promise2, ...)`
      schedules at once, if any. */
  function AdoptionJobs(x: JsValue, promise2: Promise, latch: Latch?, d: Promise?): seq<Job>
    reads Adoptee(x)
  {
    if Adoptee(x) == null || latch == null || d == null then []
    else ThenJobs(Adoptee(x), OnSuccess(latch, promise2), OnFailure(latch, promise2), d)
  }

  /** The tasks and queues settling `derived` from a handler's outcome leaves
      behind: the resolution procedure's on a returned value, and only the
      rejection callbacks of `derived` on a thrown one. */
  twostate predicate DerivedTasks(S: set<object>, o: Outcome, derived: Promise, new latch: Latch?, new d: Promise?, rt: Runtime)
    reads S, rt, derived, latch, if o.Returned? then Adoptee(o.v) else null
  {
    match o
    case Returned(x) => Adoption(S, x, derived, latch, d, rt)
    case Threw(_) =>
      latch == null && d == null && QueuesKept(S, null)
      && rt.tasks == old(rt.tasks) + Notified(old(derived.status), derived)
  }

  /** Every promise of `S` keeps its state, and its queues only grow. */
  twostate predicate QueuesGrow(S: set<object>)
    reads S
  {
    forall q: Promise | q in S ::
      q.status == old(q.status)
      && old(q.onResolvedCallbacks) <= q.onResolvedCallbacks
      && old(q.onRejectedCallbacks) <= q.onRejectedCallbacks
  }

  /** What the loop of `all` has established after `i` rounds: while only
      promises were met, nothing settled and each has its callback pair; a
      first element that is neither a promise nor a foreign thenable throws
      and ends the loop with the aggregate still pending. */
  ghost predicate AllProgress(values: seq<JsValue>, i: nat, thrown: Option<JsValue>, agg: Aggregate, derived: seq<Promise>, rt: Runtime)
    reads agg, agg.target, rt, rt.Repr
  {
    var k := PromisePrefix(values);
    i <= |values|
    && (i <= k ==>
          thrown == None && agg.target.Settled() == None && agg.orderIndex == 0 && agg.resultArr == [] && |derived| == i
          && forall j | 0 <= j < i :: values[j].p in rt.Repr && derived[j] != agg.target
               && Listening(values[j].p, Collect(agg, j), RejectOf(agg.target), derived[j], rt))
    && (k < |values| && !IsForeignThenable(values[k]) ==>
          i <= k + 1 && (i == k + 1 ==> thrown == Some(ElementThrow(values[k])) && agg.target.Settled() == None))
  }

  /** The promises of the library among `values`: the only objects besides
      the aggregate and its promise that the loop of `all` touches. */
  function Elements(values: seq<JsValue>): set<Promise>
  {
    set j | 0 <= j < |values| && values[j].Promise? :: values[j].p
  }

  /** The tasks the loop of `all` schedules at once for its first `|derived|`
      elements, all promises of the library that were in `states`: one for
      each element already settled, in input order. */
  function ElementJobs(values: seq<JsValue>, agg: Aggregate, derived: seq<Promise>, states: seq<Status>): seq<Job>
    requires |derived| <= |values| == |states|
  {
    if derived == [] then []
    else
      var j := |derived| - 1;
      ElementJobs(values, agg, derived[..j], states)
      + match values[j]
        case Promise(q) => JobsOn(states[j], q, Collect(agg, j), RejectOf(agg.target), derived[j])
        case _ => []
  }

  /** The callbacks the loop of `all` pushed, over its first `|derived|`
      elements, on the fulfilment (`fulfil`) or rejection queue of `q`: one
      for each position holding `q` while `q` was pending (`states`), in
      input order. */
  function ElementPushes(q: Promise, fulfil: bool, values: seq<JsValue>, agg: Aggregate, derived: seq<Promise>, states: seq<Status>): seq<Job>
    requires |derived| <= |values| == |states|
  {
    if derived == [] then []
    else
      var j := |derived| - 1;
      ElementPushes(q, fulfil, values, agg, derived[..j], states)
      + if values[j] == Promise(q) && states[j] == Pending
        then [if fulfil then Job(Collect(agg, j), q, true, derived[j]) else Job(RejectOf(agg.target), q, false, derived[j])]
        else []
  }

  lemma ElementPushesSnoc(q: Promise, fulfil: bool, values: seq<JsValue>, agg: Aggregate, derived: seq<Promise>, d: Promise, states: seq<Status>)
    requires |derived| < |values| == |states|
    ensures ElementPushes(q, fulfil, values, agg, derived + [d], states) == ElementPushes(q, fulfil, values, agg, derived, states)
      + if values[|derived|] == Promise(q) && states[|derived|] == Pending
        then [if fulfil then Job(Collect(agg, |derived|), q, true, d) else Job(RejectOf(agg.target), q, false, d)]
        else []
  {
    assert (derived + [d])[..|derived|] == derived;
  }

  /** The fulfilment (`fulfil`) or rejection queue of each promise element,
      and nothing for the other elements. */
  function ElementSnapshot(values: seq<JsValue>, fulfil: bool): (r: seq<seq<Job>>)
    reads Elements(values)
    ensures |r| == |values|
    ensures forall j | 0 <= j < |values| && values[j].Promise? ::
      r[j] == if fulfil then values[j].p.onResolvedCallbacks else values[j].p.onRejectedCallbacks
  {
    seq(|values|, j requires 0 <= j < |values| reads Elements(values) =>
      if !values[j].Promise? then [] else if fulfil then values[j].p.onResolvedCallbacks else values[j].p.onRejectedCallbacks)
  }

  /** The queues of every promise element are what they held before the
      loop of `all` (`baseR[j]` and `baseJ[j]` for the `j`-th element)
      followed by the callbacks its first `|derived|` rounds pushed. */
  ghost predicate ElementQueues(values: seq<JsValue>, agg: Aggregate, derived: seq<Promise>, states: seq<Status>,
                                baseR: seq<seq<Job>>, baseJ: seq<seq<Job>>)
    reads Elements(values)`onResolvedCallbacks, Elements(values)`onRejectedCallbacks
  {
    |derived| <= |values| == |states| == |baseR| == |baseJ|
    && forall j | 0 <= j < |values| && values[j].Promise? ::
         values[j].p.onResolvedCallbacks == baseR[j] + ElementPushes(values[j].p, true, values, agg, derived, states)
         && values[j].p.onRejectedCallbacks == baseJ[j] + ElementPushes(values[j].p, false, values, agg, derived, states)
  }

  /** Before the loop, the queues are their snapshots. */
  lemma ElementQueuesStart(values: seq<JsValue>, agg: Aggregate, states: seq<Status>, baseR: seq<seq<Job>>, baseJ: seq<seq<Job>>)
    requires |states| == |values|
    requires baseR == ElementSnapshot(values, true) && baseJ == ElementSnapshot(values, false)
    ensures ElementQueues(values, agg, [], states, baseR, baseJ)
  {
  }

  /** Every promise element but `except` kept its callback queues. */
  twostate predicate ElementsKept(values: seq<JsValue>, except: Promise?)
    reads Elements(values)
  {
    forall j | 0 <= j < |values| && values[j].Promise? && values[j].p != except ::
      values[j].p.onResolvedCallbacks == old(values[j].p.onResolvedCallbacks)
      && values[j].p.onRejectedCallbacks == old(values[j].p.onRejectedCallbacks)
  }

  /** One more promise element subscribed with `d` as its `then` result,
      the other elements untouched: its pair, if it was pending, follows
      the callbacks already on its queues. */
  twostate lemma ElementQueuesSnoc(new values: seq<JsValue>, new agg: Aggregate, new derived: seq<Promise>, new d: Promise,
                                   new states: seq<Status>, new baseR: seq<seq<Job>>, new baseJ: seq<seq<Job>>)
    requires old(allocated(values)) && old(allocated(agg)) && old(allocated(derived)) && old(allocated(states))
    requires old(allocated(baseR)) && old(allocated(baseJ))
    requires old(ElementQueues(values, agg, derived, states, baseR, baseJ)) && |derived| < |values|
    requires values[|derived|].Promise? && states[|derived|] == values[|derived|].p.status
    requires Pushed(values[|derived|].p, Collect(agg, |derived|), RejectOf(agg.target), d)
    requires ElementsKept(values, values[|derived|].p)
    ensures ElementQueues(values, agg, derived + [d], states, baseR, baseJ)
  {
    forall j | 0 <= j < |values| && values[j].Promise?
      ensures values[j].p.onResolvedCallbacks == baseR[j] + ElementPushes(values[j].p, true, values, agg, derived + [d], states)
      ensures values[j].p.onRejectedCallbacks == baseJ[j] + ElementPushes(values[j].p, false, values, agg, derived + [d], states)
    {
      var q, i := values[j].p, |derived|;
      var hit := values[i] == Promise(q) && states[i] == Pending;
      assert q.onResolvedCallbacks == old(q.onResolvedCallbacks) + if hit then [Job(Collect(agg, i), q, true, d)] else [];
      assert q.onRejectedCallbacks == old(q.onRejectedCallbacks) + if hit then [Job(RejectOf(agg.target), q, false, d)] else [];
      ElementQueueSnoc(q, true, values, agg, derived, d, states, baseR[j], old(q.onResolvedCallbacks), q.onResolvedCallbacks);
      ElementQueueSnoc(q, false, values, agg, derived, d, states, baseJ[j], old(q.onRejectedCallbacks), q.onRejectedCallbacks);
    }
  }

  /** One queue of an element after one more round: its pushes so far, and
      the new pair's callback when that round subscribed it while pending. */
  lemma ElementQueueSnoc(q: Promise, fulfil: bool, values: seq<JsValue>, agg: Aggregate, derived: seq<Promise>, d: Promise,
                         states: seq<Status>, base: seq<Job>, before: seq<Job>, after: seq<Job>)
    requires |derived| < |values| == |states|
    requires before == base + ElementPushes(q, fulfil, values, agg, derived, states)
    requires after == before
      + if values[|derived|] == Promise(q) && states[|derived|] == Pending
        then [if fulfil then Job(Collect(agg, |derived|), q, true, d) else Job(RejectOf(agg.target), q, false, d)]
        else []
    ensures after == base + ElementPushes(q, fulfil, values, agg, derived + [d], states)
  {
    ElementPushesSnoc(q, fulfil, values, agg, derived, d, states);
  }

  /** A round that touched no queue of an element keeps them exact. */
  twostate lemma ElementQueuesKept(new values: seq<JsValue>, new agg: Aggregate, new derived: seq<Promise>,
                                   new states: seq<Status>, new baseR: seq<seq<Job>>, new baseJ: seq<seq<Job>>)
    requires old(allocated(values)) && old(allocated(agg)) && old(allocated(derived)) && old(allocated(states))
    requires old(allocated(baseR)) && old(allocated(baseJ))
    requires old(ElementQueues(values, agg, derived, states, baseR, baseJ)) && ElementsKept(values, null)
    ensures ElementQueues(values, agg, derived, states, baseR, baseJ)
  {
  }

  /** Queues that are their snapshots from the old state plus the pushes of
      the loop are the old queues plus those pushes. */
  twostate lemma ElementsGained(new values: seq<JsValue>, new agg: Aggregate, new derived: seq<Promise>,
                                new states: seq<Status>, new baseR: seq<seq<Job>>, new baseJ: seq<seq<Job>>)
    requires old(allocated(values)) && old(allocated(baseR)) && old(allocated(baseJ))
    requires baseR == old(ElementSnapshot(values, true)) && baseJ == old(ElementSnapshot(values, false))
    requires ElementQueues(values, agg, derived, states, baseR, baseJ)
    ensures forall j | 0 <= j < |values| && values[j].Promise? ::
      values[j].p.onResolvedCallbacks == old(values[j].p.onResolvedCallbacks) + ElementPushes(values[j].p, true, values, agg, derived, states)
      && values[j].p.onRejectedCallbacks == old(values[j].p.onRejectedCallbacks) + ElementPushes(values[j].p, false, values, agg, derived, states)
  {
  }

  /** One more subscribed element adds its own tasks after the others'. */
  lemma ElementJobsSnoc(values: seq<JsValue>, agg: Aggregate, derived: seq<Promise>, d: Promise, states: seq<Status>)
    requires |derived| < |values| == |states| && values[|derived|].Promise?
    ensures ElementJobs(values, agg, derived + [d], states)
      == ElementJobs(values, agg, derived, states)
         + JobsOn(states[|derived|], values[|derived|].p, Collect(agg, |derived|), RejectOf(agg.target), d)
  {
    assert (derived + [d])[..|derived|] == derived;
  }

  /** Where the loop of `all` ends: after promises only, with every pair
      subscribed and nothing settled; or at the first plain element, with
      its throw and the aggregate still pending. */
  lemma AllProgressEnd(values: seq<JsValue>, n: nat, thrown: Option<JsValue>, agg: Aggregate, derived: seq<Promise>, rt: Runtime)
    requires AllProgress(values, n, thrown, agg, derived, rt)
    requires n <= |values| && (thrown.None? ==> n == |values|)
    ensures PromisePrefix(values) == |values| ==>
      thrown == None && agg.target.Settled() == None && agg.orderIndex == 0 && agg.resultArr == [] && |derived| == |values|
      && forall j | 0 <= j < |values| ::
           derived[j] != agg.target && Listening(values[j].p, Collect(agg, j), RejectOf(agg.target), derived[j], rt)
    ensures PromisePrefix(values) < |values| && !IsForeignThenable(values[PromisePrefix(values)]) ==>
      thrown == Some(ElementThrow(values[PromisePrefix(values)])) && agg.target.Settled() == None
  {
  }

  /** The promises of the library handed to `resolve` by the first `m` of `calls`. */
  function Adoptees(calls: seq<ExecutorCall<Promise>>, m: nat): set<Promise>
  {
    set k | 0 <= k < m && k < |calls| && Adopts(calls[k]) :: calls[k].v.p
  }

  /** The promise of the library executor call `c` hands to `resolve`, if any. */
  function AdoptedBy(c: ExecutorCall<Promise>): set<Promise>
  {
    if Adopts(c) then {c.v.p} else {}
  }

  /** An executor call that handed `resolve` a promise of the library has
      subscribed the closures of `p` to it, and `d` is what that `then` made. */
  ghost predicate ListensAt(p: Promise, c: ExecutorCall<Promise>, d: Promise?, rt: Runtime)
    reads rt`tasks, AdoptedBy(c)`status, AdoptedBy(c)`onResolvedCallbacks, AdoptedBy(c)`onRejectedCallbacks
  {
    Adopts(c) ==> d != null && d != p && Listening(c.v.p, ResolveOf(p), RejectOf(p), d, rt)
  }

  /** Every one of the first `|subs|` calls of `calls` that was handed a
      promise of the library has subscribed the closures of `p` to it, and
      `subs[k]` is the promise that `then` call made. */
  ghost predicate AdoptionsListening(p: Promise, calls: seq<ExecutorCall<Promise>>, subs: seq<Promise?>, rt: Runtime)
    reads rt`tasks, Adoptees(calls, |subs|)`status, Adoptees(calls, |subs|)`onResolvedCallbacks,
      Adoptees(calls, |subs|)`onRejectedCallbacks
  {
    |subs| <= |calls|
    && forall k {:trigger ListensAt(p, calls[k], subs[k], rt)} | 0 <= k < |subs| :: ListensAt(p, calls[k], subs[k], rt)
  }

  /** Every promise of the library handed to `resolve` among the first `m`
      of `calls` is in `S` and is not `p`. */
  predicate AdopteesIn(p: Promise, calls: seq<ExecutorCall<Promise>>, m: nat, S: set<object>)
  {
    forall k | 0 <= k < m && k < |calls| && Adopts(calls[k]) :: calls[k].v.p in S && calls[k].v.p != p
  }

  /** The subscriptions of `p` outlast a step in which the adopted promises
      keep their state and their callbacks, and tasks are only added. */
  twostate lemma AdoptionsGrow(p: Promise, new calls: seq<ExecutorCall<Promise>>, new subs: seq<Promise?>, new S: set<object>, new rt: Runtime)
    requires old(allocated(calls)) && old(allocated(subs)) && old(allocated(S)) && old(allocated(rt))
    requires old(AdoptionsListening(p, calls, subs, rt)) && AdopteesIn(p, calls, |subs|, S)
    requires QueuesGrow(S - {p}) && old(rt.tasks) <= rt.tasks
    ensures AdoptionsListening(p, calls, subs, rt)
  {
    forall k | 0 <= k < |subs|
      ensures ListensAt(p, calls[k], subs[k], rt)
    {
      assert old(ListensAt(p, calls[k], subs[k], rt));
      if Adopts(calls[k]) {
        var q := calls[k].v.p;
        assert q in S - {p};
        InPrefix(Job(ResolveOf(p), q, true, subs[k]), old(q.onResolvedCallbacks), q.onResolvedCallbacks);
        InPrefix(Job(RejectOf(p), q, false, subs[k]), old(q.onRejectedCallbacks), q.onRejectedCallbacks);
        InPrefix(Job(ResolveOf(p), q, true, subs[k]), old(rt.tasks), rt.tasks);
        InPrefix(Job(RejectOf(p), q, false, subs[k]), old(rt.tasks), rt.tasks);
      }
    }
  }

  /** The callback pairs of the first `n` elements of `all` outlast a step
      in which those elements keep their state and their callbacks, and
      tasks are only added. */
  twostate lemma ElementsListening(new values: seq<JsValue>, n: nat, new agg: Aggregate, new derived: seq<Promise>, new S: set<object>, new rt: Runtime)
    requires old(allocated(values)) && old(allocated(agg)) && old(allocated(derived)) && old(allocated(S)) && old(allocated(rt))
    requires n <= |values| && n <= |derived|
    requires forall j | 0 <= j < n :: values[j].Promise? && values[j].p in S
    requires forall j | 0 <= j < n :: old(Listening(values[j].p, Collect(agg, j), RejectOf(agg.target), derived[j], rt))
    requires QueuesGrow(S) && old(rt.tasks) <= rt.tasks
    ensures forall j | 0 <= j < n :: Listening(values[j].p, Collect(agg, j), RejectOf(agg.target), derived[j], rt)
  {
    forall j | 0 <= j < n
      ensures Listening(values[j].p, Collect(agg, j), RejectOf(agg.target), derived[j], rt)
    {
      var q, f, r := values[j].p, Collect(agg, j), RejectOf(agg.target);
      assert old(Listening(q, f, r, derived[j], rt));
      InPrefix(Job(f, q, true, derived[j]), old(q.onResolvedCallbacks), q.onResolvedCallbacks);
      InPrefix(Job(r, q, false, derived[j]), old(q.onRejectedCallbacks), q.onRejectedCallbacks);
      InPrefix(Job(f, q, true, derived[j]), old(rt.tasks), rt.tasks);
      InPrefix(Job(r, q, false, derived[j]), old(rt.tasks), rt.tasks);
    }
  }

  /** One more promise element of `all` subscribed, while the elements
      before it keep their callback pairs and nothing has settled: the loop
      has made progress by one. */
  twostate lemma AllProgressSnoc(new values: seq<JsValue>, i: nat, new agg: Aggregate, new derived: seq<Promise>, new d: Promise, new rt: Runtime)
    requires old(allocated(values)) && old(allocated(agg)) && old(allocated(derived)) && old(allocated(rt))
    requires i < PromisePrefix(values) && old(AllProgress(values, i, None, agg, derived, rt))
    requires old(rt.Repr) <= rt.Repr && QueuesGrow(old(rt.Repr)) && old(rt.tasks) <= rt.tasks
    requires agg.target.Settled() == None && agg.orderIndex == 0 && agg.resultArr == []
    requires values[i].p in rt.Repr && d != agg.target && Listening(values[i].p, Collect(agg, i), RejectOf(agg.target), d, rt)
    ensures AllProgress(values, i + 1, None, agg, derived + [d], rt)
  {
    ElementsListening(values, i, agg, derived, old(rt.Repr), rt);
    ListeningSnoc(values, i, agg, derived, d, rt);
  }

  /** A round that subscribed the `i`-th element, a promise, through the
      fresh `d`, leaving the aggregate alone: the loop has gone one element
      further, and that element's task, if any, follows the others'. */
  twostate lemma ElementSubscribed(new values: seq<JsValue>, i: nat, new agg: Aggregate, new derived: seq<Promise>, new d: Promise,
                                   new states: seq<Status>, new base: seq<Job>, new rt: Runtime)
    requires old(allocated(values)) && old(allocated(agg)) && old(allocated(derived)) && old(allocated(rt))
    requires old(allocated(states)) && old(allocated(base))
    requires i < PromisePrefix(values) && old(AllProgress(values, i, None, agg, derived, rt))
    requires |states| == |values| && states[i] == values[i].p.status
    requires old(rt.tasks) == base + ElementJobs(values, agg, derived, states)
    requires old(rt.Repr) <= rt.Repr && QueuesGrow(old(rt.Repr)) && unchanged(agg, agg.target)
    requires values[i].p in rt.Repr && fresh(d)
    requires values[i].p.Subscribed(Collect(agg, i), RejectOf(agg.target), d, rt)
    ensures AllProgress(values, i + 1, None, agg, derived + [d], rt)
    ensures rt.tasks == base + ElementJobs(values, agg, derived + [d], states)
  {
    ElementJobsSnoc(values, agg, derived, d, states);
    assert Listening(values[i].p, Collect(agg, i), RejectOf(agg.target), d, rt);
    AllProgressSnoc(values, i, agg, derived, d, rt);
  }

  /** The callback pairs of the first `i` elements of `all`, and one more. */
  lemma ListeningSnoc(values: seq<JsValue>, i: nat, agg: Aggregate, derived: seq<Promise>, d: Promise, rt: Runtime)
    requires i < PromisePrefix(values) && |derived| == i
    requires forall j | 0 <= j < i :: derived[j] != agg.target && Listening(values[j].p, Collect(agg, j), RejectOf(agg.target), derived[j], rt)
    requires d != agg.target && Listening(values[i].p, Collect(agg, i), RejectOf(agg.target), d, rt)
    ensures forall j | 0 <= j < i + 1 ::
      (derived + [d])[j] != agg.target && Listening(values[j].p, Collect(agg, j), RejectOf(agg.target), (derived + [d])[j], rt)
  {
    forall j | 0 <= j < i + 1
      ensures (derived + [d])[j] != agg.target && Listening(values[j].p, Collect(agg, j), RejectOf(agg.target), (derived + [d])[j], rt)
    {
      if j < i {
        assert (derived + [d])[j] == derived[j];
      }
    }
  }

  /** One more executor call: an adopting one adds its subscription. */
  lemma AdoptionsSnoc(p: Promise, calls: seq<ExecutorCall<Promise>>, subs: seq<Promise?>, d: Promise?, rt: Runtime)
    requires AdoptionsListening(p, calls, subs, rt) && |subs| < |calls|
    requires ListensAt(p, calls[|subs|], d, rt)
    ensures AdoptionsListening(p, calls, subs + [d], rt)
  {
    forall k | 0 <= k < |subs| + 1
      ensures ListensAt(p, calls[k], (subs + [d])[k], rt)
    {
      if k < |subs| {
        assert ListensAt(p, calls[k], subs[k], rt);
      }
    }
  }

  /** What the first `|subs|` calls of `calls` scheduled at once: each call
      that handed `resolve` a promise of the library scheduled what its
      `then` schedules on that promise, in call order. */
  function AdoptionTasks(p: Promise, calls: seq<ExecutorCall<Promise>>, subs: seq<Promise?>): seq<Job>
    requires |subs| <= |calls|
    reads Adoptees(calls, |calls|)`status
  {
    if subs == [] then []
    else
      var k := |subs| - 1;
      AdoptionTasks(p, calls, subs[..k])
      + if Adopts(calls[k]) && subs[k] != null then ThenJobs(calls[k].v.p, ResolveOf(p), RejectOf(p), subs[k]) else []
  }

  /** The callbacks the first `|subs|` calls of `calls` pushed on the
      fulfilment (`fulfil`) or rejection queue of `q`: one for each call that
      handed `resolve` the promise `q` while it was pending, in call order. */
  function AdoptionPushes(q: Promise, fulfil: bool, p: Promise, calls: seq<ExecutorCall<Promise>>, subs: seq<Promise?>): seq<Job>
    requires |subs| <= |calls|
    reads q`status
  {
    if subs == [] then []
    else
      var k := |subs| - 1;
      AdoptionPushes(q, fulfil, p, calls, subs[..k])
      + if calls[k] == CallResolve(Promise(q)) && subs[k] != null && q.status == Pending
        then [if fulfil then Job(ResolveOf(p), q, true, subs[k]) else Job(RejectOf(p), q, false, subs[k])]
        else []
  }

  /** The fulfilment (`fulfil`) or rejection queue of the promise each of
      `calls` hands `resolve`, and nothing for the other calls. */
  function AdopteeSnapshot(calls: seq<ExecutorCall<Promise>>, fulfil: bool): (r: seq<seq<Job>>)
    reads Adoptees(calls, |calls|)
    ensures |r| == |calls|
    ensures forall k | 0 <= k < |calls| && Adopts(calls[k]) ::
      r[k] == if fulfil then calls[k].v.p.onResolvedCallbacks else calls[k].v.p.onRejectedCallbacks
  {
    seq(|calls|, k requires 0 <= k < |calls| reads Adoptees(calls, |calls|) =>
      if !Adopts(calls[k]) then [] else if fulfil then calls[k].v.p.onResolvedCallbacks else calls[k].v.p.onRejectedCallbacks)
  }

  /** Before any call, the queues are their snapshots. */
  lemma AdopteeQueuesStart(p: Promise, calls: seq<ExecutorCall<Promise>>, baseR: seq<seq<Job>>, baseJ: seq<seq<Job>>)
    requires baseR == AdopteeSnapshot(calls, true) && baseJ == AdopteeSnapshot(calls, false)
    ensures AdopteeQueues(p, calls, [], baseR, baseJ)
  {
  }

  /** Queues that are their snapshots from the old state plus the pushes of
      the calls are the old queues plus those pushes. */
  twostate lemma AdopteesGained(new p: Promise, new calls: seq<ExecutorCall<Promise>>, new subs: seq<Promise?>,
                                new baseR: seq<seq<Job>>, new baseJ: seq<seq<Job>>)
    requires old(allocated(calls)) && old(allocated(baseR)) && old(allocated(baseJ))
    requires baseR == old(AdopteeSnapshot(calls, true)) && baseJ == old(AdopteeSnapshot(calls, false))
    requires AdopteeQueues(p, calls, subs, baseR, baseJ)
    ensures forall k | 0 <= k < |calls| && Adopts(calls[k]) ::
      calls[k].v.p.onResolvedCallbacks == old(calls[k].v.p.onResolvedCallbacks) + AdoptionPushes(calls[k].v.p, true, p, calls, subs)
      && calls[k].v.p.onRejectedCallbacks == old(calls[k].v.p.onRejectedCallbacks) + AdoptionPushes(calls[k].v.p, false, p, calls, subs)
  {
  }

  /** What the executor calls so far added, exactly: the jobs of their
      adoptions scheduled after `base`, and their callbacks queued. */
  ghost predicate ExecutorExact(p: Promise, calls: seq<ExecutorCall<Promise>>, subs: seq<Promise?>, base: seq<Job>,
                                baseR: seq<seq<Job>>, baseJ: seq<seq<Job>>, rt: Runtime)
    reads rt`tasks, Adoptees(calls, |calls|)`status, Adoptees(calls, |calls|)`onResolvedCallbacks, Adoptees(calls, |calls|)`onRejectedCallbacks
  {
    |subs| <= |calls| && rt.tasks == base + AdoptionTasks(p, calls, subs) && AdopteeQueues(p, calls, subs, baseR, baseJ)
  }

  /** An executor whose one call hands `resolve` the promise `q`: the
      adoption is exactly one `then` on `q`. */
  twostate lemma SingleAdoption(new p: Promise, q: Promise, new subs: seq<Promise?>, new rt: Runtime)
    requires old(allocated(rt))
    requires |subs| == 1 && subs[0] != null
    requires q.status == old(q.status) && q.value == old(q.value) && q.reason == old(q.reason)
    requires rt.tasks == old(rt.tasks) + AdoptionTasks(p, [CallResolve(Promise(q))], subs)
    requires q.onResolvedCallbacks == old(q.onResolvedCallbacks) + AdoptionPushes(q, true, p, [CallResolve(Promise(q))], subs)
    requires q.onRejectedCallbacks == old(q.onRejectedCallbacks) + AdoptionPushes(q, false, p, [CallResolve(Promise(q))], subs)
    ensures q.Subscribed(ResolveOf(p), RejectOf(p), subs[0], rt)
  {
    assert subs == [] + [subs[0]];
    AdoptionTasksSnoc(p, [CallResolve(Promise(q))], [], subs[0]);
    AdoptionPushesSnoc(q, true, p, [CallResolve(Promise(q))], [], subs[0]);
    AdoptionPushesSnoc(q, false, p, [CallResolve(Promise(q))], [], subs[0]);
  }

  /** Every promise handed to `resolve` by `calls` kept its state, and all
      but `except` kept their callback queues. */
  twostate predicate AdopteesKept(calls: seq<ExecutorCall<Promise>>, except: Promise?)
    reads Adoptees(calls, |calls|)
  {
    forall k | 0 <= k < |calls| && Adopts(calls[k]) ::
      calls[k].v.p.status == old(calls[k].v.p.status)
      && (calls[k].v.p != except ==>
            calls[k].v.p.onResolvedCallbacks == old(calls[k].v.p.onResolvedCallbacks)
            && calls[k].v.p.onRejectedCallbacks == old(calls[k].v.p.onRejectedCallbacks))
  }

  /** One more executor call, which subscribed `p` to the promise it handed
      `resolve` and made `d`, or (with `d` null) queued and scheduled
      nothing: the tasks and the queues of the adopted promises are still
      exactly the base plus what the calls so far added. */
  twostate lemma AdoptionStepExact(new p: Promise, new calls: seq<ExecutorCall<Promise>>, new subs: seq<Promise?>, new d: Promise?,
                                   new base: seq<Job>, new baseR: seq<seq<Job>>, new baseJ: seq<seq<Job>>, new rt: Runtime)
    requires old(allocated(p)) && old(allocated(calls)) && old(allocated(subs)) && old(allocated(base))
    requires old(allocated(baseR)) && old(allocated(baseJ)) && old(allocated(rt))
    requires |subs| < |calls|
    requires old(ExecutorExact(p, calls, subs, base, baseR, baseJ, rt))
    requires d == null ==> AdopteesKept(calls, null) && rt.tasks == old(rt.tasks)
    requires d != null ==>
      Adopts(calls[|subs|]) && AdopteesKept(calls, calls[|subs|].v.p) && calls[|subs|].v.p.Subscribed(ResolveOf(p), RejectOf(p), d, rt)
    ensures ExecutorExact(p, calls, subs + [d], base, baseR, baseJ, rt)
    ensures d == null ==> ExecutorExact(p, calls, subs, base, baseR, baseJ, rt)
  {
    AdoptionTasksKept(p, calls, subs);
    AdoptionTasksSnoc(p, calls, subs, d);
    AdopteeQueuesSnoc(p, calls, subs, d, baseR, baseJ);
  }

  /** The jobs of the adopting calls depend on nothing but the state of the
      promises they adopt. */
  twostate lemma AdoptionTasksKept(new p: Promise, new calls: seq<ExecutorCall<Promise>>, new subs: seq<Promise?>)
    requires old(allocated(p)) && old(allocated(calls)) && old(allocated(subs))
    requires |subs| <= |calls|
    requires forall k | 0 <= k < |calls| && Adopts(calls[k]) :: calls[k].v.p.status == old(calls[k].v.p.status)
    ensures AdoptionTasks(p, calls, subs) == old(AdoptionTasks(p, calls, subs))
    decreases |subs|
  {
    if subs != [] {
      AdoptionTasksKept(p, calls, subs[..|subs| - 1]);
    }
  }

  lemma AdoptionTasksSnoc(p: Promise, calls: seq<ExecutorCall<Promise>>, subs: seq<Promise?>, d: Promise?)
    requires |subs| < |calls|
    ensures AdoptionTasks(p, calls, subs + [d]) == AdoptionTasks(p, calls, subs)
      + if Adopts(calls[|subs|]) && d != null then ThenJobs(calls[|subs|].v.p, ResolveOf(p), RejectOf(p), d) else []
  {
    assert (subs + [d])[..|subs|] == subs;
  }

  /** Calls none of which hands `resolve` a promise schedule nothing. */
  lemma {:induction false} NoAdoptionTasks(p: Promise, calls: seq<ExecutorCall<Promise>>, subs: seq<Promise?>)
    requires |subs| <= |calls| && forall k | 0 <= k < |subs| :: !Adopts(calls[k])
    ensures AdoptionTasks(p, calls, subs) == []
  {
    if subs != [] {
      NoAdoptionTasks(p, calls, subs[..|subs| - 1]);
    }
  }

  lemma AdoptionPushesSnoc(q: Promise, fulfil: bool, p: Promise, calls: seq<ExecutorCall<Promise>>, subs: seq<Promise?>, d: Promise?)
    requires |subs| < |calls|
    ensures AdoptionPushes(q, fulfil, p, calls, subs + [d]) == AdoptionPushes(q, fulfil, p, calls, subs)
      + if calls[|subs|] == CallResolve(Promise(q)) && d != null && q.status == Pending
        then [if fulfil then Job(ResolveOf(p), q, true, d) else Job(RejectOf(p), q, false, d)]
        else []
  {
    assert (subs + [d])[..|subs|] == subs;
  }

  /** The callback queues of every promise handed to `resolve` by `calls`
      are what they held before the executor ran (`baseR[k]` and `baseJ[k]`
      for the `k`-th call) followed by what the first `|subs|` calls pushed. */
  ghost predicate AdopteeQueues(p: Promise, calls: seq<ExecutorCall<Promise>>, subs: seq<Promise?>,
                                baseR: seq<seq<Job>>, baseJ: seq<seq<Job>>)
    reads Adoptees(calls, |calls|)`status, Adoptees(calls, |calls|)`onResolvedCallbacks,
      Adoptees(calls, |calls|)`onRejectedCallbacks
  {
    |subs| <= |calls| == |baseR| == |baseJ|
    && forall k | 0 <= k < |calls| && Adopts(calls[k]) ::
         calls[k].v.p.onResolvedCallbacks == baseR[k] + AdoptionPushes(calls[k].v.p, true, p, calls, subs)
         && calls[k].v.p.onRejectedCallbacks == baseJ[k] + AdoptionPushes(calls[k].v.p, false, p, calls, subs)
  }

  /** One more executor call: the promise it handed `resolve`, if any, got
      its callback pair (when `d` is what that `then` made), every other
      adopted promise kept its queues, and all kept their state. */
  twostate lemma AdopteeQueuesSnoc(new p: Promise, new calls: seq<ExecutorCall<Promise>>, new subs: seq<Promise?>, new d: Promise?,
                                   new baseR: seq<seq<Job>>, new baseJ: seq<seq<Job>>)
    requires old(allocated(p)) && old(allocated(calls)) && old(allocated(subs)) && old(allocated(baseR)) && old(allocated(baseJ))
    requires old(AdopteeQueues(p, calls, subs, baseR, baseJ)) && |subs| < |calls|
    requires d != null ==> Adopts(calls[|subs|]) && Pushed(calls[|subs|].v.p, ResolveOf(p), RejectOf(p), d)
    requires forall k | 0 <= k < |calls| && Adopts(calls[k]) :: calls[k].v.p.status == old(calls[k].v.p.status)
    requires forall k | 0 <= k < |calls| && Adopts(calls[k]) && (d == null || calls[k].v.p != calls[|subs|].v.p) ::
      calls[k].v.p.onResolvedCallbacks == old(calls[k].v.p.onResolvedCallbacks)
      && calls[k].v.p.onRejectedCallbacks == old(calls[k].v.p.onRejectedCallbacks)
    ensures AdopteeQueues(p, calls, subs + [d], baseR, baseJ)
    ensures d == null ==> AdopteeQueues(p, calls, subs, baseR, baseJ)
  {
    forall k | 0 <= k < |calls| && Adopts(calls[k])
      ensures calls[k].v.p.onResolvedCallbacks == baseR[k] + AdoptionPushes(calls[k].v.p, true, p, calls, subs + [d])
      ensures calls[k].v.p.onRejectedCallbacks == baseJ[k] + AdoptionPushes(calls[k].v.p, false, p, calls, subs + [d])
      ensures d == null ==> calls[k].v.p.onResolvedCallbacks == baseR[k] + AdoptionPushes(calls[k].v.p, true, p, calls, subs)
      ensures d == null ==> calls[k].v.p.onRejectedCallbacks == baseJ[k] + AdoptionPushes(calls[k].v.p, false, p, calls, subs)
    {
      var q := calls[k].v.p;
      AdoptionPushesSnoc(q, true, p, calls, subs, d);
      AdoptionPushesSnoc(q, false, p, calls, subs, d);
      assert old(AdoptionPushes(q, true, p, calls, subs)) == AdoptionPushes(q, true, p, calls, subs);
      assert old(AdoptionPushes(q, false, p, calls, subs)) == AdoptionPushes(q, false, p, calls, subs);
    }
  }

  /** No promise of `S` other than `target` changed its settlement. */
  twostate predicate OthersKeepSettlement(S: set<object>, target: Promise?)
    reads S
  {
    forall p: Promise | p in S && p != target ::
      p.status == old(p.status) && p.value == old(p.value) && p.reason == old(p.reason)
  }

  /** A promise of `S` that was settled is settled the same way still. */
  twostate predicate SettledKept(S: set<object>)
    reads S
  {
    forall p: Promise | p in S && old(p.Settled()).Some? :: p.Settled() == old(p.Settled())
  }

  /** Settled promises stay settled when only `p` and `q` may change state
      and neither of them changes its settlement. */
  twostate lemma SettledKeptBy(new S: set<object>, new p: Promise, new q: Promise)
    requires old(allocated(S)) && old(allocated(p)) && old(allocated(q))
    requires OthersKeepSettlement(S - {p}, q)
    requires old(p.Settled()).Some? ==> p.Settled() == old(p.Settled())
    requires old(q.Settled()).Some? ==> q.Settled() == old(q.Settled())
    ensures SettledKept(S)
  {
  }

  /** No aggregate of `S` other than `agg` changed, and no latch of `S`
      other than `latch`. */
  twostate predicate ClosuresKept(S: set<object>, latch: Latch?, agg: Aggregate?)
    reads S
  {
    (forall a: Aggregate | a in S && a != agg :: a.resultArr == old(a.resultArr) && a.orderIndex == old(a.orderIndex))
    && (forall l: Latch | l in S && l != latch :: l.called == old(l.called))
  }

  /**
   * The environment the promises live in: the `setTimeout(fn, 0)` queue,
   * and (for the proofs) the set of every object the library has made.
   */
  class Runtime {
    /** Tasks waiting for a later turn, oldest first. */
    var tasks: seq<Job>
    /** Every promise, latch and aggregate made so far. */
    ghost var Repr: set<object>

    /** Everything a stored value, a queued callback or a task refers to is known. */
    ghost predicate Valid()
      reads this, Repr
    {
      this !in Repr
      && (forall p: Promise {:trigger p.Inv(Repr)} | p in Repr :: p.Inv(Repr))
      && (forall a: Aggregate {:trigger a.Inv(Repr)} | a in Repr :: a.Inv(Repr))
      && (forall k | 0 <= k < |tasks| :: JobRefs(tasks[k]) <= Repr)
    }

    /** The heap only grows, and queued tasks stay queued in their order. */
    twostate predicate Extends()
      reads this
    {
      old(Repr) <= Repr && fresh(Repr - old(Repr)) && old(tasks) <= tasks
    }

    /** Records an object the library has just made. */
    ghost method Add(o: object)
      requires Valid() && o != this && o !in Repr
      requires o is Promise ==> (o as Promise).Inv(Repr + {o})
      requires o is Aggregate ==> (o as Aggregate).Inv(Repr + {o})
      modifies this
      ensures Valid() && Repr == old(Repr) + {o} && tasks == old(tasks)
    {
      forall p: Promise | p in Repr
        ensures p.Inv(Repr + {o})
      {
        assert p.Inv(Repr);
      }
      forall a: Aggregate | a in Repr
        ensures a.Inv(Repr + {o})
      {
        assert a.Inv(Repr);
      }
      Repr := Repr + {o};
    }

    constructor ()
      ensures Valid() && tasks == [] && Repr == {}
    {
      tasks := [];
      Repr := {};
    }

    /** A zero-delay timer: `job` runs after everything already queued. */
    method Schedule(job: Job)
      requires Valid() && JobRefs(job) <= Repr
      modifies this
      ensures Valid() && Repr == old(Repr) && tasks == old(tasks) + [job]
    {
      tasks := tasks + [job];
    }

    /** Running a callback list in order: each queued callback schedules its job. */
    method RunCallbacks(callbacks: seq<Job>)
      requires Valid() && forall k | 0 <= k < |callbacks| :: JobRefs(callbacks[k]) <= Repr
      modifies this
      ensures Valid() && Repr == old(Repr) && tasks == old(tasks) + callbacks
    {
      var i := 0;
      while i < |callbacks|
        invariant 0 <= i <= |callbacks|
        invariant Valid() && Repr == old(Repr) && tasks == old(tasks) + callbacks[..i]
      {
        Schedule(callbacks[i]);
        i := i + 1;
      }
    }

    /** The event loop takes the oldest task, if there is one. */
    method Next() returns (job: Option<Job>)
      requires Valid()
      modifies this
      ensures Valid() && Repr == old(Repr)
      ensures old(tasks) == [] ==> job == None && tasks == []
      ensures old(tasks) != [] ==> job == Some(old(tasks)[0]) && tasks == old(tasks)[1..] && JobRefs(job.value) <= Repr
    {
      if tasks == [] {
        return None;
      }
      job := Some(tasks[0]);
      tasks := tasks[1..];
    }
  }

  /** The input a job hands to its handler. */
  function Input(j: Job): JsValue
    reads j.source
  {
    if j.onFulfilled then j.source.value else j.source.reason
  }

  /**
   * The body of a task scheduled by `then`: call the handler with the
   * source's value or reason, then settle the derived promise from what it
   * returned (through the resolution procedure) or threw (rejection).
   * `oracle` is what a user handler comes to. The ghost results name what
   * the task creates: the handler's outcome, the latch and `then` result of
   * an adoption the handler makes, and those of the derived promise's own
   * resolution.
   */
  method RunJob(job: Job, oracle: Outcome, rt: Runtime)
    returns (ghost outcome: Outcome, ghost latch: Latch?, ghost d: Promise?, ghost latch': Latch?, ghost d': Promise?)
    requires rt.Valid() && JobRefs(job) <= rt.Repr && OutcomeRefs(oracle) <= rt.Repr
    modifies rt, rt.Repr
    ensures rt.Valid() && rt.Extends()
    // a settled promise never changes again
    ensures SettledKept(old(rt.Repr))
    // a default or user handler: the derived promise is settled from its
    // outcome, and that resolution schedules all that is scheduled
    ensures IsPure(job.handler) ==>
      outcome == PureOutcome(job.handler, old(Input(job)), oracle)
      && job.derived.Settled() == FirstWins(old(job.derived.Settled()), OutcomeResolution(outcome, job.derived))
      && OthersKeepSettlement(old(rt.Repr), job.derived) && ClosuresKept(old(rt.Repr), null, null)
      && DerivedTasks(old(rt.Repr), outcome, job.derived, latch', d', rt)
    ensures job.handler.ResolveOf? || job.handler.RejectOf? ==>
      ConstructorJobDone(old(rt.Repr), job, old(Input(job)), outcome, latch', d', rt)
    ensures job.handler.OnSuccess? || job.handler.OnFailure? ==>
      LatchJobDone(old(rt.Repr), job, old(Input(job)), latch, d, rt)
    ensures job.handler.Collect? ==> CollectJobDone(old(rt.Repr), job, old(Input(job)), rt)
  {
    latch, d, latch', d' := null, null, null, null;
    assert job.source.Inv(rt.Repr);
    if IsPure(job.handler) {
      ghost var o := PureOutcome(job.handler, Input(job), oracle);
      assert o.Returned? ==> Refs(Innermost(o.v)) <= Refs(o.v) <= rt.Repr;
      outcome, latch', d' := RunHandlerJob(job, oracle, rt);
    } else if job.handler.ResolveOf? && Input(job).Promise? {
      outcome, latch', d' := RunAdoptingJob(job, rt);
    } else if job.handler.ResolveOf? || job.handler.RejectOf? {
      outcome := RunConstructorJob(job, rt);
    } else if job.handler.OnSuccess? {
      outcome := Returned(Undefined);
      assert Refs(Innermost(Input(job))) <= Refs(Input(job));
      latch, d := RunSuccessJob(job, rt);
    } else if job.handler.OnFailure? {
      outcome := Returned(Undefined);
      RunFailureJob(job, rt);
    } else {
      outcome := Returned(Undefined);
      assert job.handler.agg.Inv(rt.Repr);
      RunCollectJob(job, rt);
    }
  }

  /** A task whose handler is a default or a function of the caller's: the
      handler's only effect is its outcome. */
  method RunHandlerJob(job: Job, oracle: Outcome, rt: Runtime) returns (outcome: Outcome, ghost latch: Latch?, ghost d: Promise?)
    requires IsPure(job.handler)
    requires rt.Valid() && JobRefs(job) <= rt.Repr && OutcomeRefs(oracle) <= rt.Repr
    modifies rt, job.derived, OutcomeAdoptees(PureOutcome(job.handler, Input(job), oracle))
    ensures rt.Valid() && rt.Extends()
    ensures outcome == PureOutcome(job.handler, old(Input(job)), oracle)
    ensures job.derived.Settled() == FirstWins(old(job.derived.Settled()), OutcomeResolution(outcome, job.derived))
    ensures OthersKeepSettlement(old(rt.Repr), job.derived) && ClosuresKept(old(rt.Repr), null, null)
    ensures DerivedTasks(old(rt.Repr), outcome, job.derived, latch, d, rt)
  {
    assert job.source.Inv(rt.Repr);
    outcome := PureOutcome(job.handler, Input(job), oracle);
    latch, d := SettleDerived(outcome, job.derived, rt);
  }

  /**
   * What a task whose handler is the `resolve` or `reject` closure of a
   * constructor leaves behind, when the derived promise is not the one the
   * closure settles (it never is: `then` makes the derived promise fresh).
   * The closure settles its promise and schedules its callbacks; it returns
   * undefined, which fulfils the derived promise and schedules its
   * callbacks after. `resolve` given a promise of the library only
   * subscribes to it and returns the `then` result, a fresh pending
   * promise, which the derived promise adopts in turn through the fresh
   * `latch`, that `then` making `d`. No other promise of `S` changes its
   * state or its callbacks, and no latch or aggregate changes.
   */
  twostate predicate ConstructorJobDone(S: set<object>, job: Job, input: JsValue, new outcome: Outcome,
                                        new latch: Latch?, new d: Promise?, rt: Runtime)
    requires job.handler.ResolveOf? || job.handler.RejectOf?
    reads S, rt, job.derived, job.handler.p, if input.Promise? then {input.p} else {}
    reads latch, if outcome.Returned? && outcome.v.Promise? then {outcome.v.p} else {}
  {
    var p, derived := job.handler.p, job.derived;
    p != derived ==>
      ClosuresKept(S, null, null) && OthersKeepSettlement(S - {p}, derived)
      && if job.handler.ResolveOf? && input.Promise? then
        outcome.Returned? && outcome.v.Promise? && fresh(outcome.v.p)
        && p.Settled() == old(p.Settled()) && derived.Settled() == old(derived.Settled())
        && QueuesKept(S, input.p) && Pushed(input.p, ResolveOf(p), RejectOf(p), outcome.v.p)
        && rt.tasks == old(rt.tasks) + ThenJobs(input.p, ResolveOf(p), RejectOf(p), outcome.v.p)
        // the derived promise listens to the returned one, still pending
        && latch != null && d != null && fresh(latch) && fresh(d) && !latch.called
        && outcome.v.p.Settled() == None
        && outcome.v.p.onResolvedCallbacks == [Job(OnSuccess(latch, derived), outcome.v.p, true, d)]
        && outcome.v.p.onRejectedCallbacks == [Job(OnFailure(latch, derived), outcome.v.p, false, d)]
      else
        QueuesKept(S, null)
        && outcome == Returned(Undefined)
        && p.Settled() == FirstWins(old(p.Settled()),
                                    Some(if job.handler.ResolveOf? then Fulfillment(input) else Rejection(input)))
        && derived.Settled() == FirstWins(old(derived.Settled()), Some(Fulfillment(Undefined)))
        && rt.tasks == old(rt.tasks) + Notified(old(p.status), p) + Notified(old(derived.status), derived)
  }

  /** The end of a task whose closure returned undefined:
      `resolvePromise(undefined, promise2, ...)`, which finds no object and
      hands the value to `resolve` (the plain branch of the procedure). */
  method ResolveUndefined(derived: Promise, rt: Runtime)
    requires rt.Valid() && derived in rt.Repr
    modifies derived, rt
    ensures rt.Valid() && rt.Repr == old(rt.Repr)
    ensures derived.Settled() == FirstWins(old(derived.Settled()), Some(Fulfillment(Undefined)))
    ensures derived.onResolvedCallbacks == old(derived.onResolvedCallbacks)
    ensures derived.onRejectedCallbacks == old(derived.onRejectedCallbacks)
    ensures rt.tasks == old(rt.tasks) + Notified(old(derived.status), derived)
    ensures OthersKeepSettlement(old(rt.Repr), derived) && QueuesKept(old(rt.Repr), null) && ClosuresKept(old(rt.Repr), null, null)
  {
    assert !IsObjectLike<Promise>(Undefined);
    var _ := derived.Resolve(Undefined, rt);
  }

  /** A task whose handler is the `resolve` or `reject` closure of a
      constructor, given anything but a promise of the library. */
  method RunConstructorJob(job: Job, rt: Runtime) returns (outcome: Outcome)
    requires job.handler.ResolveOf? || job.handler.RejectOf?
    requires rt.Valid() && JobRefs(job) <= rt.Repr && !(job.handler.ResolveOf? && Input(job).Promise?)
    modifies rt, job.handler.p, job.derived
    ensures rt.Valid() && rt.Extends()
    ensures SettledKept(old(rt.Repr))
    ensures ConstructorJobDone(old(rt.Repr), job, old(Input(job)), outcome, null, null, rt)
  {
    assert job.source.Inv(rt.Repr);
    var input := Input(job);
    var p := job.handler.p;
    CallClosure(job.handler, input, rt);
    outcome := Returned(Undefined);
    ghost var ps := p.status;
    ResolveUndefined(job.derived, rt);
    assert p != job.derived ==> p.status == ps;
  }

  /** Calling the `resolve` or `reject` closure of a constructor with
      anything but a promise of the library: it settles its promise unless
      already settled, schedules that promise's callbacks, and never throws. */
  method CallClosure(h: Handler, input: JsValue, rt: Runtime)
    requires (h.ResolveOf? && !input.Promise?) || h.RejectOf?
    requires rt.Valid() && h.p in rt.Repr && Refs(input) <= rt.Repr
    modifies rt, h.p
    ensures rt.Valid() && rt.Repr == old(rt.Repr)
    ensures h.p.Settled() == FirstWins(old(h.p.Settled()), Some(if h.ResolveOf? then Fulfillment(input) else Rejection(input)))
    ensures rt.tasks == old(rt.tasks) + Notified(old(h.p.status), h.p)
    ensures OthersKeepSettlement(old(rt.Repr), h.p) && QueuesKept(old(rt.Repr), null) && ClosuresKept(old(rt.Repr), null, null)
  {
    if h.ResolveOf? {
      var _ := h.p.Resolve(input, rt);
    } else {
      h.p.Reject(input, rt);
    }
  }

  /** A task whose handler is the `resolve` closure of a constructor, given
      a promise of the library: `resolve` subscribes to it and returns the
      `then` result, which the derived promise adopts in turn. */
  method RunAdoptingJob(job: Job, rt: Runtime) returns (outcome: Outcome, ghost latch: Latch?, ghost d: Promise?)
    requires job.handler.ResolveOf? && rt.Valid() && JobRefs(job) <= rt.Repr && Input(job).Promise?
    modifies rt, job.handler.p, Input(job).p, job.derived
    ensures rt.Valid() && rt.Extends()
    ensures SettledKept(old(rt.Repr))
    ensures ConstructorJobDone(old(rt.Repr), job, old(Input(job)), outcome, latch, d, rt)
  {
    assert job.source.Inv(rt.Repr);
    var ret := ResolveAdopting(job.handler.p, Input(job).p, rt);
    outcome := Returned(Promise(ret));
    latch, d := AdoptPending(ret, job.derived, rt);
    SettledKeptBy(old(rt.Repr), job.handler.p, job.derived);
  }

  /** The `resolve` closure of `p` called with a promise `q` of the library:
      it subscribes the closures of `p` to `q` and returns what that `then`
      made, a fresh pending promise; nothing else changes. */
  method ResolveAdopting(p: Promise, q: Promise, rt: Runtime) returns (ret: Promise)
    requires rt.Valid() && p in rt.Repr && q in rt.Repr
    modifies p, rt, q
    ensures rt.Valid() && rt.Extends() && fresh(ret) && rt.Repr == old(rt.Repr) + {ret}
    ensures ret.Settled() == None && ret.onResolvedCallbacks == [] && ret.onRejectedCallbacks == []
    ensures OthersKeepSettlement(old(rt.Repr), null) && QueuesKept(old(rt.Repr), q) && ClosuresKept(old(rt.Repr), null, null)
    ensures Pushed(q, ResolveOf(p), RejectOf(p), ret)
    ensures rt.tasks == old(rt.tasks) + ThenJobs(q, ResolveOf(p), RejectOf(p), ret)
  {
    assert p.Inv(rt.Repr);
    var r := p.Resolve(Promise(q), rt);
    ret := r.p;
    assert p.Inv(rt.Repr);
  }

  /** `resolvePromise(q, derived, ...)` for a pending promise `q` of the
      library with empty queues: it only subscribes a fresh callback pair to
      `q`; nothing is scheduled and nothing else changes. */
  method AdoptPending(q: Promise, derived: Promise, rt: Runtime) returns (ghost latch: Latch?, ghost d: Promise?)
    requires rt.Valid() && q in rt.Repr && derived in rt.Repr && q != derived
    requires q.status == Pending && q.onResolvedCallbacks == [] && q.onRejectedCallbacks == []
    modifies rt, q, derived
    ensures rt.Valid() && rt.Extends() && rt.tasks == old(rt.tasks)
    ensures OthersKeepSettlement(old(rt.Repr), null) && QueuesKept(old(rt.Repr), q) && ClosuresKept(old(rt.Repr), null, null)
    ensures latch != null && d != null && fresh(latch) && fresh(d) && !latch.called
    ensures q.onResolvedCallbacks == [Job(OnSuccess(latch, derived), q, true, d)]
    ensures q.onRejectedCallbacks == [Job(OnFailure(latch, derived), q, false, d)]
  {
    assert derived.Inv(rt.Repr) && Resolution(Promise(q), derived) == None && Adoptee(Promise(q)) == q;
    latch, d := ResolvePromise(Promise(q), derived, rt);
    assert derived.Inv(rt.Repr);
  }

  /**
   * What a task whose handler is one of the two callbacks `resolvePromise`
   * hands to a promise's `then` leaves behind, when the derived promise is
   * neither the one the callback settles nor one it adopts. Only the first
   * call of either callback has an effect: the success callback resolves
   * its promise with the value, which may adopt once more (`latch`, `d`);
   * the failure callback rejects it. Either returns undefined, which
   * fulfils the derived promise and schedules its callbacks last. No other
   * promise of `S` changes its state, none but the one adopted its
   * callbacks, and no other latch or aggregate changes.
   */
  twostate predicate LatchJobDone(S: set<object>, job: Job, input: JsValue, new latch: Latch?, new d: Promise?, rt: Runtime)
    requires job.handler.OnSuccess? || job.handler.OnFailure?
    reads S, rt, job.derived, job.handler.latch, job.handler.target, latch, Adoptee(input)
  {
    var h, derived := job.handler, job.derived;
    var first := !old(h.latch.called);
    var adopting := first && h.OnSuccess? && Adoptee(input) != null;
    h.target != derived && Adoptee(input) != derived ==>
      ClosuresKept(S, h.latch, null) && OthersKeepSettlement(S - {h.target}, derived)
      && QueuesKept(S, if adopting then Adoptee(input) else null)
      && (adopting ==>
            latch != null && d != null && fresh(latch) && fresh(d) && !latch.called
            && Pushed(Adoptee(input), OnSuccess(latch, h.target), OnFailure(latch, h.target), d))
      && h.latch.called
      && derived.Settled() == FirstWins(old(derived.Settled()), Some(Fulfillment(Undefined)))
      && h.target.Settled() == (if !first then old(h.target.Settled())
                                else FirstWins(old(h.target.Settled()),
                                               if h.OnSuccess? then Resolution(input, h.target) else Some(Rejection(input))))
      && rt.tasks == old(rt.tasks)
                     + (if first then Notified(old(h.target.status), h.target) else [])
                     + (if first && h.OnSuccess? then AdoptionJobs(input, h.target, latch, d) else [])
                     + Notified(old(derived.status), derived)
  }

  /** A task whose handler is the success callback of `resolvePromise`. */
  method RunSuccessJob(job: Job, rt: Runtime) returns (ghost latch: Latch?, ghost d: Promise?)
    requires job.handler.OnSuccess? && rt.Valid() && JobRefs(job) <= rt.Repr
    modifies rt, job.handler.latch, job.handler.target, job.derived
    modifies if job.handler.latch.called then {} else AdopteeSet(Input(job))
    ensures rt.Valid() && rt.Extends()
    ensures SettledKept(old(rt.Repr))
    ensures LatchJobDone(old(rt.Repr), job, old(Input(job)), latch, d, rt)
  {
    assert job.source.Inv(rt.Repr);
    var input := Input(job);
    var target := job.handler.target;
    latch, d := Succeed(job.handler.latch, target, input, rt);
    ghost var first := !old(job.handler.latch.called);
    ghost var mid := rt.tasks;
    ghost var added := (if first then Notified(old(target.status), target) else []) + (if first then AdoptionJobs(input, target, latch, d) else []);
    assert mid == old(rt.tasks) + added;
    ghost var ts := target.status;
    ghost var adopting := first && Adoptee(input) != null;
    assert QueuesKept(old(rt.Repr), if adopting then Adoptee(input) else null);
    // the callback returns undefined and never throws
    ResolveUndefined(job.derived, rt);
    assert target != job.derived ==> target.status == ts;
    assert target != job.derived && Adoptee(input) != job.derived ==>
      added == (if first then Notified(old(target.status), target) else []) + (if first then AdoptionJobs(input, target, latch, d) else []);
    SettledKeptBy(old(rt.Repr), target, job.derived);
  }

  /** A task whose handler is the failure callback of `resolvePromise`. */
  method RunFailureJob(job: Job, rt: Runtime)
    requires job.handler.OnFailure? && rt.Valid() && JobRefs(job) <= rt.Repr
    modifies rt, job.handler.latch, job.handler.target, job.derived
    ensures rt.Valid() && rt.Extends()
    ensures SettledKept(old(rt.Repr))
    ensures LatchJobDone(old(rt.Repr), job, old(Input(job)), null, null, rt)
  {
    assert job.source.Inv(rt.Repr);
    var input := Input(job);
    var target := job.handler.target;
    Fail(job.handler.latch, target, input, rt);
    ghost var ts := target.status;
    // the callback returns undefined and never throws
    ResolveUndefined(job.derived, rt);
    assert target != job.derived ==> target.status == ts;
  }

  /** What a task whose handler stores its value at position `index` of the
      result of `all` leaves behind, when the derived promise is not the
      aggregate's: the value lands at its index and the counter grows; the
      last one fulfils the aggregate, whose callbacks are scheduled; then
      undefined fulfils the derived promise. No other promise of `S`
      changes its state or its callbacks, and no latch or other aggregate
      changes. */
  twostate predicate CollectJobDone(S: set<object>, job: Job, input: JsValue, rt: Runtime)
    requires job.handler.Collect?
    reads S, rt, job.derived, job.handler.agg, job.handler.agg.target
  {
    var a, derived := job.handler.agg, job.derived;
    a.target != derived ==>
      QueuesKept(S, null) && ClosuresKept(S, null, a) && OthersKeepSettlement(S - {a.target}, derived)
      && a.resultArr == Store(old(a.resultArr), job.handler.index, input) && a.orderIndex == old(a.orderIndex) + 1
      && a.target.Settled() == (if a.orderIndex == a.length
                                then FirstWins(old(a.target.Settled()), Some(Fulfillment(Array(a.resultArr))))
                                else old(a.target.Settled()))
      && derived.Settled() == FirstWins(old(derived.Settled()), Some(Fulfillment(Undefined)))
      && rt.tasks == old(rt.tasks) + Notified(old(a.target.status), a.target) + Notified(old(derived.status), derived)
  }

  /** A task whose handler is the collector `all` hands to each promise. */
  method RunCollectJob(job: Job, rt: Runtime)
    requires job.handler.Collect?
    requires rt.Valid() && JobRefs(job) <= rt.Repr
    modifies rt, job.handler.agg, job.handler.agg.target, job.derived
    ensures rt.Valid() && rt.Extends()
    ensures SettledKept(old(rt.Repr))
    ensures CollectJobDone(old(rt.Repr), job, old(Input(job)), rt)
  {
    assert job.source.Inv(rt.Repr);
    assert job.handler.agg.Inv(rt.Repr);
    job.handler.agg.ProcessResultByKey(Input(job), job.handler.index, rt);
    // the collector returns undefined and never throws
    ResolveUndefined(job.derived, rt);
  }

  /** The promise the derived promise may adopt after a handler came to `o`. */
  function OutcomeAdoptees(o: Outcome): set<Promise>
  {
    if o.Returned? then AdopteeSet(o.v) else {}
  }

  /** The end of a task: `resolvePromise(x, promise2, ...)` on a returned
      value, the catch block's `reject(error)` on a thrown one. */
  method SettleDerived(outcome: Outcome, derived: Promise, rt: Runtime) returns (ghost latch: Latch?, ghost d: Promise?)
    requires rt.Valid() && derived in rt.Repr && OutcomeRefs(outcome) <= rt.Repr
    modifies rt, derived, OutcomeAdoptees(outcome)
    ensures rt.Valid() && rt.Extends()
    ensures derived.Settled() == FirstWins(old(derived.Settled()), OutcomeResolution(outcome, derived))
    ensures OthersKeepSettlement(old(rt.Repr), derived)
    ensures ClosuresKept(old(rt.Repr), null, null)
    ensures DerivedTasks(old(rt.Repr), outcome, derived, latch, d, rt)
  {
    match outcome
    case Returned(x) =>
      latch, d := ResolvePromise(x, derived, rt);
    case Threw(e) =>
      derived.Reject(e, rt);
      latch, d := null, null;
  }

  /** The `called` variable of one run of `resolvePromise`. */
  class Latch {
    var called: bool

    constructor (rt: Runtime)
      requires rt.Valid()
      modifies rt
      ensures rt.Valid() && rt.Repr == old(rt.Repr) + {this} && rt.tasks == old(rt.tasks)
      ensures !called
    {
      called := false;
      new;
      rt.Add(this);
    }
  }

  /** The state `all` keeps for one call: the result array, the counter and
      the promise it returns. */
  class Aggregate {
    var resultArr: seq<JsValue>
    var orderIndex: nat
    /** `values.length` */
    const length: nat
    /** The promise `all` returns, whose `resolve` the last result calls. */
    const target: Promise

    ghost predicate Inv(S: set<object>)
      reads this
    {
      target in S && forall k | 0 <= k < |resultArr| :: Refs(resultArr[k]) <= S
    }

    constructor (target: Promise, length: nat, rt: Runtime)
      requires rt.Valid() && target in rt.Repr
      modifies rt
      ensures rt.Valid() && rt.Repr == old(rt.Repr) + {this} && rt.tasks == old(rt.tasks)
      ensures this.target == target && this.length == length && resultArr == [] && orderIndex == 0
    {
      this.target := target;
      this.length := length;
      resultArr := [];
      orderIndex := 0;
      new;
      rt.Add(this);
    }

    /** `processResultByKey(value, index)`: store the value at its index and
        fulfil the aggregate when the counter reaches the input length. */
    method ProcessResultByKey(v: JsValue, index: nat, rt: Runtime)
      requires rt.Valid() && this in rt.Repr && Refs(v) <= rt.Repr
      modifies this, target, rt
      ensures rt.Valid() && rt.Repr == old(rt.Repr)
      ensures rt.tasks == old(rt.tasks) + Notified(old(target.status), target)
      ensures target.onResolvedCallbacks == old(target.onResolvedCallbacks)
      ensures target.onRejectedCallbacks == old(target.onRejectedCallbacks)
      ensures resultArr == Store(old(resultArr), index, v) && orderIndex == old(orderIndex) + 1
      ensures target.Settled() == if orderIndex == length
                                  then FirstWins(old(target.Settled()), Some(Fulfillment(Array(resultArr))))
                                  else old(target.Settled())
    {
      assert Inv(rt.Repr);
      resultArr := Store(resultArr, index, v);
      orderIndex := orderIndex + 1;
      if orderIndex == length {
        assert Refs(Array(resultArr)) <= rt.Repr;
        var _ := target.Resolve(Array(resultArr), rt);
      }
    }

    /** The loop of `all` over `values`, inside the executor's try block:
        it stops at the first throw, which is handed back with the number of
        rounds run. */
    method Walk(values: seq<JsValue>, ghost states: seq<Status>, ghost baseR: seq<seq<Job>>, ghost baseJ: seq<seq<Job>>, rt: Runtime)
      returns (thrown: Option<JsValue>, n: nat, ghost derived: seq<Promise>)
      requires rt.Valid() && this in rt.Repr && length == |values|
      requires forall k | 0 <= k < |values| :: Refs(values[k]) <= rt.Repr && values[k] != Promise(target)
      requires AllProgress(values, 0, None, this, [], rt)
      requires |states| == |values| && forall j | 0 <= j < |values| && values[j].Promise? :: states[j] == values[j].p.status
      requires ElementQueues(values, this, [], states, baseR, baseJ)
      modifies rt, this, target, Elements(values)
      ensures rt.Valid() && rt.Extends()
      ensures OthersKeepSettlement(old(rt.Repr), target) && QueuesGrow(old(rt.Repr) - {target})
      ensures target.onResolvedCallbacks == old(target.onResolvedCallbacks)
      ensures target.onRejectedCallbacks == old(target.onRejectedCallbacks)
      ensures thrown.Some? ==> Refs(thrown.value) <= rt.Repr
      ensures n <= |values| && (thrown.None? ==> n == |values|)
      ensures AllProgress(values, n, thrown, this, derived, rt)
      // unless a foreign thenable was called, the tasks are exactly those of the elements subscribed
      ensures |derived| <= PromisePrefix(values)
      ensures n <= PromisePrefix(values) || !IsForeignThenable(values[PromisePrefix(values)]) ==>
        rt.tasks == old(rt.tasks) + ElementJobs(values, this, derived, states)
      ensures n <= PromisePrefix(values) || !IsForeignThenable(values[PromisePrefix(values)]) ==>
        ElementQueues(values, this, derived, states, baseR, baseJ)
    {
      n := 0;
      thrown := None;
      derived := [];
      while n < |values| && thrown.None?
        invariant 0 <= n <= |values|
        decreases |values| - n
        invariant rt.Valid() && rt.Extends() && this in rt.Repr
        invariant OthersKeepSettlement(old(rt.Repr), target) && QueuesGrow(old(rt.Repr) - {target})
        invariant target.onResolvedCallbacks == old(target.onResolvedCallbacks)
        invariant target.onRejectedCallbacks == old(target.onRejectedCallbacks)
        invariant thrown.Some? ==> Refs(thrown.value) <= rt.Repr
        invariant AllProgress(values, n, thrown, this, derived, rt)
        invariant |derived| <= PromisePrefix(values)
        invariant n <= PromisePrefix(values) || !IsForeignThenable(values[PromisePrefix(values)]) ==>
          rt.tasks == old(rt.tasks) + ElementJobs(values, this, derived, states)
        invariant n <= PromisePrefix(values) || !IsForeignThenable(values[PromisePrefix(values)]) ==>
          ElementQueues(values, this, derived, states, baseR, baseJ)
      {
        assert values[n].Promise? ==> values[n].p in old(rt.Repr) - {target};
        thrown, derived := Promise.Round(values, n, this, derived, states, old(rt.tasks), baseR, baseJ, old(rt.Repr), rt);
        n := n + 1;
      }
    }

    /**
     * One round of the loop of `all` on `element`, the `index`-th value. A
     * promise of the library gets the callback pair; a foreign thenable is
     * called with the same pair at once; reading `then` may throw; and a
     * plain element throws, as the name `value` it passes is unbound.
     * A throw ends the loop and is handed back.
     */
    method Visit(element: JsValue, index: nat, rt: Runtime) returns (thrown: Option<JsValue>, ghost derived: Promise?)
      requires rt.Valid() && this in rt.Repr && Refs(element) <= rt.Repr
      modifies rt, this, target, if element.Promise? then {element.p} else {}
      ensures rt.Valid() && rt.Extends()
      ensures OthersKeepSettlement(old(rt.Repr), target)
      ensures thrown.Some? ==> Refs(thrown.value) <= rt.Repr
      ensures element.Promise? ==>
        thrown == None && derived != null && fresh(derived)
        && unchanged(old(rt.Repr) - {element.p}) && QueuesGrow(old(rt.Repr))
        && element.p.Subscribed(Collect(this, index), RejectOf(target), derived, rt)
      ensures !element.Promise? ==>
        rt.Repr == old(rt.Repr)
        && target.onResolvedCallbacks == old(target.onResolvedCallbacks)
        && target.onRejectedCallbacks == old(target.onRejectedCallbacks)
      ensures !element.Promise? && !IsForeignThenable(element) ==>
        thrown == Some(ElementThrow(element)) && unchanged(rt) && unchanged(old(rt.Repr))
    {
      assert Inv(rt.Repr);
      derived := null;
      if element.Promise? {
        derived := element.p.Then(Some(Collect(this, index)), Some(RejectOf(target)), rt);
        thrown := None;
      } else if IsForeignThenable(element) {
        thrown := CallForeignThenInAll(element.member.script, index, rt);
      } else {
        thrown := Some(ElementThrow(element));
      }
    }

    /** Calling a foreign thenable element's `then` inside `all`, with a
        success callback that stores at `index` and the aggregate's
        `reject`: no latch here, so every success call stores and counts,
        and every failure call tries to reject. */
    method CallForeignThenInAll(script: seq<ForeignCall<Promise>>, index: nat, rt: Runtime) returns (thrown: Option<JsValue>)
      requires rt.Valid() && this in rt.Repr
      requires forall k | 0 <= k < |script| :: Refs(CallPayload(script[k])) <= rt.Repr
      modifies rt, this, target
      ensures rt.Valid() && rt.Repr == old(rt.Repr) && old(rt.tasks) <= rt.tasks
      ensures target.onResolvedCallbacks == old(target.onResolvedCallbacks)
      ensures target.onRejectedCallbacks == old(target.onRejectedCallbacks)
      ensures thrown.Some? ==> Refs(thrown.value) <= rt.Repr
    {
      assert Inv(rt.Repr);
      var k := 0;
      thrown := None;
      while k < |script| && thrown.None?
        invariant 0 <= k <= |script|
        decreases |script| - k
        invariant rt.Valid() && rt.Repr == old(rt.Repr) && old(rt.tasks) <= rt.tasks && this in rt.Repr && target in rt.Repr
        invariant target.onResolvedCallbacks == old(target.onResolvedCallbacks)
        invariant target.onRejectedCallbacks == old(target.onRejectedCallbacks)
        invariant thrown.Some? ==> Refs(thrown.value) <= rt.Repr
      {
        match script[k] {
          case CallSuccess(y) =>
            ProcessResultByKey(y, index, rt);
          case CallFailure(r) =>
            target.Reject(r, rt);
          case Throw(e) =>
            thrown := Some(e);
        }
        k := k + 1;
      }
    }
  }

  class Promise {
    var status: Status
    var value: JsValue
    var reason: JsValue
    /** Callbacks subscribed while pending, each scheduling one job. */
    var onResolvedCallbacks: seq<Job>
    var onRejectedCallbacks: seq<Job>

    /** Only the outcome that matches the state is ever set, and everything
        this promise refers to is in `S`. */
    ghost predicate Inv(S: set<object>)
      reads this
    {
      Refs(value) <= S && Refs(reason) <= S
      && (status != Fulfilled ==> value == Undefined)
      && (status != Rejected ==> reason == Undefined)
      && (forall k | 0 <= k < |onResolvedCallbacks| :: JobRefs(onResolvedCallbacks[k]) <= S)
      && (forall k | 0 <= k < |onRejectedCallbacks| :: JobRefs(onRejectedCallbacks[k]) <= S)
    }

    /** The state of the promise, None while pending. */
    function Settled(): Option<Settlement<Promise>>
      reads this
    {
      match status
      case Pending => None
      case Fulfilled => Some(Fulfillment(value))
      case Rejected => Some(Rejection(reason))
    }

    /** A call `then(f, r)` that produced `d`: on a pending promise it added one
        callback to each queue and scheduled nothing; on a settled one it
        scheduled exactly one job and left the queues alone. Never a handler
        call on the spot. */
    twostate predicate Subscribed(new f: Handler, new r: Handler, new d: Promise, rt: Runtime)
      reads this, rt
    {
      status == old(status) && value == old(value) && reason == old(reason)
      && Pushed(this, f, r, d) && rt.tasks == old(rt.tasks) + ThenJobs(this, f, r, d)
    }

    /** The field initialisation of the constructor: pending, nothing queued. */
    constructor (rt: Runtime)
      requires rt.Valid()
      modifies rt
      ensures rt.Valid() && rt.Repr == old(rt.Repr) + {this} && rt.tasks == old(rt.tasks)
      ensures status == Pending && value == Undefined && reason == Undefined
      ensures onResolvedCallbacks == [] && onRejectedCallbacks == []
    {
      status := Pending;
      value := Undefined;
      reason := Undefined;
      onResolvedCallbacks := [];
      onRejectedCallbacks := [];
      new;
      rt.Add(this);
    }

    /** The `reject` closure: a pending promise becomes rejected and schedules
        its rejection callbacks in order; a settled one does not change. */
    method Reject(r: JsValue, rt: Runtime)
      requires rt.Valid() && this in rt.Repr && Refs(r) <= rt.Repr
      modifies this, rt
      ensures rt.Valid() && rt.Repr == old(rt.Repr)
      ensures Settled() == FirstWins(old(Settled()), Some(Rejection(r)))
      ensures rt.tasks == old(rt.tasks) + if old(status) == Pending then onRejectedCallbacks else []
      ensures onResolvedCallbacks == old(onResolvedCallbacks) && onRejectedCallbacks == old(onRejectedCallbacks)
    {
      assert Inv(rt.Repr);
      if status == Pending {
        status := Rejected;
        reason := r;
        rt.RunCallbacks(onRejectedCallbacks);
      }
    }

    /**
     * The `resolve` closure. A promise of the library is adopted by
     * subscribing this promise's own `resolve` and `reject` to it (whatever
     * this promise's state); the `then` result is returned. Anything else
     * fulfils a pending promise, as a plain value, and schedules its
     * fulfilment callbacks in order.
     */
    method Resolve(v: JsValue, rt: Runtime) returns (ret: JsValue)
      requires rt.Valid() && this in rt.Repr && Refs(v) <= rt.Repr
      modifies this, rt, if v.Promise? then {v.p} else {}
      ensures rt.Valid() && rt.Extends()
      ensures OthersKeepSettlement(old(rt.Repr), this)
      ensures v.Promise? ==>
        Settled() == old(Settled())
        && ret.Promise? && fresh(ret.p) && rt.Repr == old(rt.Repr) + {ret.p} && ret.p.Settled() == None
        && ret.p.onResolvedCallbacks == [] && ret.p.onRejectedCallbacks == []
        && v.p.Subscribed(ResolveOf(this), RejectOf(this), ret.p, rt)
      ensures v.Promise? && v.p != this ==>
        onResolvedCallbacks == old(onResolvedCallbacks) && onRejectedCallbacks == old(onRejectedCallbacks)
      ensures !v.Promise? ==>
        Settled() == FirstWins(old(Settled()), Some(Fulfillment(v)))
        && ret == Undefined && rt.Repr == old(rt.Repr)
        && rt.tasks == old(rt.tasks) + (if old(status) == Pending then onResolvedCallbacks else [])
        && onResolvedCallbacks == old(onResolvedCallbacks) && onRejectedCallbacks == old(onRejectedCallbacks)
    {
      assert Inv(rt.Repr);
      if v.Promise? {
        var p2 := v.p.Then(Some(ResolveOf(this)), Some(RejectOf(this)), rt);
        return Promise(p2);
      }
      if status == Pending {
        status := Fulfilled;
        value := v;
        rt.RunCallbacks(onResolvedCallbacks);
      }
      ret := Undefined;
    }

    /**
     * `then(onFulfilled, onRejected)`: a missing handler (None: not a
     * function) becomes the identity or the rethrow. Returns a new pending
     * promise; the handler runs only in a later job.
     */
    method Then(onFulfilled: Option<Handler>, onRejected: Option<Handler>, rt: Runtime) returns (promise2: Promise)
      requires rt.Valid() && this in rt.Repr
      requires onFulfilled.Some? ==> HandlerRefs(onFulfilled.value) <= rt.Repr
      requires onRejected.Some? ==> HandlerRefs(onRejected.value) <= rt.Repr
      modifies this, rt
      ensures rt.Valid() && rt.Repr == old(rt.Repr) + {promise2} && fresh(promise2)
      ensures promise2.Settled() == None && promise2.onResolvedCallbacks == [] && promise2.onRejectedCallbacks == []
      ensures Subscribed(HandlerOr(onFulfilled, Identity), HandlerOr(onRejected, Rethrow), promise2, rt)
    {
      var f := HandlerOr(onFulfilled, Identity);
      var r := HandlerOr(onRejected, Rethrow);
      promise2 := new Promise(rt);
      assert Inv(rt.Repr);
      // the executor of promise2; it cannot throw
      if status == Fulfilled {
        rt.Schedule(Job(f, this, true, promise2));
      }
      if status == Rejected {
        rt.Schedule(Job(r, this, false, promise2));
      }
      if status == Pending {
        onResolvedCallbacks := onResolvedCallbacks + [Job(f, this, true, promise2)];
        onRejectedCallbacks := onRejectedCallbacks + [Job(r, this, false, promise2)];
      }
    }

    /** One call an executor makes: `resolve(v)` or `reject(r)`, or a throw,
        which is handed back for the catch block of the constructor. */
    method RunExecutorCall(c: ExecutorCall<Promise>, rt: Runtime) returns (thrown: Option<JsValue>, ghost d: Promise?)
      requires rt.Valid() && this in rt.Repr && Refs(ExecutorPayload(c)) <= rt.Repr
      modifies this, rt, if c.CallResolve? && c.v.Promise? then {c.v.p} else {}
      ensures rt.Valid() && rt.Extends()
      ensures OthersKeepSettlement(old(rt.Repr), this)
      ensures QueuesGrow(old(rt.Repr) - {this})
      ensures thrown == if c.Raise? then Some(c.e) else None
      ensures Settled() == if c.Raise? then old(Settled()) else FirstWins(old(Settled()), ExecutorOutcome([c]))
      ensures this !in Refs(ExecutorPayload(c)) ==>
        onResolvedCallbacks == old(onResolvedCallbacks) && onRejectedCallbacks == old(onRejectedCallbacks)
      ensures !Adopts(c) ==> d == null
      ensures !Adopts(c) && old(onResolvedCallbacks) == [] && old(onRejectedCallbacks) == [] ==>
        rt.tasks == old(rt.tasks)
      ensures Adopts(c) ==> d != null && fresh(d) && c.v.p.Subscribed(ResolveOf(this), RejectOf(this), d, rt)
    {
      d := null;
      match c
      case CallResolve(v) =>
        var ret := Resolve(v, rt);
        if v.Promise? {
          d := ret.p;
        }
        thrown := None;
      case CallReject(r) =>
        Reject(r, rt);
        thrown := None;
      case Raise(e) =>
        thrown := Some(e);
    }

    /**
     * `new Promise(executor)`: the executor runs at once with the two
     * closures; the first call that settles wins, and a throw rejects the
     * promise unless it is settled already.
     */
    static method Create(executor: seq<ExecutorCall<Promise>>, rt: Runtime) returns (p: Promise, ghost subs: seq<Promise?>)
      requires rt.Valid()
      requires forall k | 0 <= k < |executor| :: Refs(ExecutorPayload(executor[k])) <= rt.Repr
      modifies rt, Adoptees(executor, |executor|)
      ensures rt.Valid() && rt.Extends() && fresh(p) && p in rt.Repr
      ensures p.Settled() == ExecutorOutcome(executor)
      // the promises handed to `resolve` only gain callbacks; nothing else changes
      ensures QueuesGrow(old(rt.Repr)) && OthersKeepSettlement(old(rt.Repr), null)
      ensures p.onResolvedCallbacks == [] && p.onRejectedCallbacks == []
      ensures (forall k | 0 <= k < |executor| :: !Adopts(executor[k])) ==> rt.tasks == old(rt.tasks)
      // every promise handed to `resolve` before a throw has the closures of `p` subscribed
      ensures |subs| == FirstRaise(executor) && AdoptionsListening(p, executor, subs, rt)
      // exactly what those calls scheduled, and pushed on each promise handed to `resolve`, in call order
      ensures rt.tasks == old(rt.tasks) + AdoptionTasks(p, executor, subs)
      ensures forall k | 0 <= k < |executor| && Adopts(executor[k]) ::
        executor[k].v.p.onResolvedCallbacks == old(executor[k].v.p.onResolvedCallbacks) + AdoptionPushes(executor[k].v.p, true, p, executor, subs)
        && executor[k].v.p.onRejectedCallbacks == old(executor[k].v.p.onRejectedCallbacks) + AdoptionPushes(executor[k].v.p, false, p, executor, subs)
    {
      p := new Promise(rt);
      subs := p.Execute(executor, rt);
    }

    /** The constructor once its fields are set: the executor's calls in
        the try block, then the catch block if one of them threw. */
    method Execute(executor: seq<ExecutorCall<Promise>>, rt: Runtime) returns (ghost subs: seq<Promise?>)
      requires rt.Valid() && this in rt.Repr && Settled() == None
      requires onResolvedCallbacks == [] && onRejectedCallbacks == []
      requires forall k | 0 <= k < |executor| :: Refs(ExecutorPayload(executor[k])) <= rt.Repr
      requires forall k | 0 <= k < |executor| :: this !in Refs(ExecutorPayload(executor[k]))
      modifies this, rt, Adoptees(executor, |executor|)
      ensures rt.Valid() && rt.Extends()
      ensures Settled() == ExecutorOutcome(executor)
      ensures OthersKeepSettlement(old(rt.Repr), this) && QueuesGrow(old(rt.Repr) - {this})
      ensures onResolvedCallbacks == [] && onRejectedCallbacks == []
      ensures (forall k | 0 <= k < |executor| :: !Adopts(executor[k])) ==> rt.tasks == old(rt.tasks)
      ensures |subs| == FirstRaise(executor) && AdoptionsListening(this, executor, subs, rt)
      ensures rt.tasks == old(rt.tasks) + AdoptionTasks(this, executor, subs)
      ensures forall k | 0 <= k < |executor| && Adopts(executor[k]) ::
        executor[k].v.p.onResolvedCallbacks == old(executor[k].v.p.onResolvedCallbacks) + AdoptionPushes(executor[k].v.p, true, this, executor, subs)
        && executor[k].v.p.onRejectedCallbacks == old(executor[k].v.p.onRejectedCallbacks) + AdoptionPushes(executor[k].v.p, false, this, executor, subs)
    {
      ghost var baseR, baseJ := AdopteeSnapshot(executor, true), AdopteeSnapshot(executor, false);
      AdopteeQueuesStart(this, executor, baseR, baseJ);
      var thrown, n;
      thrown, n, subs := RunExecutor(executor, baseR, baseJ, rt);
      if thrown.Some? {
        CatchThrow(executor, n, thrown.value, subs, baseR, baseJ, rt);
      } else {
        assert executor[..n] == executor;
      }
      AdopteesGained(this, executor, subs, baseR, baseJ);
    }

    /** The catch block of the constructor, after the executor threw `e` at
        its `n`-th call: `reject(e)`, which changes nothing once the promise
        is settled. Nothing is queued on this promise yet, so nothing is
        scheduled. */
    method CatchThrow(executor: seq<ExecutorCall<Promise>>, n: nat, e: JsValue, ghost subs: seq<Promise?>,
                      ghost baseR: seq<seq<Job>>, ghost baseJ: seq<seq<Job>>, rt: Runtime)
      requires rt.Valid() && this in rt.Repr && Refs(e) <= rt.Repr
      requires forall k | 0 <= k < |executor| :: Refs(ExecutorPayload(executor[k])) <= rt.Repr
      requires forall k | 0 <= k < |executor| :: this !in Refs(ExecutorPayload(executor[k]))
      requires ExecutorProgress(executor, n, Some(e), subs) && AdoptionsListening(this, executor, subs, rt)
      requires AdopteeQueues(this, executor, subs, baseR, baseJ)
      modifies this, rt
      ensures rt.Valid() && rt.Repr == old(rt.Repr) && rt.tasks == old(rt.tasks)
      ensures Settled() == ExecutorOutcome(executor)
      ensures onResolvedCallbacks == [] && onRejectedCallbacks == []
      ensures |subs| == FirstRaise(executor) && AdoptionsListening(this, executor, subs, rt)
      ensures AdopteeQueues(this, executor, subs, baseR, baseJ)
      ensures AdoptionTasks(this, executor, subs) == old(AdoptionTasks(this, executor, subs))
    {
      assert AdopteesIn(this, executor, |executor|, rt.Repr);
      assert AdopteesIn(this, executor, |subs|, rt.Repr);
      Reject(e, rt);
      AdoptionTasksKept(this, executor, subs);
      AdoptionsGrow(this, executor, subs, old(rt.Repr), rt);
      ExecutorOutcomeSnoc(executor[..n - 1], Raise(e));
      assert executor[..n] == executor[..n - 1] + [Raise(e)];
      ExecutorOutcomeDecided(executor[..n], executor[n..]);
      assert executor[..n] + executor[n..] == executor;
    }

    /** What the try block of the constructor has established after `n`
        of the executor's calls: the state they decide (the last of them a
        throw, if `thrown` holds it), no callbacks yet, and the subscription
        of every adopting call before the throw. */
    ghost predicate ExecutorProgress(executor: seq<ExecutorCall<Promise>>, n: nat, thrown: Option<JsValue>, subs: seq<Promise?>)
      reads this
    {
      n <= |executor| && onResolvedCallbacks == [] && onRejectedCallbacks == []
      && (thrown.None? ==> |subs| == n && Settled() == ExecutorOutcome(executor[..n]))
      && (thrown.Some? ==>
            0 < n && |subs| == n - 1 && executor[n - 1] == Raise(thrown.value)
            && Settled() == ExecutorOutcome(executor[..n - 1]))
      && (forall k | 0 <= k < |subs| :: !executor[k].Raise?)
    }

    /** The try block of the constructor: the executor's calls in order, up
        to the first throw, which is handed back together with how many calls
        were made, and the promise each adopting call's `then` made. */
    method RunExecutor(executor: seq<ExecutorCall<Promise>>, ghost baseR: seq<seq<Job>>, ghost baseJ: seq<seq<Job>>, rt: Runtime)
      returns (thrown: Option<JsValue>, n: nat, ghost subs: seq<Promise?>)
      requires rt.Valid() && this in rt.Repr && Settled() == None
      requires onResolvedCallbacks == [] && onRejectedCallbacks == []
      requires forall k | 0 <= k < |executor| :: Refs(ExecutorPayload(executor[k])) <= rt.Repr
      requires forall k | 0 <= k < |executor| :: this !in Refs(ExecutorPayload(executor[k]))
      requires AdopteeQueues(this, executor, [], baseR, baseJ)
      modifies this, rt, Adoptees(executor, |executor|)
      ensures rt.Valid() && rt.Extends()
      ensures OthersKeepSettlement(old(rt.Repr), this) && QueuesGrow(old(rt.Repr) - {this})
      ensures (forall k | 0 <= k < |executor| :: !Adopts(executor[k])) ==> rt.tasks == old(rt.tasks)
      ensures thrown.None? ==> n == |executor|
      ensures thrown.Some? ==> Refs(thrown.value) <= rt.Repr
      ensures ExecutorProgress(executor, n, thrown, subs) && AdoptionsListening(this, executor, subs, rt)
      // exactly what the adopting calls scheduled and pushed, in call order
      ensures ExecutorExact(this, executor, subs, old(rt.tasks), baseR, baseJ, rt)
    {
      n := 0;
      thrown := None;
      subs := [];
      while n < |executor| && thrown.None?
        invariant n <= |executor|
        decreases |executor| - n
        invariant rt.Valid() && rt.Extends() && this in rt.Repr
        invariant OthersKeepSettlement(old(rt.Repr), this) && QueuesGrow(old(rt.Repr) - {this})
        invariant thrown.Some? ==> Refs(thrown.value) <= rt.Repr
        invariant ExecutorProgress(executor, n, thrown, subs) && AdoptionsListening(this, executor, subs, rt)
        invariant ExecutorExact(this, executor, subs, old(rt.tasks), baseR, baseJ, rt)
      {
        thrown, subs := ExecutorStep(this, executor, n, subs, old(rt.tasks), baseR, baseJ, rt);
        n := n + 1;
      }
      if forall k | 0 <= k < |executor| :: !Adopts(executor[k]) {
        NoAdoptionTasks(this, executor, subs);
      }
    }

    /** `Promise.resolve(v)`: a promise whose executor calls `resolve(v)`.
        A promise of this library is adopted: the new promise's `resolve`
        and `reject` wait on it, through the promise `d` its `then` made. */
    static method ResolvedWith(v: JsValue, rt: Runtime) returns (p: Promise, ghost d: Promise?)
      requires rt.Valid() && Refs(v) <= rt.Repr
      modifies rt, if v.Promise? then {v.p} else {}
      ensures rt.Valid() && rt.Extends() && fresh(p) && p in rt.Repr
      ensures p.Settled() == if v.Promise? then None else Some(Fulfillment(v))
      ensures QueuesGrow(old(rt.Repr)) && OthersKeepSettlement(old(rt.Repr), null)
      ensures !v.Promise? ==> rt.tasks == old(rt.tasks) && unchanged(old(rt.Repr))
      ensures v.Promise? ==> d != null && d != p && Listening(v.p, ResolveOf(p), RejectOf(p), d, rt)
      // exactly one `then` on the adopted promise, and nothing else queued or scheduled
      ensures v.Promise? ==> d != null && v.p.Subscribed(ResolveOf(p), RejectOf(p), d, rt)
    {
      ghost var subs;
      p, subs := Create([CallResolve(v)], rt);
      d := null;
      if v.Promise? {
        assert ListensAt(p, CallResolve(v), subs[0], rt);
        d := subs[0];
        assert Adopts([CallResolve(v)][0]);
        SingleAdoption(p, v.p, subs, rt);
      }
    }

    /** `Promise.reject(r)`: a promise whose executor calls `reject(r)`. */
    static method RejectedWith(r: JsValue, rt: Runtime) returns (p: Promise)
      requires rt.Valid() && Refs(r) <= rt.Repr
      modifies rt
      ensures rt.Valid() && rt.Extends() && fresh(p) && p in rt.Repr
      ensures p.Settled() == Some(Rejection(r))
      ensures rt.tasks == old(rt.tasks) && unchanged(old(rt.Repr))
    {
      ghost var subs;
      p, subs := Create([CallReject(r)], rt);
    }

    /**
     * `Promise.all(values)`: a new promise whose executor walks `values`
     * with an aggregate (also returned here, with the promise each `then`
     * call made, for the proofs). It is rejected by the first rejection and
     * fulfilled with the result array once as many results as elements have
     * arrived. An empty input is never settled, and a plain element rejects
     * it with a ReferenceError.
     */
    static method All(values: seq<JsValue>, rt: Runtime)
      returns (p: Promise, agg: Aggregate, ghost derived: seq<Promise>, ghost states: seq<Status>)
      requires rt.Valid() && forall k | 0 <= k < |values| :: Refs(values[k]) <= rt.Repr
      modifies rt, Elements(values)
      ensures rt.Valid() && rt.Extends() && fresh(p) && fresh(agg) && p in rt.Repr && agg in rt.Repr
      ensures agg.target == p && agg.length == |values|
      // the elements only gain callbacks
      ensures QueuesGrow(old(rt.Repr)) && OthersKeepSettlement(old(rt.Repr), null)
      // unless a foreign thenable was called, the tasks are exactly those of
      // the elements already settled, in input order
      ensures |states| == |values| && |derived| <= |values|
      ensures forall j | 0 <= j < |values| && values[j].Promise? :: states[j] == old(values[j].p.status)
      ensures PromisePrefix(values) == |values| || !IsForeignThenable(values[PromisePrefix(values)]) ==>
        rt.tasks == old(rt.tasks) + ElementJobs(values, agg, derived, states)
      // and each promise element's queues gained exactly the pushes of its `then`s
      ensures PromisePrefix(values) == |values| || !IsForeignThenable(values[PromisePrefix(values)]) ==>
        forall j | 0 <= j < |values| && values[j].Promise? ::
          values[j].p.onResolvedCallbacks == old(values[j].p.onResolvedCallbacks) + ElementPushes(values[j].p, true, values, agg, derived, states)
          && values[j].p.onRejectedCallbacks == old(values[j].p.onRejectedCallbacks) + ElementPushes(values[j].p, false, values, agg, derived, states)
      // nothing is ever handed `resolve`: the promise stays pending
      ensures values == [] ==>
        p.Settled() == None && agg.orderIndex == 0 && rt.tasks == old(rt.tasks) && unchanged(old(rt.Repr))
      // the first element that is not a promise, when it is no thenable, rejects
      ensures PromisePrefix(values) < |values| && !IsForeignThenable(values[PromisePrefix(values)]) ==>
        p.Settled() == Some(Rejection(ElementThrow(values[PromisePrefix(values)])))
      // promises only: nothing settles yet, and each element has its callback pair
      ensures PromisePrefix(values) == |values| ==>
        p.Settled() == None && agg.orderIndex == 0 && agg.resultArr == [] && |derived| == |values|
        && forall j | 0 <= j < |values| :: derived[j] != p && Listening(values[j].p, Collect(agg, j), RejectOf(p), derived[j], rt)
    {
      p := new Promise(rt);
      var thrown;
      agg, thrown, derived, states := AllExecutor(p, values, rt);
      if thrown.Some? {
        // catch (error) { reject(error) }: the constructor's
        p.Reject(thrown.value, rt);
      }
    }

    /** The executor `all` hands the constructor: the counters, then the
        loop, which may throw; `p` is the promise under construction. */
    static method AllExecutor(p: Promise, values: seq<JsValue>, rt: Runtime)
      returns (agg: Aggregate, thrown: Option<JsValue>, ghost derived: seq<Promise>, ghost states: seq<Status>)
      requires rt.Valid() && p in rt.Repr && p.Settled() == None
      requires forall k | 0 <= k < |values| :: Refs(values[k]) <= rt.Repr && values[k] != Promise(p)
      modifies rt, p, Elements(values)
      ensures rt.Valid() && rt.Extends() && fresh(agg) && agg in rt.Repr
      ensures agg.target == p && agg.length == |values|
      ensures QueuesGrow(old(rt.Repr) - {p}) && OthersKeepSettlement(old(rt.Repr), p)
      ensures p.onResolvedCallbacks == old(p.onResolvedCallbacks) && p.onRejectedCallbacks == old(p.onRejectedCallbacks)
      ensures thrown.Some? ==> Refs(thrown.value) <= rt.Repr
      ensures |states| == |values| && |derived| <= |values|
      ensures forall j | 0 <= j < |values| && values[j].Promise? :: states[j] == old(values[j].p.status)
      ensures PromisePrefix(values) == |values| || !IsForeignThenable(values[PromisePrefix(values)]) ==>
        rt.tasks == old(rt.tasks) + ElementJobs(values, agg, derived, states)
      // each promise element's queues gained exactly the pushes of its `then`s
      ensures PromisePrefix(values) == |values| || !IsForeignThenable(values[PromisePrefix(values)]) ==>
        forall j | 0 <= j < |values| && values[j].Promise? ::
          values[j].p.onResolvedCallbacks == old(values[j].p.onResolvedCallbacks) + ElementPushes(values[j].p, true, values, agg, derived, states)
          && values[j].p.onRejectedCallbacks == old(values[j].p.onRejectedCallbacks) + ElementPushes(values[j].p, false, values, agg, derived, states)
      ensures values == [] ==> thrown == None && p.Settled() == None && agg.orderIndex == 0 && unchanged(old(rt.Repr) - {p})
      ensures PromisePrefix(values) < |values| && !IsForeignThenable(values[PromisePrefix(values)]) ==>
        thrown == Some(ElementThrow(values[PromisePrefix(values)])) && p.Settled() == None
      ensures PromisePrefix(values) == |values| ==>
        thrown == None && p.Settled() == None && agg.orderIndex == 0 && agg.resultArr == [] && |derived| == |values|
        && forall j | 0 <= j < |values| :: derived[j] != p && Listening(values[j].p, Collect(agg, j), RejectOf(p), derived[j], rt)
    {
      ghost var baseR := ElementSnapshot(values, true);
      ghost var baseJ := ElementSnapshot(values, false);
      agg := new Aggregate(p, |values|, rt);
      var n;
      states := seq(|values|, j requires 0 <= j < |values| reads Elements(values) =>
        if values[j].Promise? then values[j].p.status else Pending);
      ElementQueuesStart(values, agg, states, baseR, baseJ);
      thrown, n, derived := agg.Walk(values, states, baseR, baseJ, rt);
      AllProgressEnd(values, n, thrown, agg, derived, rt);
      if PromisePrefix(values) == |values| || !IsForeignThenable(values[PromisePrefix(values)]) {
        ElementsGained(values, agg, derived, states, baseR, baseJ);
      }
    }

    /** The body of the loop of `all` for the `i`-th element, with what the
        loop has established so far. */
    static method Round(values: seq<JsValue>, i: nat, agg: Aggregate, ghost derived: seq<Promise>, ghost states: seq<Status>,
                        ghost base: seq<Job>, ghost baseR: seq<seq<Job>>, ghost baseJ: seq<seq<Job>>, ghost S: set<object>, rt: Runtime)
      returns (thrown: Option<JsValue>, ghost derived': seq<Promise>)
      requires rt.Valid() && agg in rt.Repr && i < |values| && S <= rt.Repr
      requires forall k | 0 <= k < |values| :: Refs(values[k]) <= S && values[k] != Promise(agg.target)
      requires AllProgress(values, i, None, agg, derived, rt) && |derived| <= PromisePrefix(values)
      requires |states| == |values| && (values[i].Promise? ==> states[i] == values[i].p.status)
      requires i <= PromisePrefix(values) ==> rt.tasks == base + ElementJobs(values, agg, derived, states)
      requires i <= PromisePrefix(values) ==> ElementQueues(values, agg, derived, states, baseR, baseJ)
      modifies rt, agg, agg.target, if values[i].Promise? then {values[i].p} else {}
      ensures rt.Valid() && rt.Extends()
      ensures OthersKeepSettlement(old(rt.Repr), agg.target) && QueuesGrow(old(rt.Repr) - {agg.target})
      ensures agg.target.onResolvedCallbacks == old(agg.target.onResolvedCallbacks)
      ensures agg.target.onRejectedCallbacks == old(agg.target.onRejectedCallbacks)
      ensures thrown.Some? ==> Refs(thrown.value) <= rt.Repr
      ensures AllProgress(values, i + 1, thrown, agg, derived', rt)
      // a promise element schedules at most its own task; a plain one nothing
      ensures |derived'| <= PromisePrefix(values)
      ensures i < PromisePrefix(values) ==>
        derived' == derived + [derived'[i]]
        && rt.tasks == old(rt.tasks) + ThenJobs(values[i].p, Collect(agg, i), RejectOf(agg.target), derived'[i])
      ensures i >= PromisePrefix(values) ==> derived' == derived
      // after the tasks of the elements before, those of this one
      ensures i + 1 <= PromisePrefix(values) || !IsForeignThenable(values[PromisePrefix(values)]) ==>
        rt.tasks == base + ElementJobs(values, agg, derived', states)
      ensures i + 1 <= PromisePrefix(values) || !IsForeignThenable(values[PromisePrefix(values)]) ==>
        ElementQueues(values, agg, derived', states, baseR, baseJ)
      ensures !values[i].Promise? && !IsForeignThenable(values[i]) ==> rt.tasks == old(rt.tasks)
    {
      if i < PromisePrefix(values) {
        thrown := None;
        ghost var d;
        derived', d := SubscribeElement(values, i, agg, derived, states, base, baseR, baseJ, rt);
      } else {
        ghost var d;
        thrown, d := VisitOther(values, i, agg, derived, states, base, rt);
        derived' := derived;
        if !IsForeignThenable(values[PromisePrefix(values)]) {
          ElementQueuesKept(values, agg, derived, states, baseR, baseJ);
        }
      }
    }

    /** A round of the loop of `all` on the `i`-th value, past the promises
        at the front: a foreign thenable is called; a promise after it is
        subscribed; anything else throws, which ends the loop. */
    static method VisitOther(values: seq<JsValue>, i: nat, agg: Aggregate, ghost derived: seq<Promise>, ghost states: seq<Status>, ghost base: seq<Job>, rt: Runtime)
      returns (thrown: Option<JsValue>, ghost d: Promise?)
      requires rt.Valid() && agg in rt.Repr && PromisePrefix(values) <= i < |values|
      requires Refs(values[i]) <= rt.Repr && values[i] != Promise(agg.target)
      requires AllProgress(values, i, None, agg, derived, rt) && |derived| <= PromisePrefix(values) && |states| == |values|
      requires i <= PromisePrefix(values) ==> rt.tasks == base + ElementJobs(values, agg, derived, states)
      modifies rt, agg, agg.target, if values[i].Promise? then {values[i].p} else {}
      ensures rt.Valid() && rt.Extends()
      ensures OthersKeepSettlement(old(rt.Repr), agg.target) && QueuesGrow(old(rt.Repr) - {agg.target})
      ensures agg.target.onResolvedCallbacks == old(agg.target.onResolvedCallbacks)
      ensures agg.target.onRejectedCallbacks == old(agg.target.onRejectedCallbacks)
      ensures thrown.Some? ==> Refs(thrown.value) <= rt.Repr
      ensures AllProgress(values, i + 1, thrown, agg, derived, rt)
      ensures !IsForeignThenable(values[PromisePrefix(values)]) ==> rt.tasks == base + ElementJobs(values, agg, derived, states)
      ensures !values[i].Promise? && !IsForeignThenable(values[i]) ==> thrown == Some(ElementThrow(values[i])) && rt.tasks == old(rt.tasks)
      ensures !IsForeignThenable(values[PromisePrefix(values)]) ==> i == PromisePrefix(values) && ElementsKept(values, null)
      // a promise element, met after a foreign thenable, gets its callback pair
      ensures values[i].Promise? ==>
        thrown == None && d != null && values[i].p.Subscribed(Collect(agg, i), RejectOf(agg.target), d, rt)
    {
      ghost var k := PromisePrefix(values);
      assert !IsForeignThenable(values[k]) ==> i == k && agg.target.Settled() == None;
      assert agg.Inv(rt.Repr);
      thrown, d := agg.Visit(values[i], i, rt);
    }

    /** A round of the loop of `all` on a promise element, the `i`-th value:
        its callback pair joins those of the elements before it, and its
        task, if any, follows theirs. */
    static method SubscribeElement(values: seq<JsValue>, i: nat, agg: Aggregate, ghost derived: seq<Promise>, ghost states: seq<Status>,
                                   ghost base: seq<Job>, ghost baseR: seq<seq<Job>>, ghost baseJ: seq<seq<Job>>, rt: Runtime)
      returns (ghost derived': seq<Promise>, ghost d: Promise)
      requires rt.Valid() && agg in rt.Repr && i < PromisePrefix(values)
      requires Refs(values[i]) <= rt.Repr && values[i] != Promise(agg.target)
      requires AllProgress(values, i, None, agg, derived, rt)
      requires |states| == |values| && states[i] == values[i].p.status
      requires rt.tasks == base + ElementJobs(values, agg, derived, states)
      requires ElementQueues(values, agg, derived, states, baseR, baseJ)
      modifies rt, agg, agg.target, values[i].p
      ensures rt.Valid() && rt.Extends()
      ensures OthersKeepSettlement(old(rt.Repr), agg.target) && QueuesGrow(old(rt.Repr) - {agg.target})
      ensures agg.target.onResolvedCallbacks == old(agg.target.onResolvedCallbacks)
      ensures agg.target.onRejectedCallbacks == old(agg.target.onRejectedCallbacks)
      ensures AllProgress(values, i + 1, None, agg, derived', rt)
      ensures derived' == derived + [d]
      ensures rt.tasks == base + ElementJobs(values, agg, derived', states)
      ensures ElementQueues(values, agg, derived', states, baseR, baseJ)
      // the callback pair went on this element only, through `d`
      ensures values[i].p.Subscribed(Collect(agg, i), RejectOf(agg.target), d, rt)
    {
      assert agg.Inv(rt.Repr);
      ghost var d': Promise?;
      var thrown;
      thrown, d' := agg.Visit(values[i], i, rt);
      d := d';
      derived' := derived + [d];
      assert values[i].p in Refs(values[i]);
      ElementSubscribed(values, i, agg, derived, d, states, base, rt);
      ElementQueuesSnoc(values, agg, derived, d, states, baseR, baseJ);
    }
  }

  /** The `n`-th call of the executor, with what the calls before it have
      established: the state it decides, and exactly the tasks and callbacks
      its adoption, if any, adds. */
  method ExecutorStep(p: Promise, executor: seq<ExecutorCall<Promise>>, n: nat, ghost subs: seq<Promise?>,
                      ghost base: seq<Job>, ghost baseR: seq<seq<Job>>, ghost baseJ: seq<seq<Job>>, rt: Runtime)
    returns (thrown: Option<JsValue>, ghost subs': seq<Promise?>)
    requires rt.Valid() && p in rt.Repr && n < |executor|
    requires forall k | 0 <= k < |executor| :: Refs(ExecutorPayload(executor[k])) <= rt.Repr
    requires forall k | 0 <= k < |executor| :: p !in Refs(ExecutorPayload(executor[k]))
    requires p.ExecutorProgress(executor, n, None, subs) && AdoptionsListening(p, executor, subs, rt)
    requires ExecutorExact(p, executor, subs, base, baseR, baseJ, rt)
    modifies p, rt, Adoptees(executor, |executor|)
    ensures rt.Valid() && rt.Extends()
    ensures OthersKeepSettlement(old(rt.Repr), p) && QueuesGrow(old(rt.Repr) - {p})
    ensures !Adopts(executor[n]) ==> rt.tasks == old(rt.tasks)
    ensures thrown.Some? ==> Refs(thrown.value) <= rt.Repr
    ensures p.ExecutorProgress(executor, n + 1, thrown, subs') && AdoptionsListening(p, executor, subs', rt)
    ensures ExecutorExact(p, executor, subs', base, baseR, baseJ, rt)
  {
    if Adopts(executor[n]) {
      assert executor[n].v.p in Adoptees(executor, |executor|);
      thrown := None;
      subs' := AdoptingStep(p, executor, n, subs, rt);
      AdoptionStepExact(p, executor, subs, subs'[n], base, baseR, baseJ, rt);
    } else {
      thrown, subs' := PlainStep(p, executor, n, subs, rt);
      AdoptionStepExact(p, executor, subs, null, base, baseR, baseJ, rt);
    }
  }

  /** The `n`-th call of the executor when it hands `resolve` a promise of
      the library, with what the calls before it have established. */
  method AdoptingStep(p: Promise, executor: seq<ExecutorCall<Promise>>, n: nat, ghost subs: seq<Promise?>, rt: Runtime)
    returns (ghost subs': seq<Promise?>)
    requires rt.Valid() && p in rt.Repr && n < |executor| && Adopts(executor[n])
    requires forall k | 0 <= k < |executor| :: Refs(ExecutorPayload(executor[k])) <= rt.Repr
    requires forall k | 0 <= k < |executor| :: p !in Refs(ExecutorPayload(executor[k]))
    requires p.ExecutorProgress(executor, n, None, subs) && AdoptionsListening(p, executor, subs, rt)
    modifies p, rt, executor[n].v.p
    ensures rt.Valid() && rt.Extends()
    ensures OthersKeepSettlement(old(rt.Repr), p) && QueuesGrow(old(rt.Repr) - {p})
    ensures p.ExecutorProgress(executor, n + 1, None, subs') && AdoptionsListening(p, executor, subs', rt)
    // the `then` of this call subscribed the closures of `p`, and nothing else was queued or scheduled
    ensures subs' == subs + [subs'[n]] && subs'[n] != null
      && executor[n].v.p.Subscribed(ResolveOf(p), RejectOf(p), subs'[n], rt)
    ensures AdopteesKept(executor, executor[n].v.p)
  {
    ExecutorOutcomeSnoc(executor[..n], executor[n]);
    assert executor[..n + 1] == executor[..n] + [executor[n]];
    ghost var d;
    var thrown;
    thrown, d := p.RunExecutorCall(executor[n], rt);
    subs' := subs + [d];
    assert AdopteesIn(p, executor, n, old(rt.Repr));
    AdoptionsGrow(p, executor, subs, old(rt.Repr), rt);
    AdoptionsSnoc(p, executor, subs, d, rt);
    assert AdopteesIn(p, executor, |executor|, old(rt.Repr));
  }

  /** Any other call of the executor: `reject`, `resolve` with anything but
      a promise of the library, or a throw. */
  method PlainStep(p: Promise, executor: seq<ExecutorCall<Promise>>, n: nat, ghost subs: seq<Promise?>, rt: Runtime)
    returns (thrown: Option<JsValue>, ghost subs': seq<Promise?>)
    requires rt.Valid() && p in rt.Repr && n < |executor| && !Adopts(executor[n])
    requires forall k | 0 <= k < |executor| :: Refs(ExecutorPayload(executor[k])) <= rt.Repr
    requires forall k | 0 <= k < |executor| :: p !in Refs(ExecutorPayload(executor[k]))
    requires p.ExecutorProgress(executor, n, None, subs) && AdoptionsListening(p, executor, subs, rt)
    modifies p, rt
    ensures rt.Valid() && rt.Extends()
    ensures OthersKeepSettlement(old(rt.Repr), p) && QueuesGrow(old(rt.Repr) - {p})
    ensures rt.tasks == old(rt.tasks)
    ensures thrown.Some? ==> Refs(thrown.value) <= rt.Repr
    ensures p.ExecutorProgress(executor, n + 1, thrown, subs') && AdoptionsListening(p, executor, subs', rt)
    ensures subs' == if thrown.None? then subs + [null] else subs
    ensures AdopteesKept(executor, null)
  {
    ExecutorOutcomeSnoc(executor[..n], executor[n]);
    assert executor[..n + 1] == executor[..n] + [executor[n]];
    ghost var d;
    thrown, d := p.RunExecutorCall(executor[n], rt);
    assert AdopteesIn(p, executor, n, old(rt.Repr));
    AdoptionsGrow(p, executor, subs, old(rt.Repr), rt);
    assert AdopteesIn(p, executor, |executor|, old(rt.Repr));
    subs' := subs;
    if thrown.None? {
      AdoptionsSnoc(p, executor, subs, null, rt);
      subs' := subs + [null];
    }
  }

  /**
   * `resolvePromise(x, promise2, resolve, reject)`: settle `promise2` from a
   * handler's result `x`. The cycle check rejects but does not return, so a
   * promise resolved with itself also subscribes to itself.
   */
  method ResolvePromise(x: JsValue, promise2: Promise, rt: Runtime) returns (ghost latch: Latch?, ghost d: Promise?)
    requires rt.Valid() && promise2 in rt.Repr && Refs(x) <= rt.Repr
    modifies rt, promise2, AdopteeSet(x)
    decreases x, 3
    ensures rt.Valid() && rt.Extends()
    ensures promise2.Settled() == FirstWins(old(promise2.Settled()), Resolution(x, promise2))
    ensures OthersKeepSettlement(old(rt.Repr), promise2)
    ensures ClosuresKept(old(rt.Repr), null, null)
    // the missing `return` after the cycle check: `x.then` is still called,
    // so a promise resolved with itself also subscribes to itself
    ensures Adoption(old(rt.Repr), x, promise2, latch, d, rt)
  {
    if x == Promise(promise2) {
      promise2.Reject(TypeError, rt);
    }
    if x.Promise? {
      // an object whose `then` is the library's own method
      var l := new Latch(rt);
      var q := x.p.Then(Some(OnSuccess(l, promise2)), Some(OnFailure(l, promise2)), rt);
      latch, d := l, q;
    } else {
      latch, d := ResolveValue(x, promise2, rt);
    }
  }

  /** `resolvePromise` on anything but a promise of the library. */
  method ResolveValue(x: JsValue, promise2: Promise, rt: Runtime) returns (ghost latch: Latch?, ghost d: Promise?)
    requires !x.Promise? && rt.Valid() && promise2 in rt.Repr && Refs(x) <= rt.Repr
    modifies rt, promise2, AdopteeSet(x)
    decreases x, 2
    ensures rt.Valid() && rt.Extends()
    ensures promise2.Settled() == FirstWins(old(promise2.Settled()), Resolution(x, promise2))
    ensures OthersKeepSettlement(old(rt.Repr), promise2)
    ensures ClosuresKept(old(rt.Repr), null, null)
    ensures Adoption(old(rt.Repr), x, promise2, latch, d, rt)
  {
    latch, d := null, null;
    if IsObjectLike(x) {
      var called := new Latch(rt);
      if x.Obj? && x.member.ThrowingGetter? {
        // reading `then` throws: the catch block
        Fail(called, promise2, x.member.error, rt);
      } else if x.Obj? && x.member.Method? {
        latch, d := CallForeignThen(x, called, promise2, rt);
      } else {
        // an object whose `then` is not a function
        CallClosure(ResolveOf(promise2), x, rt);
      }
    } else {
      CallClosure(ResolveOf(promise2), x, rt);
    }
  }

  /** Calling a foreign thenable's `then` with the success and failure
      callbacks below, inside the try block of the resolution procedure:
      the thenable's calls happen in order, and a throw ends the call and
      lands in the catch block. */
  method CallForeignThen(x: JsValue, latch: Latch, promise2: Promise, rt: Runtime) returns (ghost latch': Latch?, ghost d: Promise?)
    requires x.Obj? && x.member.Method? && x != Promise(promise2)
    requires rt.Valid() && latch in rt.Repr && promise2 in rt.Repr && Refs(x) <= rt.Repr
    requires !latch.called
    modifies rt, latch, promise2, AdopteeSet(x)
    decreases x, 1
    ensures rt.Valid() && rt.Extends()
    ensures promise2.Settled() == FirstWins(old(promise2.Settled()), Resolution(x, promise2))
    ensures OthersKeepSettlement(old(rt.Repr), promise2)
    ensures ClosuresKept(old(rt.Repr), latch, null)
    ensures Adoption(old(rt.Repr), x, promise2, latch', d, rt)
  {
    var script := x.member.script;
    var i := 0;
    var threw := false;
    latch', d := null, null;
    while i < |script| && !threw
      invariant 0 <= i <= |script|
      decreases |script| - i
      invariant threw ==> i > 0
      invariant rt.Valid() && rt.Extends() && latch in rt.Repr && promise2 in rt.Repr
      invariant latch.called == (i > 0)
      invariant promise2.Settled() == FirstWins(old(promise2.Settled()), if i == 0 then None else Resolution(x, promise2))
      invariant OthersKeepSettlement(old(rt.Repr), promise2)
      invariant ClosuresKept(old(rt.Repr), latch, null)
      // before the first call nothing has happened; after it, all is decided
      invariant i == 0 ==> latch' == null && d == null && unchanged(rt) && unchanged(old(rt.Repr))
      invariant i > 0 ==> Adoption(old(rt.Repr), x, promise2, latch', d, rt)
    {
      ghost var l, q;
      threw, l, q := Deliver(x, i, latch, promise2, rt);
      if i == 0 {
        latch', d := l, q;
      }
      i := i + 1;
    }
    assert script == [] ==> Resolution(x, promise2) == None;
  }

  /** The `i`-th call the foreign thenable `x` makes to the two callbacks
      sharing `latch`, or a throw. The first call decides; every later one
      finds the latch set and changes nothing. */
  method Deliver(x: JsValue, i: nat, latch: Latch, promise2: Promise, rt: Runtime) returns (threw: bool, ghost latch': Latch?, ghost d: Promise?)
    requires x.Obj? && x.member.Method? && x != Promise(promise2) && i < |x.member.script|
    requires rt.Valid() && latch in rt.Repr && promise2 in rt.Repr && Refs(x) <= rt.Repr
    requires latch.called == (i > 0)
    modifies rt, latch, promise2, if latch.called then {} else AdopteeSet(x)
    decreases x, 0
    ensures rt.Valid() && rt.Extends()
    ensures threw == x.member.script[i].Throw? && latch.called
    ensures OthersKeepSettlement(old(rt.Repr), promise2)
    ensures ClosuresKept(old(rt.Repr), latch, null)
    ensures i == 0 ==>
      promise2.Settled() == FirstWins(old(promise2.Settled()), Resolution(x, promise2))
      && Adoption(old(rt.Repr), x, promise2, latch', d, rt)
    ensures i > 0 ==> unchanged(rt) && unchanged(old(rt.Repr))
  {
    assert Refs(CallPayload(x.member.script[i])) <= rt.Repr;
    latch', d := null, null;
    match x.member.script[i] {
      case CallSuccess(y) =>
        threw := false;
        latch', d := Succeed(latch, promise2, y, rt);
      case CallFailure(r) =>
        threw := false;
        Fail(latch, promise2, r, rt);
      case Throw(e) =>
        threw := true;
        Fail(latch, promise2, e, rt);
    }
  }

  /** The success callback handed to a thenable: ignored once either
      callback of the pair has run; otherwise it sets the shared latch and
      resolves `promise2` with `y` through the resolution procedure again. */
  method Succeed(latch: Latch, promise2: Promise, y: JsValue, rt: Runtime) returns (ghost latch': Latch?, ghost d: Promise?)
    requires rt.Valid() && latch in rt.Repr && promise2 in rt.Repr && Refs(y) <= rt.Repr
    modifies rt, latch, promise2, if latch.called then {} else AdopteeSet(y)
    decreases y, 4
    ensures rt.Valid() && rt.Extends()
    ensures latch.called
    ensures promise2.Settled() == if old(latch.called) then old(promise2.Settled())
                                  else FirstWins(old(promise2.Settled()), Resolution(y, promise2))
    ensures OthersKeepSettlement(old(rt.Repr), promise2)
    ensures ClosuresKept(old(rt.Repr), latch, null)
    ensures old(latch.called) ==> latch' == null && d == null && unchanged(rt) && unchanged(old(rt.Repr))
    ensures !old(latch.called) ==> Adoption(old(rt.Repr), y, promise2, latch', d, rt)
  {
    latch', d := null, null;
    if latch.called {
      return;
    }
    latch.called := true;
    latch', d := ResolvePromise(y, promise2, rt);
  }

  /** The failure callback handed to a thenable: ignored once either
      callback of the pair has run; otherwise it sets the shared latch and
      rejects `promise2` with `r`. The catch block of the resolution
      procedure behaves the same way. */
  method Fail(latch: Latch, promise2: Promise, r: JsValue, rt: Runtime)
    requires rt.Valid() && latch in rt.Repr && promise2 in rt.Repr && Refs(r) <= rt.Repr
    modifies latch, promise2, rt
    ensures rt.Valid() && rt.Repr == old(rt.Repr)
    ensures rt.tasks == old(rt.tasks) + if old(latch.called) then [] else Notified(old(promise2.status), promise2)
    ensures promise2.onResolvedCallbacks == old(promise2.onResolvedCallbacks)
    ensures promise2.onRejectedCallbacks == old(promise2.onRejectedCallbacks)
    ensures old(latch.called) ==> unchanged(latch, promise2, rt)
    ensures latch.called
    ensures promise2.Settled() == if old(latch.called) then old(promise2.Settled())
                                  else FirstWins(old(promise2.Settled()), Some(Rejection(r)))
    ensures OthersKeepSettlement(old(rt.Repr), promise2) && QueuesKept(old(rt.Repr), null) && ClosuresKept(old(rt.Repr), latch, null)
  {
    if latch.called {
      return;
    }
    latch.called := true;
    CallClosure(RejectOf(promise2), r, rt);
  }

}
