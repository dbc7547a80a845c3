/**
 The world a `PromiseA` program runs in: every promise instance with its
 state, value, reason and two callback lists (promise.js:9-21), the `called`
 flags created by the resolution procedure, and the FIFO queue of tasks that
 stands in for `setTimeout`. This module also holds the settlement state
 machine: the constructor's internal `resolve` and `reject` (promise.js:23-39).
 */
module Worlds {
  import opened Values

  datatype State = Pending | Fulfilled | Rejected

  /**
   A function that a task or a script calls with one argument.
   - `PassValue` and `Rethrow` are the defaults `then` fills in (promise.js:55-56);
   - `User` is an application handler, abstracted to how it completes;
   - `Resolver` is the internal `resolve` (fulfil = true) or `reject` of promise `target`;
   - `Guarded` is one of the two callbacks the resolution procedure hands to a
     callable `then`; both share the flag `guard` and settle `target`.
   */
  datatype Handler =
    | PassValue
    | Rethrow
    | User(completion: Completion)
    | Resolver(target: PromiseId, fulfil: bool)
    | Guarded(guard: GuardId, target: PromiseId, fulfil: bool)

  /**
   An argument given to `then` or `catch`: a function, modelled by the
   handler it behaves as, or anything else, which `then` replaces by a
   default (promise.js:55-56).
   */
  datatype ThenArg = NotCallable | Callable(handler: Handler)

  /**
   The body of one `setTimeout` callback created by `then`: call `handler` with
   the value (`onFulfilledSide`) or the reason of promise `source`, and report
   the outcome to `promise2`. A callback-list entry is the task it enqueues.
   */
  datatype Task = Task(source: PromiseId, handler: Handler, promise2: PromiseId, onFulfilledSide: bool)

  datatype PromiseRec = PromiseRec(
    state: State,
    value: Value,
    reason: Value,
    onFulfilledCallbacks: seq<Task>,
    onRejectedCallbacks: seq<Task>)

  datatype World = World(promises: seq<PromiseRec>, guards: seq<bool>, queue: seq<Task>)

  predicate IsSettled(r: PromiseRec) {
    r.state != Pending
  }

  predicate HandlerIn(h: Handler, w: World) {
    match h
    case User(c) => CompletionIn(c, |w.promises|)
    case Resolver(t, _) => t < |w.promises|
    case Guarded(g, t, _) => g < |w.guards| && t < |w.promises|
    case _ => true
  }

  predicate ArgIn(a: ThenArg, w: World) {
    a.Callable? ==> HandlerIn(a.handler, w)
  }

  predicate TaskIn(t: Task, w: World) {
    t.source < |w.promises| && t.promise2 < |w.promises| && HandlerIn(t.handler, w)
  }

  /** A queued task only ever reads a promise that has settled the matching way. */
  predicate Ready(t: Task, w: World)
    requires t.source < |w.promises|
  {
    w.promises[t.source].state == (if t.onFulfilledSide then Fulfilled else Rejected)
  }

  /**
   The entries of each callback list of promise `p` were registered on `p`
   for the matching side, and everything the record mentions exists.
   */
  predicate RecordOk(w: World, p: PromiseId)
    requires p < |w.promises|
  {
    var r := w.promises[p];
    && ValueIn(r.value, |w.promises|)
    && ValueIn(r.reason, |w.promises|)
    && (forall i | 0 <= i < |r.onFulfilledCallbacks| ::
          TaskIn(r.onFulfilledCallbacks[i], w) && r.onFulfilledCallbacks[i].source == p
          && r.onFulfilledCallbacks[i].onFulfilledSide)
    && (forall i | 0 <= i < |r.onRejectedCallbacks| ::
          TaskIn(r.onRejectedCallbacks[i], w) && r.onRejectedCallbacks[i].source == p
          && !r.onRejectedCallbacks[i].onFulfilledSide)
  }

  /** The invariant every reachable world keeps. */
  predicate Inv(w: World) {
    && (forall p | 0 <= p < |w.promises| :: RecordOk(w, p))
    && (forall i | 0 <= i < |w.queue| :: TaskIn(w.queue[i], w) && Ready(w.queue[i], w))
  }

  /** `r2` is a later version of `r`: settlement is terminal and the lists only grow. */
  predicate Keeps(r: PromiseRec, r2: PromiseRec) {
    && (IsSettled(r) ==> r2.state == r.state && r2.value == r.value && r2.reason == r.reason)
    && r.onFulfilledCallbacks <= r2.onFulfilledCallbacks
    && r.onRejectedCallbacks <= r2.onRejectedCallbacks
  }

  /**
   `w2` is reachable from `w` without running a queued task: promises and
   flags are only added, no settled promise changes, a set flag stays set, and
   tasks are only appended to the queue.
   */
  predicate Extends(w: World, w2: World) {
    && |w.promises| <= |w2.promises|
    && |w.guards| <= |w2.guards|
    && w.queue <= w2.queue
    && (forall p | 0 <= p < |w.promises| :: Keeps(w.promises[p], w2.promises[p]))
    && (forall g | 0 <= g < |w.guards| && w.guards[g] :: w2.guards[g])
  }

  lemma ExtendsTrans(w1: World, w2: World, w3: World)
    requires Extends(w1, w2) && Extends(w2, w3)
    ensures Extends(w1, w3)
  {
  }

  /** Setting or adding `called` flags keeps the invariant: only their number matters to it. */
  lemma GuardsOnlyGrow(w: World, w2: World)
    requires Inv(w) && w2.promises == w.promises && w2.queue == w.queue && |w.guards| <= |w2.guards|
    ensures Inv(w2)
  {
    RecordsCarryOver(w, w2, |w.promises|);
  }

  /**
   A record that a step leaves alone stays well formed, since no promise and
   no flag it mentions disappears. `changed` names the one record the step
   may rewrite (out of range when there is none).
   */
  lemma RecordsCarryOver(w: World, w2: World, changed: nat)
    requires forall q | 0 <= q < |w.promises| :: RecordOk(w, q)
    requires |w.promises| <= |w2.promises| && |w.guards| <= |w2.guards|
    requires forall q | 0 <= q < |w.promises| && q != changed :: w2.promises[q] == w.promises[q]
    ensures forall q | 0 <= q < |w.promises| && q != changed :: RecordOk(w2, q)
  {
    forall q | 0 <= q < |w.promises| && q != changed
      ensures RecordOk(w2, q)
    {
      assert RecordOk(w, q);
    }
  }

  /** A new `called` flag for one run of the resolution procedure (promise.js:195), initially unset. */
  function NewGuard(w: World): (res: (World, GuardId))
    requires Inv(w)
    ensures Inv(res.0) && Extends(w, res.0)
    ensures res.1 == |w.guards| && res.0.guards == w.guards + [false]
    ensures res.0.promises == w.promises && res.0.queue == w.queue
  {
    var w2 := w.(guards := w.guards + [false]);
    GuardsOnlyGrow(w, w2);
    (w2, |w.guards|)
  }

  /** Sets flag `g`, as either callback and the catch at promise.js:213 do. */
  function SetGuard(w: World, g: GuardId): (w2: World)
    requires Inv(w) && g < |w.guards|
    ensures Inv(w2) && Extends(w, w2)
    ensures w2.guards == w.guards[g := true]
    ensures w2.promises == w.promises && w2.queue == w.queue
  {
    var w2 := w.(guards := w.guards[g := true]);
    GuardsOnlyGrow(w, w2);
    w2
  }

  /** Scheduling a task with `setTimeout` puts it at the back of the queue. */
  function Enqueue(w: World, t: Task): (w2: World)
    requires Inv(w) && TaskIn(t, w) && Ready(t, w)
    ensures Inv(w2) && Extends(w, w2)
    ensures w2.queue == w.queue + [t] && w2.promises == w.promises && w2.guards == w.guards
  {
    var w2 := w.(queue := w.queue + [t]);
    RecordsCarryOver(w, w2, |w.promises|);
    w2
  }

  /** The event loop takes the task at the front of the queue. */
  function Dequeue(w: World): (res: (World, Task))
    requires Inv(w) && |w.queue| > 0
    ensures Inv(res.0) && res.1 == w.queue[0] && TaskIn(res.1, res.0) && Ready(res.1, res.0)
    ensures res.0 == w.(queue := w.queue[1..])
  {
    var w2 := w.(queue := w.queue[1..]);
    RecordsCarryOver(w, w2, |w.promises|);
    (w2, w.queue[0])
  }

  /** A promise as the constructor leaves it before the executor runs (promise.js:9-21). */
  const Fresh := PromiseRec(Pending, Undefined, Undefined, [], [])

  /** Allocates a new pending promise; its id is the next unused one. */
  function NewPromise(w: World): (res: (World, PromiseId))
    requires Inv(w)
    ensures Inv(res.0) && Extends(w, res.0)
    ensures res.1 == |w.promises| && res.0.promises == w.promises + [Fresh]
    ensures res.0.guards == w.guards && res.0.queue == w.queue
  {
    var w2 := w.(promises := w.promises + [Fresh]);
    RecordsCarryOver(w, w2, |w.promises|);
    (w2, |w.promises|)
  }

  /**
   The internal `resolve` (fulfil = true, promise.js:23-30) or `reject`
   (promise.js:32-39) of promise `p`: only a pending promise changes; it takes
   the payload and every entry of the matching callback list enqueues its
   task, in registration order. The lists are not cleared.
   */
  function Settle(w: World, p: PromiseId, fulfil: bool, payload: Value): (w2: World)
    requires Inv(w) && p < |w.promises| && ValueIn(payload, |w.promises|)
    ensures Inv(w2) && Extends(w, w2)
    ensures |w2.promises| == |w.promises| && w2.guards == w.guards
    ensures forall q | 0 <= q < |w.promises| && q != p :: w2.promises[q] == w.promises[q]
    ensures IsSettled(w.promises[p]) ==> w2 == w
    ensures !IsSettled(w.promises[p]) ==>
      var r := w.promises[p];
      && w2.promises[p].state == (if fulfil then Fulfilled else Rejected)
      && (if fulfil then w2.promises[p].value == payload && w2.promises[p].reason == r.reason
          else w2.promises[p].reason == payload && w2.promises[p].value == r.value)
      && w2.promises[p].onFulfilledCallbacks == r.onFulfilledCallbacks
      && w2.promises[p].onRejectedCallbacks == r.onRejectedCallbacks
      && w2.queue == w.queue + (if fulfil then r.onFulfilledCallbacks else r.onRejectedCallbacks)
  {
    var r := w.promises[p];
    if IsSettled(r) then w
    else
      var r2 := if fulfil then r.(state := Fulfilled, value := payload)
                else r.(state := Rejected, reason := payload);
      var run := if fulfil then r.onFulfilledCallbacks else r.onRejectedCallbacks;
      var w2 := w.(promises := w.promises[p := r2], queue := w.queue + run);
      assert RecordOk(w, p);
      RecordsCarryOver(w, w2, p);
      w2
  }

  function Resolve(w: World, p: PromiseId, value: Value): (w2: World)
    requires Inv(w) && p < |w.promises| && ValueIn(value, |w.promises|)
    ensures Inv(w2) && Extends(w, w2)
    ensures |w2.promises| == |w.promises| && w2.guards == w.guards
    ensures forall q | 0 <= q < |w.promises| && q != p :: w2.promises[q] == w.promises[q]
    ensures IsSettled(w.promises[p]) ==> w2 == w
    ensures !IsSettled(w.promises[p]) ==>
      w2.promises[p].state == Fulfilled && w2.promises[p].value == value
      && w2.queue == w.queue + w.promises[p].onFulfilledCallbacks
  {
    Settle(w, p, true, value)
  }

  function Reject(w: World, p: PromiseId, reason: Value): (w2: World)
    requires Inv(w) && p < |w.promises| && ValueIn(reason, |w.promises|)
    ensures Inv(w2) && Extends(w, w2)
    ensures |w2.promises| == |w.promises| && w2.guards == w.guards
    ensures forall q | 0 <= q < |w.promises| && q != p :: w2.promises[q] == w.promises[q]
    ensures IsSettled(w.promises[p]) ==> w2 == w
    ensures !IsSettled(w.promises[p]) ==>
      w2.promises[p].state == Rejected && w2.promises[p].reason == reason
      && w2.queue == w.queue + w.promises[p].onRejectedCallbacks
  {
    Settle(w, p, false, reason)
  }
}
