/**
 The operations of `PromiseA` as transformers of the world: `then` and
 `catch` (promise.js:54-121), the tasks `then` schedules, the resolution
 procedure `resolvePromise` (promise.js:189-229) with the foreign `then` calls
 it makes, the constructor running an executor (promise.js:6-48) and the
 statics `resolve`, `reject` and `race` (promise.js:127-144, 169-177).

 `resolvePromise` calls a value's `then`, which for a foreign thenable runs
 its script, whose callbacks call `resolvePromise` again on a smaller value:
 the four functions `InvokeHandler`, `ResolvePromise`, `CallThen` and
 `RunScript` are one recursion,
 measured by `Size`.
 */
module PromiseA {
  import opened Values
  import opened Worlds

  /**
   The two registrations one `then` call makes on `p`, with a missing
   handler replaced by the default that passes the value on or throws the reason.
   */
  function FulfilTask(p: PromiseId, onFulfilled: ThenArg, promise2: PromiseId): Task {
    Task(p, if onFulfilled.Callable? then onFulfilled.handler else PassValue, promise2, true)
  }

  function RejectTask(p: PromiseId, onRejected: ThenArg, promise2: PromiseId): Task {
    Task(p, if onRejected.Callable? then onRejected.handler else Rethrow, promise2, false)
  }

  /**
   `p.then(onFulfilled, onRejected)` (promise.js:54-113). `NotCallable` stands for an
   argument that is not a function, replaced by the pass-through defaults.
   A fresh `promise2` is created; no handler runs now: a settled receiver gets
   one task appended to the queue, a pending one gets one entry appended to
   each callback list.
   */
  function Then(w: World, p: PromiseId, onFulfilled: ThenArg, onRejected: ThenArg): (res: (World, PromiseId))
    requires Inv(w) && p < |w.promises| && ArgIn(onFulfilled, w) && ArgIn(onRejected, w)
    ensures Inv(res.0) && Extends(w, res.0)
    ensures res.1 == |w.promises| && res.1 != p && |res.0.promises| == |w.promises| + 1
    ensures res.0.promises[res.1] == Fresh && res.0.guards == w.guards
    ensures forall q | 0 <= q < |w.promises| && q != p :: res.0.promises[q] == w.promises[q]
    ensures var r, r2 := w.promises[p], res.0.promises[p];
      && r2.state == r.state && r2.value == r.value && r2.reason == r.reason
      && match r.state
         case Fulfilled =>
           && res.0.queue == w.queue + [FulfilTask(p, onFulfilled, res.1)]
           && r2 == r
         case Rejected =>
           && res.0.queue == w.queue + [RejectTask(p, onRejected, res.1)]
           && r2 == r
         case Pending =>
           && res.0.queue == w.queue
           && r2.onFulfilledCallbacks == r.onFulfilledCallbacks + [FulfilTask(p, onFulfilled, res.1)]
           && r2.onRejectedCallbacks == r.onRejectedCallbacks + [RejectTask(p, onRejected, res.1)]
  {
    var (w1, promise2) := NewPromise(w);
    var r := w1.promises[p];
    var onF := FulfilTask(p, onFulfilled, promise2);
    var onR := RejectTask(p, onRejected, promise2);
    assert RecordOk(w1, p);
    match r.state
    case Fulfilled => (Enqueue(w1, onF), promise2)
    case Rejected => (Enqueue(w1, onR), promise2)
    case Pending =>
      var r2 := r.(onFulfilledCallbacks := r.onFulfilledCallbacks + [onF],
                   onRejectedCallbacks := r.onRejectedCallbacks + [onR]);
      var w2 := w1.(promises := w1.promises[p := r2]);
      RecordsCarryOver(w1, w2, p);
      (w2, promise2)
  }

  /** `catch` is `then` with no fulfilment handler (promise.js:119-121). */
  function Catch(w: World, p: PromiseId, onRejected: ThenArg): (res: (World, PromiseId))
    requires Inv(w) && p < |w.promises| && ArgIn(onRejected, w)
    ensures Inv(res.0) && Extends(w, res.0) && res.1 == |w.promises|
    ensures |res.0.promises| == |w.promises| + 1 && res.0.promises[res.1] == Fresh
    ensures res.0.guards == w.guards
    ensures forall q | 0 <= q < |w.promises| && q != p :: res.0.promises[q] == w.promises[q]
    ensures var r, r2 := w.promises[p], res.0.promises[p];
      r2.state == r.state && r2.value == r.value && r2.reason == r.reason
    ensures w.promises[p].state == Fulfilled ==>
      res.0.queue == w.queue + [Task(p, PassValue, res.1, true)]
    ensures w.promises[p].state == Rejected ==>
      res.0.queue == w.queue + [RejectTask(p, onRejected, res.1)]
    ensures w.promises[p].state == Pending ==>
      && res.0.queue == w.queue
      && res.0.promises[p].onFulfilledCallbacks
         == w.promises[p].onFulfilledCallbacks + [Task(p, PassValue, res.1, true)]
      && res.0.promises[p].onRejectedCallbacks
         == w.promises[p].onRejectedCallbacks + [RejectTask(p, onRejected, res.1)]
  {
    Then(w, p, NotCallable, onRejected)
  }

  /**
   Calls handler `h` with `arg`. The defaults pass the value through or throw
   the reason (promise.js:55-56); a user handler completes as it was given;
   a promise's own `resolve`/`reject` settle it and return `undefined`. The
   callbacks `resolvePromise` builds (promise.js:201-211) do nothing once
   their shared flag is set; otherwise they set it, and the fulfil callback
   resolves `target` with `arg` while the reject callback reads the unbound
   identifier `error` and so throws a `ReferenceError` (promise.js:210).
   */
  function InvokeHandler(w: World, h: Handler, arg: Value): (res: (World, Completion))
    requires Inv(w) && HandlerIn(h, w) && ValueIn(arg, |w.promises|)
    ensures Inv(res.0) && Extends(w, res.0) && CompletionIn(res.1, |res.0.promises|)
    ensures h.PassValue? ==> res == (w, Returns(arg))
    ensures h.Rethrow? ==> res == (w, Throws(arg))
    ensures h.User? ==> res == (w, h.completion)
    ensures h.Resolver? ==> res == (Settle(w, h.target, h.fulfil, arg), Returns(Undefined))
    ensures h.Guarded? && w.guards[h.guard] ==> res == (w, Returns(Undefined))
    ensures h.Guarded? && !w.guards[h.guard] ==>
      && res.0.guards[h.guard]
      && (h.fulfil ==> res == (ResolvePromise(SetGuard(w, h.guard), h.target, arg), Returns(Undefined)))
      && (!h.fulfil ==> res == (SetGuard(w, h.guard), Throws(Error(ReferenceError))))
    decreases Size(arg), 3
  {
    match h
    case PassValue => (w, Returns(arg))
    case Rethrow => (w, Throws(arg))
    case User(c) => (w, c)
    case Resolver(t, fulfil) => (Settle(w, t, fulfil, arg), Returns(Undefined))
    case Guarded(g, t, fulfil) =>
      if w.guards[g] then (w, Returns(Undefined))
      else
        var w1 := SetGuard(w, g);
        if fulfil then
          var w2 := ResolvePromise(w1, t, arg);
          ExtendsTrans(w, w1, w2);
          (w2, Returns(Undefined))
        else (w1, Throws(Error(ReferenceError)))
  }

  /**
   `resolvePromise(promise2, x, resolve, reject)` (promise.js:189-229):
   `x === promise2` rejects with a `TypeError`; a value that is not an object,
   or whose `then` is not a function, fulfils; a throwing `then` getter
   rejects with what it threw; a callable `then` is called with two callbacks
   sharing a new, unset `called` flag, and if that call throws, the flag is
   set without being checked and `promise2` is rejected (promise.js:212-214).
   */
  function ResolvePromise(w: World, promise2: PromiseId, x: Value): (w2: World)
    requires Inv(w) && promise2 < |w.promises| && ValueIn(x, |w.promises|)
    ensures Inv(w2) && Extends(w, w2)
    decreases Size(x), 2
  {
    if x == Promise(promise2) then Reject(w, promise2, Error(TypeError))
    else if !IsObject(x) then Resolve(w, promise2, x)
    else if x.ThrowingThen? then Reject(w, promise2, x.thrown)
    else if !HasCallableThen(x) then Resolve(w, promise2, x)
    else
      var (w1, g) := NewGuard(w);
      var (w2, c) := CallThen(w1, x, Guarded(g, promise2, true), Guarded(g, promise2, false));
      ExtendsTrans(w, w1, w2);
      match c
      case Returns(_) => w2
      case Throws(e) =>
        var w3 := SetGuard(w2, g);
        var w4 := Reject(w3, promise2, e);
        ExtendsTrans(w, w2, w3);
        ExtendsTrans(w, w3, w4);
        w4
  }

  /**
   `x.then(onFulfilled, onRejected)` on any value: a `PromiseA` registers
   through `Then`, a foreign thenable runs its script, a throwing getter
   throws, and anything whose `then` is not a function throws a `TypeError`.
   */
  function CallThen(w: World, x: Value, onFulfilled: Handler, onRejected: Handler): (res: (World, Completion))
    requires Inv(w) && ValueIn(x, |w.promises|) && HandlerIn(onFulfilled, w) && HandlerIn(onRejected, w)
    ensures Inv(res.0) && Extends(w, res.0) && CompletionIn(res.1, |res.0.promises|)
    decreases Size(x), 1
  {
    match x
    case Thenable(s) => RunScript(w, s, 0, onFulfilled, onRejected)
    case Promise(q) =>
      var (w1, p3) := Then(w, q, Callable(onFulfilled), Callable(onRejected));
      (w1, Returns(Promise(p3)))
    case ThrowingThen(e) => (w, Throws(e))
    case _ => (w, Throws(Error(TypeError)))
  }

  /**
   Runs the steps of `s` from index `i` against the two callbacks. A `Throw`
   step, or a callback that throws, ends the script with that throw.
   */
  function RunScript(w: World, s: seq<Step>, i: nat, onFulfilled: Handler, onRejected: Handler): (res: (World, Completion))
    requires Inv(w) && i <= |s| && ScriptIn(s, i, |w.promises|)
    requires HandlerIn(onFulfilled, w) && HandlerIn(onRejected, w)
    ensures Inv(res.0) && Extends(w, res.0) && CompletionIn(res.1, |res.0.promises|)
    decreases StepsSize(s, i), 0
  {
    if i == |s| then (w, Returns(Undefined))
    else
      match s[i]
      case Throw(e) => (w, Throws(e))
      case _ =>
        var h := if s[i].CallFulfil? then onFulfilled else onRejected;
        var (w1, c) := InvokeHandler(w, h, s[i].arg);
        if c.Throws? then (w1, c)
        else
          var (w2, c2) := RunScript(w1, s, i + 1, onFulfilled, onRejected);
          ExtendsTrans(w, w1, w2);
          (w2, c2)
  }

  /**
   The `setTimeout` callback that `then` schedules (promise.js:60-69, 73-82,
   87-96, 100-108): call the handler with the source's value or reason; if it
   throws, reject `promise2` with what it threw, otherwise hand the returned
   `x` to `resolvePromise`.
   */
  function RunTask(w: World, t: Task): (w2: World)
    requires Inv(w) && TaskIn(t, w)
    ensures Inv(w2) && Extends(w, w2)
  {
    var r := w.promises[t.source];
    var arg := if t.onFulfilledSide then r.value else r.reason;
    assert RecordOk(w, t.source);
    var (w1, c) := InvokeHandler(w, t.handler, arg);
    var w2 := match c
      case Returns(x) => ResolvePromise(w1, t.promise2, x)
      case Throws(e) => Reject(w1, t.promise2, e);
    ExtendsTrans(w, w1, w2);
    w2
  }

  /**
   One turn of the event loop: the oldest queued task runs; whatever it
   enqueues goes behind every task that was already waiting.
   */
  function RunNext(w: World): (w2: World)
    requires Inv(w) && |w.queue| > 0
    ensures Inv(w2) && Extends(w.(queue := w.queue[1..]), w2)
    ensures w.queue[1..] <= w2.queue
  {
    var (w1, t) := Dequeue(w);
    RunTask(w1, t)
  }

  /**
   `new PromiseA(executor)` (promise.js:6-48), with the executor given as a
   script of calls to its `resolve` and `reject` and an optional throw. A
   throw that escapes the executor rejects the promise, which is a no-op when
   an earlier call already settled it. The first step decides the outcome.
   */
  function Construct(w: World, executor: seq<Step>): (res: (World, PromiseId))
    requires Inv(w) && ScriptIn(executor, 0, |w.promises|)
    ensures Inv(res.0) && Extends(w, res.0)
    ensures res.1 == |w.promises| && |res.0.promises| == |w.promises| + 1
    ensures res.0.promises[..|w.promises|] == w.promises
    ensures res.0.queue == w.queue && res.0.guards == w.guards
    ensures var r := res.0.promises[res.1];
      if |executor| == 0 then r.state == Pending
      else match executor[0]
        case CallFulfil(v) => r.state == Fulfilled && r.value == v
        case CallReject(e) => r.state == Rejected && r.reason == e
        case Throw(e) => r.state == Rejected && r.reason == e
  {
    var (w1, p) := NewPromise(w);
    var (w2, c) := RunScript(w1, executor, 0, Resolver(p, true), Resolver(p, false));
    ExecutorFirstStep(w1, executor, p);
    var w3 := match c
      case Returns(_) => w2
      case Throws(e) => Reject(w2, p, e);
    ExtendsTrans(w, w1, w2);
    ExtendsTrans(w, w2, w3);
    (w3, p)
  }

  /**
   Once promise `p` has settled, a script that calls only `p`'s own
   `resolve` and `reject` leaves the whole world as it is.
   */
  lemma {:induction false} SettledResolversNoop(w: World, s: seq<Step>, i: nat, p: PromiseId)
    requires Inv(w) && i <= |s| && ScriptIn(s, i, |w.promises|) && p < |w.promises|
    requires IsSettled(w.promises[p])
    ensures RunScript(w, s, i, Resolver(p, true), Resolver(p, false)).0 == w
    decreases |s| - i
  {
    if i < |s| && !s[i].Throw? {
      SettledResolversNoop(w, s, i + 1, p);
    }
  }

  /**
   Running an executor on its pending promise `p`: the first step settles
   `p` (or throws with `p` still pending), and no later step changes anything.
   */
  lemma ExecutorFirstStep(w: World, s: seq<Step>, p: PromiseId)
    requires Inv(w) && ScriptIn(s, 0, |w.promises|) && p < |w.promises|
    requires w.promises[p] == Fresh
    ensures var (w2, c) := RunScript(w, s, 0, Resolver(p, true), Resolver(p, false));
      && |w2.promises| == |w.promises|
      && (|s| == 0 ==> w2 == w && c.Returns?)
      && (|s| > 0 && s[0].Throw? ==> w2 == w && c == Throws(s[0].arg))
      && (|s| > 0 && !s[0].Throw? ==>
            w2 == Settle(w, p, s[0].CallFulfil?, s[0].arg) && IsSettled(w2.promises[p]))
  {
    if |s| > 0 && !s[0].Throw? {
      var w1 := Settle(w, p, s[0].CallFulfil?, s[0].arg);
      SettledResolversNoop(w1, s, 1, p);
    }
  }

  /**
   `PromiseA.resolve(value)` (promise.js:127-134): a `PromiseA` is returned
   as it is; anything else, thenables included, becomes the value of a new
   promise that is already fulfilled.
   */
  function StaticResolve(w: World, value: Value): (res: (World, PromiseId))
    requires Inv(w) && ValueIn(value, |w.promises|)
    ensures Inv(res.0) && Extends(w, res.0)
    ensures value.Promise? ==> res == (w, value.id)
    ensures !value.Promise? ==>
      && res.1 == |w.promises| && |res.0.promises| == |w.promises| + 1
      && res.0.promises[res.1].state == Fulfilled && res.0.promises[res.1].value == value
      && res.0.promises[..|w.promises|] == w.promises
      && res.0.queue == w.queue && res.0.guards == w.guards
  {
    if value.Promise? then (w, value.id)
    else Construct(w, [CallFulfil(value)])
  }

  /** `PromiseA.reject(reason)` (promise.js:140-144): a new promise, already rejected. */
  function StaticReject(w: World, reason: Value): (res: (World, PromiseId))
    requires Inv(w) && ValueIn(reason, |w.promises|)
    ensures Inv(res.0) && Extends(w, res.0)
    ensures res.1 == |w.promises| && |res.0.promises| == |w.promises| + 1
    ensures res.0.promises[res.1].state == Rejected && res.0.promises[res.1].reason == reason
    ensures res.0.promises[..|w.promises|] == w.promises
    ensures res.0.queue == w.queue && res.0.guards == w.guards
  {
    Construct(w, [CallReject(reason)])
  }

  predicate InputsIn(inputs: seq<Value>, w: World) {
    forall i | 0 <= i < |inputs| :: ValueIn(inputs[i], |w.promises|)
  }

  /**
   The loop of `race` that subscribes the race promise's own `resolve` and
   `reject` to each input in turn, from index `i` on (promise.js:173-175); a
   `then` call that throws stops the loop. When every
   remaining input is a `PromiseA`, nothing throws and no promise settles.
   */
  function Subscribe(w: World, inputs: seq<Value>, i: nat, onFulfilled: Handler, onRejected: Handler): (res: (World, Completion))
    requires Inv(w) && i <= |inputs| && InputsIn(inputs, w)
    requires HandlerIn(onFulfilled, w) && HandlerIn(onRejected, w)
    ensures Inv(res.0) && Extends(w, res.0) && CompletionIn(res.1, |res.0.promises|)
    ensures (forall j | i <= j < |inputs| :: inputs[j].Promise?) ==>
      && res.1.Returns?
      && forall q | 0 <= q < |w.promises| :: res.0.promises[q].state == w.promises[q].state
    decreases |inputs| - i
  {
    if i == |inputs| then (w, Returns(Undefined))
    else
      var (w1, c) := CallThen(w, inputs[i], onFulfilled, onRejected);
      if c.Throws? then (w1, c)
      else
        var (w2, c2) := Subscribe(w1, inputs, i + 1, onFulfilled, onRejected);
        ExtendsTrans(w, w1, w2);
        (w2, c2)
  }

  /**
   `PromiseA.race(promises)` (promise.js:169-177): a new promise whose own
   `resolve` and `reject` are subscribed to every input, so the first
   settlement to reach it wins. An input whose `then` throws (anything that
   is not a thenable) rejects it through the constructor's catch.
   */
  function Race(w: World, inputs: seq<Value>): (res: (World, PromiseId))
    requires Inv(w) && InputsIn(inputs, w)
    ensures Inv(res.0) && Extends(w, res.0)
    ensures res.1 == |w.promises| && res.1 < |res.0.promises|
    ensures (forall j | 0 <= j < |inputs| :: inputs[j].Promise?) ==>
      res.0.promises[res.1].state == Pending
  {
    var (w1, r) := NewPromise(w);
    var (w2, c) := Subscribe(w1, inputs, 0, Resolver(r, true), Resolver(r, false));
    var w3 := match c
      case Returns(_) => w2
      case Throws(e) => Reject(w2, r, e);
    ExtendsTrans(w, w1, w2);
    ExtendsTrans(w, w2, w3);
    (w3, r)
  }
}
