/**
 Properties of `then` and of the tasks it schedules (promise.js:54-121):
 the defaults pass a value or a reason through, a handler that throws
 rejects `promise2` without entering `resolvePromise`, and a handler that
 returns hands its result to `resolvePromise`.
 */
module ThenLemmas {
  import opened Values
  import opened Worlds
  import opened PromiseA

  /** With no `onFulfilled`, the task hands the source's value, unchanged, to `resolvePromise`. */
  lemma DefaultPassesValue(w: World, p: PromiseId, promise2: PromiseId)
    requires Inv(w) && p < |w.promises| && promise2 < |w.promises|
    ensures RunTask(w, FulfilTask(p, NotCallable, promise2))
         == ResolvePromise(w, promise2, w.promises[p].value)
  {
    assert RecordOk(w, p);
  }

  /** With no `onRejected`, the default re-throws, so `promise2` rejects with the source's reason. */
  lemma DefaultRethrowsReason(w: World, p: PromiseId, promise2: PromiseId)
    requires Inv(w) && p < |w.promises| && promise2 < |w.promises|
    requires w.promises[promise2].state == Pending
    ensures var r := RunTask(w, RejectTask(p, NotCallable, promise2)).promises[promise2];
      r.state == Rejected && r.reason == w.promises[p].reason
  {
    assert RecordOk(w, p);
  }

  /** A handler that throws rejects `promise2` with what it threw and never enters `resolvePromise`. */
  lemma HandlerThrowRejects(w: World, t: Task, e: Value)
    requires Inv(w) && TaskIn(t, w) && t.handler == User(Throws(e))
    ensures RunTask(w, t) == Reject(w, t.promise2, e)
  {
  }

  /** A handler that returns `x` hands `x` to `resolvePromise` for `promise2`. */
  lemma HandlerReturnResolves(w: World, t: Task, x: Value)
    requires Inv(w) && TaskIn(t, w) && t.handler == User(Returns(x))
    ensures RunTask(w, t) == ResolvePromise(w, t.promise2, x)
  {
  }

  /**
   A handler that returns the very promise its task settles would make
   `promise2` reject with a `TypeError` (promise.js:191-193). No `then` call
   builds such a task, since `promise2` is new when the handler is passed in.
   */
  lemma HandlerReturnsOwnPromise(w: World, t: Task)
    requires Inv(w) && TaskIn(t, w) && t.handler == User(Returns(Promise(t.promise2)))
    requires w.promises[t.promise2].state == Pending
    ensures var r := RunTask(w, t).promises[t.promise2];
      r.state == Rejected && r.reason == Error(TypeError)
  {
    assert RunTask(w, t) == ResolvePromise(w, t.promise2, Promise(t.promise2));
  }

  /**
   An executor that resolves with 10 synchronously, then `then` with a
   handler returning 20. Right after
   `then`, `promise2` is still pending; the one task the event loop runs
   fulfils it with 20.
   */
  lemma ResolvedThenScenario(w: World)
    requires Inv(w) && w.queue == []
    ensures var (w1, d) := Construct(w, [CallFulfil(Prim(10))]);
      var (w2, promise2) := Then(w1, d, Callable(User(Returns(Prim(20)))), NotCallable);
      && w2.promises[promise2].state == Pending
      && |w2.queue| == 1
      && var w3 := RunNext(w2);
      w3.promises[promise2].state == Fulfilled && w3.promises[promise2].value == Prim(20)
  {
    var (w1, d) := Construct(w, [CallFulfil(Prim(10))]);
    ExecutorFirstStep(NewPromise(w).0, [CallFulfil(Prim(10))], d);
    assert w1.queue == [];
    var (w2, promise2) := Then(w1, d, Callable(User(Returns(Prim(20)))), NotCallable);
    var (wq, t) := Dequeue(w2);
    assert RunNext(w2) == ResolvePromise(wq, promise2, Prim(20));
  }

  /**
   A handler on a fulfilled promise throws `boom`; once its task has run,
   `promise2` is rejected with `boom`, and a `catch` on `promise2` schedules
   a task that will receive `boom` unchanged.
   */
  lemma ThrowThenCatchScenario(w: World, p: PromiseId, boom: Value, f: Handler)
    requires Inv(w) && p < |w.promises| && w.promises[p].state == Fulfilled && w.queue == []
    requires ValueIn(boom, |w.promises|) && HandlerIn(f, w)
    ensures var (w1, promise2) := Then(w, p, Callable(User(Throws(boom))), NotCallable);
      && |w1.queue| == 1
      && var w2 := RunNext(w1);
      && w2.promises[promise2].state == Rejected && w2.promises[promise2].reason == boom
      && var (w3, promise3) := Catch(w2, promise2, Callable(f));
      && w3.queue == w2.queue + [RejectTask(promise2, Callable(f), promise3)]
      && w3.promises[promise2].reason == boom
  {
    var (w1, promise2) := Then(w, p, Callable(User(Throws(boom))), NotCallable);
    var (wq, t) := Dequeue(w1);
    assert RunNext(w1) == Reject(wq, promise2, boom);
  }
}
