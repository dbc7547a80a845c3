/**
 Properties of the statics `PromiseA.resolve`, `PromiseA.reject` and
 `PromiseA.race` (promise.js:127-144, 169-177).
 */
module StaticsLemmas {
  import opened Values
  import opened Worlds
  import opened PromiseA
  import opened EventLoop

  /** `resolve(resolve(v))` is `resolve(v)`: the second call returns the same promise and allocates nothing. */
  lemma ResolveDoesNotRewrap(w: World, v: Value)
    requires Inv(w) && ValueIn(v, |w.promises|)
    ensures var (w1, p) := StaticResolve(w, v);
      StaticResolve(w1, Promise(p)) == (w1, p)
  {
  }

  /**
   `PromiseA.resolve` stores a foreign thenable as a plain value: the new
   promise is fulfilled with the thenable itself and its `then` is never called.
   */
  lemma ResolveKeepsThenable(w: World, s: seq<Step>)
    requires Inv(w) && ValueIn(Thenable(s), |w.promises|)
    ensures var (w1, p) := StaticResolve(w, Thenable(s));
      && w1.promises[p].state == Fulfilled && w1.promises[p].value == Thenable(s)
      && w1.guards == w.guards && w1.queue == w.queue
  {
    var (w1, p) := NewPromise(w);
    ExecutorFirstStep(w1, [CallFulfil(Thenable(s))], p);
  }

  /**
   `race` over a pending promise `a` and a fulfilled promise `b` (in that
   order) settles with `b`'s value as soon as the one task `b` scheduled has
   run; if `a` is rejected afterwards, the race promise still holds `b`'s
   value once every task that rejection queued (its own `reject` among them)
   has run.
   */
  lemma RaceFirstSettlementWins(w: World, a: PromiseId, b: PromiseId, r2: Value)
    requires Inv(w) && a < |w.promises| && b < |w.promises| && w.queue == []
    requires w.promises[a].state == Pending && w.promises[b].state == Fulfilled
    requires ValueIn(r2, |w.promises|)
    ensures var (w1, r) := Race(w, [Promise(a), Promise(b)]);
      && w1.promises[r].state == Pending
      && |w1.queue| == 1
      && var w2 := RunNext(w1);
      && w2.promises[r].state == Fulfilled && w2.promises[r].value == w.promises[b].value
      && var w3 := Reject(w2, a, r2);
      var w4 := RunTasks(w3, |w3.queue|);
      w4.promises[r].state == Fulfilled && w4.promises[r].value == w.promises[b].value
  {
    var (w1, r) := Race(w, [Promise(a), Promise(b)]);
    var pb := RaceSubscribes(w, a, b);
    var onF := Resolver(r, true);
    var (wq, t) := Dequeue(w1);
    assert RecordOk(wq, b);
    var v := w.promises[b].value;
    var ws := Resolve(wq, r, v);
    assert InvokeHandler(wq, onF, v) == (ws, Returns(Undefined));
    assert RunNext(w1) == ResolvePromise(ws, pb, Undefined);
    var w2 := RunNext(w1);
    var w3 := Reject(w2, a, r2);
    assert w3.promises[r] == w2.promises[r];
    assert Keeps(w3.promises[r], RunTasks(w3, |w3.queue|).promises[r]);
  }

  /** `race` on two `PromiseA` inputs is a fresh promise followed by one `then` on each input, in order. */
  lemma RaceTwoUnfold(w: World, a: PromiseId, b: PromiseId)
    requires Inv(w) && a < |w.promises| && b < |w.promises|
    ensures var (w0, r) := NewPromise(w);
      var onF, onR := Resolver(r, true), Resolver(r, false);
      var wa := Then(w0, a, Callable(onF), Callable(onR)).0;
      Race(w, [Promise(a), Promise(b)]) == (Then(wa, b, Callable(onF), Callable(onR)).0, r)
  {
    var (w0, r) := NewPromise(w);
    var onF, onR := Resolver(r, true), Resolver(r, false);
    var wa := Then(w0, a, Callable(onF), Callable(onR)).0;
    var wb := Then(wa, b, Callable(onF), Callable(onR)).0;
    var inputs := [Promise(a), Promise(b)];
    assert Subscribe(wb, inputs, 2, onF, onR) == (wb, Returns(Undefined));
    assert Subscribe(wa, inputs, 1, onF, onR) == (wb, Returns(Undefined));
    assert Subscribe(w0, inputs, 0, onF, onR) == (wb, Returns(Undefined));
  }

  /** The subscriptions `race` makes for the two inputs of `RaceFirstSettlementWins`. */
  lemma RaceSubscribes(w: World, a: PromiseId, b: PromiseId) returns (pb: PromiseId)
    requires Inv(w) && a < |w.promises| && b < |w.promises| && w.queue == []
    requires w.promises[a].state == Pending && w.promises[b].state == Fulfilled
    ensures var (w1, r) := Race(w, [Promise(a), Promise(b)]);
      && r == |w.promises| && pb < |w1.promises| && pb != r
      && w1.promises[r] == Fresh && w1.promises[b] == w.promises[b]
      && w1.queue == [Task(b, Resolver(r, true), pb, true)]
      && w1.promises[a].onFulfilledCallbacks
         == w.promises[a].onFulfilledCallbacks + [Task(a, Resolver(r, true), r + 1, true)]
      && w1.promises[a].onRejectedCallbacks
         == w.promises[a].onRejectedCallbacks + [Task(a, Resolver(r, false), r + 1, false)]
  {
    var (w0, r) := NewPromise(w);
    var onF, onR := Resolver(r, true), Resolver(r, false);
    var (wa, pa) := Then(w0, a, Callable(onF), Callable(onR));
    var (wb, pb') := Then(wa, b, Callable(onF), Callable(onR));
    pb := pb';
    assert Race(w, [Promise(a), Promise(b)]) == (wb, r) by { RaceTwoUnfold(w, a, b); }
    assert wb.promises[a] == wa.promises[a];
  }

  /** An input that is not a thenable makes `promise.then` throw, which rejects the race at once. */
  lemma RaceOnNonThenableRejects(w: World, x: Value, rest: seq<Value>)
    requires Inv(w) && InputsIn([x] + rest, w)
    requires !HasCallableThen(x) && !x.ThrowingThen?
    ensures var (w1, r) := Race(w, [x] + rest);
      w1.promises[r].state == Rejected && w1.promises[r].reason == Error(TypeError)
  {
  }
}
