/**
 The subscription loop of `PromiseA.race` (promise.js:173-175): over inputs
 that are all `PromiseA` instances it makes exactly one `then(resolve,
 reject)` call per input, in input order.
 */
module SubscribeLemmas {
  import opened Values
  import opened Worlds
  import opened PromiseA

  /**
   The registration one `then(onFulfilled, onRejected)` call on `q` leaves in
   `w2`: a task in the queue when `q` had settled in `w`, an entry in each
   callback list when it was pending.
   */
  predicate Registered(w: World, w2: World, q: PromiseId, onFulfilled: Task, onRejected: Task)
    requires q < |w.promises| && q < |w2.promises|
  {
    match w.promises[q].state
    case Fulfilled => onFulfilled in w2.queue
    case Rejected => onRejected in w2.queue
    case Pending =>
      onFulfilled in w2.promises[q].onFulfilledCallbacks && onRejected in w2.promises[q].onRejectedCallbacks
  }

  /** A registration stays in place through any later step: queues and callback lists only grow. */
  lemma RegisteredPersists(w: World, w1: World, w2: World, q: PromiseId, tf: Task, tr: Task)
    requires q < |w.promises| && q < |w1.promises| && Extends(w1, w2)
    requires Registered(w, w1, q, tf, tr)
    ensures Registered(w, w2, q, tf, tr)
  {
    assert Keeps(w1.promises[q], w2.promises[q]);
    var fs, rs := w1.promises[q].onFulfilledCallbacks, w1.promises[q].onRejectedCallbacks;
    match w.promises[q].state
    case Fulfilled =>
      var k :| 0 <= k < |w1.queue| && w1.queue[k] == tf;
      assert w2.queue[k] == tf;
    case Rejected =>
      var k :| 0 <= k < |w1.queue| && w1.queue[k] == tr;
      assert w2.queue[k] == tr;
    case Pending =>
      var k :| 0 <= k < |fs| && fs[k] == tf;
      var k2 :| 0 <= k2 < |rs| && rs[k2] == tr;
      assert w2.promises[q].onFulfilledCallbacks[k] == tf;
      assert w2.promises[q].onRejectedCallbacks[k2] == tr;
  }

  /** On a `PromiseA` input, one step of the subscription loop is one `then` call. */
  lemma SubscribeUnfold(w: World, inputs: seq<Value>, i: nat, onF: Handler, onR: Handler)
    requires Inv(w) && i < |inputs| && InputsIn(inputs, w)
    requires HandlerIn(onF, w) && HandlerIn(onR, w) && inputs[i].Promise?
    ensures inputs[i].id < |w.promises|
    ensures var w1 := Then(w, inputs[i].id, Callable(onF), Callable(onR)).0;
      && InputsIn(inputs, w1)
      && Subscribe(w, inputs, i, onF, onR) == Subscribe(w1, inputs, i + 1, onF, onR)
  {
    assert ValueIn(inputs[i], |w.promises|);
  }

  /** One `then(onFulfilled, onRejected)` call on `q` leaves exactly the registration its state calls for. */
  lemma ThenRegisters(w: World, q: PromiseId, onF: Handler, onR: Handler)
    requires Inv(w) && q < |w.promises| && HandlerIn(onF, w) && HandlerIn(onR, w)
    ensures var (w1, p3) := Then(w, q, Callable(onF), Callable(onR));
      Registered(w, w1, q, Task(q, onF, p3, true), Task(q, onR, p3, false))
  {
    var (w1, p3) := Then(w, q, Callable(onF), Callable(onR));
    var fs, rs := w1.promises[q].onFulfilledCallbacks, w1.promises[q].onRejectedCallbacks;
    if w.promises[q].state == Fulfilled {
      assert w1.queue[|w.queue|] == Task(q, onF, p3, true);
    } else if w.promises[q].state == Rejected {
      assert w1.queue[|w.queue|] == Task(q, onR, p3, false);
    } else {
      assert fs[|fs| - 1] == Task(q, onF, p3, true);
      assert rs[|rs| - 1] == Task(q, onR, p3, false);
    }
  }

  /**
   Every input from `i` on is a `PromiseA` of `w` and has the registration
   its state calls for in `w2`, under its own `promise2`, numbered in input
   order from `|w.promises|`.
   */
  predicate EachRegistered(w: World, w2: World, inputs: seq<Value>, i: nat, onF: Handler, onR: Handler)
    requires i <= |inputs| && |w.promises| <= |w2.promises|
  {
    forall j | i <= j < |inputs| ::
      && inputs[j].Promise? && inputs[j].id < |w.promises|
      && Registered(w, w2, inputs[j].id, Task(inputs[j].id, onF, |w.promises| + (j - i), true),
                    Task(inputs[j].id, onR, |w.promises| + (j - i), false))
  }

  /**
   The queue of `w2` extends that of `w`, and every task added comes from the
   `then` call on the input its `promise2` numbers, reading that input.
   */
  predicate QueuedFromInputs(w: World, w2: World, inputs: seq<Value>, i: nat)
  {
    && w.queue <= w2.queue
    && forall k | |w.queue| <= k < |w2.queue| ::
         var n := w2.queue[k].promise2 - |w.promises|;
         0 <= n && i + n < |inputs| && inputs[i + n] == Promise(w2.queue[k].source)
  }

  /**
   What subscribing `inputs[i..]` did between `w` and `w2`: exactly one
   `then` call per input, each with its own fresh `promise2` and the
   registration the input's state calls for, and no other task queued.
   */
  predicate RegistersEach(w: World, w2: World, inputs: seq<Value>, i: nat, onF: Handler, onR: Handler)
    requires i <= |inputs|
  {
    && |w2.promises| == |w.promises| + (|inputs| - i)
    && EachRegistered(w, w2, inputs, i, onF, onR)
    && QueuedFromInputs(w, w2, inputs, i)
  }

  /** The registrations part of the step of `SubscribeRegistersEach`. */
  lemma EachRegisteredStep(w: World, w1: World, w2: World, inputs: seq<Value>, i: nat, onF: Handler, onR: Handler)
    requires i < |inputs| && |w1.promises| == |w.promises| + 1 && |w1.promises| <= |w2.promises|
    requires forall j | i <= j < |inputs| :: inputs[j].Promise? && inputs[j].id < |w.promises|
    requires forall q | 0 <= q < |w.promises| :: w1.promises[q].state == w.promises[q].state
    requires EachRegistered(w1, w2, inputs, i + 1, onF, onR)
    requires Registered(w, w2, inputs[i].id, Task(inputs[i].id, onF, |w.promises|, true),
                        Task(inputs[i].id, onR, |w.promises|, false))
    ensures EachRegistered(w, w2, inputs, i, onF, onR)
  {
    forall j | i < j < |inputs|
      ensures Registered(w, w2, inputs[j].id, Task(inputs[j].id, onF, |w.promises| + (j - i), true),
                         Task(inputs[j].id, onR, |w.promises| + (j - i), false))
    {
      var q, p := inputs[j].id, |w.promises| + (j - i);
      assert p == |w1.promises| + (j - (i + 1));
      assert Registered(w1, w2, q, Task(q, onF, p, true), Task(q, onR, p, false));
      assert w1.promises[q].state == w.promises[q].state;
    }
  }

  /** The queue part of the step of `SubscribeRegistersEach`. */
  lemma QueuedFromInputsStep(w: World, w1: World, w2: World, inputs: seq<Value>, i: nat)
    requires i < |inputs| && |w1.promises| == |w.promises| + 1
    requires w.queue <= w1.queue
    requires forall k | |w.queue| <= k < |w1.queue| ::
      w1.queue[k].promise2 == |w.promises| && inputs[i] == Promise(w1.queue[k].source)
    requires QueuedFromInputs(w1, w2, inputs, i + 1)
    ensures QueuedFromInputs(w, w2, inputs, i)
  {
    forall k | |w.queue| <= k < |w2.queue|
      ensures var n := w2.queue[k].promise2 - |w.promises|;
        0 <= n && i + n < |inputs| && inputs[i + n] == Promise(w2.queue[k].source)
    {
      if k < |w1.queue| {
        assert w2.queue[k] == w1.queue[k];
      } else {
        var n1 := w2.queue[k].promise2 - |w1.promises|;
        assert 0 <= n1 && i + 1 + n1 < |inputs| && inputs[i + 1 + n1] == Promise(w2.queue[k].source);
      }
    }
  }

  /** The `then` call on input `i` followed by the rest of the loop registers every input from `i` on. */
  lemma SubscribeStepRegisters(w: World, w1: World, w2: World, inputs: seq<Value>, i: nat, onF: Handler, onR: Handler)
    requires Inv(w) && i < |inputs| && InputsIn(inputs, w)
    requires HandlerIn(onF, w) && HandlerIn(onR, w)
    requires forall j | i <= j < |inputs| :: inputs[j].Promise?
    requires inputs[i].id < |w.promises|
    requires w1 == Then(w, inputs[i].id, Callable(onF), Callable(onR)).0
    requires Extends(w1, w2) && RegistersEach(w1, w2, inputs, i + 1, onF, onR)
    ensures RegistersEach(w, w2, inputs, i, onF, onR)
  {
    var q := inputs[i].id;
    var p3 := |w.promises|;
    assert forall j | i <= j < |inputs| :: inputs[j].id < |w.promises| by {
      forall j | i <= j < |inputs|
        ensures inputs[j].id < |w.promises|
      {
        assert ValueIn(inputs[j], |w.promises|);
      }
    }
    ThenRegisters(w, q, onF, onR);
    RegisteredPersists(w, w1, w2, q, Task(q, onF, p3, true), Task(q, onR, p3, false));
    EachRegisteredStep(w, w1, w2, inputs, i, onF, onR);
    QueuedFromInputsStep(w, w1, w2, inputs, i);
  }

  /**
   Subscribing to inputs that are all `PromiseA` instances makes exactly one
   `then(onF, onR)` call per input, in order (promise.js:173-175).
   */
  lemma {:induction false} SubscribeRegistersEach(w: World, inputs: seq<Value>, i: nat, onF: Handler, onR: Handler)
    requires Inv(w) && i <= |inputs| && InputsIn(inputs, w)
    requires HandlerIn(onF, w) && HandlerIn(onR, w)
    requires forall j | i <= j < |inputs| :: inputs[j].Promise?
    ensures RegistersEach(w, Subscribe(w, inputs, i, onF, onR).0, inputs, i, onF, onR)
    decreases |inputs| - i
  {
    if i == |inputs| {
      assert Subscribe(w, inputs, i, onF, onR).0 == w;
    } else {
      SubscribeUnfold(w, inputs, i, onF, onR);
      var w1 := Then(w, inputs[i].id, Callable(onF), Callable(onR)).0;
      var w2 := Subscribe(w1, inputs, i + 1, onF, onR).0;
      assert RegistersEach(w1, w2, inputs, i + 1, onF, onR) by {
        SubscribeRegistersEach(w1, inputs, i + 1, onF, onR);
      }
      assert RegistersEach(w, w2, inputs, i, onF, onR) by {
        SubscribeStepRegisters(w, w1, w2, inputs, i, onF, onR);
      }
    }
  }
}
