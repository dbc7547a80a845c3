/**
 Properties of the settlement state machine (promise.js:23-46): the first
 settlement wins, settling runs only the matching callback list, in
 registration order, and an executor's first step decides its promise.
 */
module SettlementLemmas {
  import opened Values
  import opened Worlds
  import opened PromiseA

  /** After the first `resolve` or `reject`, every further call is a no-op. */
  lemma FirstSettleWins(w: World, p: PromiseId, fulfil: bool, v: Value, fulfil2: bool, v2: Value)
    requires Inv(w) && p < |w.promises| && w.promises[p].state == Pending
    requires ValueIn(v, |w.promises|) && ValueIn(v2, |w.promises|)
    ensures var w1 := Settle(w, p, fulfil, v);
      && Settle(w1, p, fulfil2, v2) == w1
      && w1.promises[p].state == (if fulfil then Fulfilled else Rejected)
      && (if fulfil then w1.promises[p].value else w1.promises[p].reason) == v
  {
  }

  /**
   Settling a pending promise appends to the queue exactly the entries
   registered on it for that outcome, in registration order, and no entry
   registered for the other outcome.
   */
  lemma SettleRunsMatchingList(w: World, p: PromiseId, fulfil: bool, v: Value)
    requires Inv(w) && p < |w.promises| && w.promises[p].state == Pending
    requires ValueIn(v, |w.promises|)
    ensures var w1 := Settle(w, p, fulfil, v);
      && w.queue <= w1.queue
      && (forall i | |w.queue| <= i < |w1.queue| ::
            w1.queue[i].source == p && w1.queue[i].onFulfilledSide == fulfil)
      && |w1.queue| - |w.queue|
         == |if fulfil then w.promises[p].onFulfilledCallbacks else w.promises[p].onRejectedCallbacks|
  {
    assert RecordOk(w, p);
  }

  /**
   Two `then` calls on a pending promise, then `resolve`: their two
   fulfilment tasks are enqueued after the earlier registrations, first
   registered first.
   */
  lemma RegistrationOrder(w: World, p: PromiseId, f1: ThenArg, f2: ThenArg, v: Value)
    requires Inv(w) && p < |w.promises| && w.promises[p].state == Pending
    requires ArgIn(f1, w) && ArgIn(f2, w) && ValueIn(v, |w.promises|)
    ensures var (w1, p2) := Then(w, p, f1, NotCallable);
      var (w2, p3) := Then(w1, p, f2, NotCallable);
      Resolve(w2, p, v).queue
        == w.queue + w.promises[p].onFulfilledCallbacks + [FulfilTask(p, f1, p2), FulfilTask(p, f2, p3)]
  {
    var (w1, p2) := Then(w, p, f1, NotCallable);
    var (w2, p3) := Then(w1, p, f2, NotCallable);
    assert w2.promises[p].onFulfilledCallbacks
        == w.promises[p].onFulfilledCallbacks + [FulfilTask(p, f1, p2)] + [FulfilTask(p, f2, p3)];
  }

  /**
   Only an executor's first step matters: a `resolve`, `reject` or throw
   after it changes nothing (promise.js:24, 33, 42-46).
   */
  lemma ConstructFirstStepDecides(w: World, first: Step, rest: seq<Step>)
    requires Inv(w) && ValueIn(Thenable([first] + rest), |w.promises|)
    ensures ValueIn(Thenable([first]), |w.promises|)
    ensures Construct(w, [first] + rest) == Construct(w, [first])
  {
    var s, s1 := [first] + rest, [first];
    assert s[0] == first && s1[0] == first;
    assert StepsBound(s, 0) == Max(Bound(first.arg), StepsBound(s, 1));
    assert StepsBound(s1, 0) == Max(Bound(first.arg), StepsBound(s1, 1));
    var (w1, p) := NewPromise(w);
    ExecutorFirstStep(w1, s, p);
    ExecutorFirstStep(w1, s1, p);
    var (wa, ca) := RunScript(w1, s, 0, Resolver(p, true), Resolver(p, false));
    var (wb, cb) := RunScript(w1, s1, 0, Resolver(p, true), Resolver(p, false));
    assert wa == wb;
    if first.Throw? {
      assert ca == cb;
    } else {
      assert IsSettled(wa.promises[p]);
    }
  }
}
