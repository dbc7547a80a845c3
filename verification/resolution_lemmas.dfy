/**
 Properties of the resolution procedure `resolvePromise` (promise.js:189-229)
 and of the `called` flag its two callbacks share.
 */
module ResolutionLemmas {
  import opened Values
  import opened Worlds
  import opened PromiseA

  /** A handler's result that is the very promise it should settle rejects it (promise.js:191-193). */
  lemma SelfResolutionRejects(w: World, promise2: PromiseId)
    requires Inv(w) && promise2 < |w.promises| && w.promises[promise2].state == Pending
    ensures var r := ResolvePromise(w, promise2, Promise(promise2)).promises[promise2];
      r.state == Rejected && r.reason == Error(TypeError)
  {
  }

  /**
   A value that is not an object, or an object whose `then` is not a
   function, fulfils `promise2` with the value itself (promise.js:196, 216-219, 226-228).
   */
  lemma NonThenableFulfils(w: World, promise2: PromiseId, x: Value)
    requires Inv(w) && promise2 < |w.promises| && ValueIn(x, |w.promises|)
    requires w.promises[promise2].state == Pending
    requires !HasCallableThen(x) && !x.ThrowingThen?
    ensures var r := ResolvePromise(w, promise2, x).promises[promise2];
      r.state == Fulfilled && r.value == x
  {
  }

  /** A `then` getter that throws rejects `promise2` with what it threw (promise.js:197-198, 220-225). */
  lemma ThenGetterThrowRejects(w: World, promise2: PromiseId, e: Value)
    requires Inv(w) && promise2 < |w.promises| && ValueIn(e, |w.promises|)
    requires w.promises[promise2].state == Pending
    ensures var r := ResolvePromise(w, promise2, ThrowingThen(e)).promises[promise2];
      r.state == Rejected && r.reason == e
  {
  }

  /**
   The `called` flag: once either callback has run, every later call of
   either callback, with any argument, returns `undefined` and changes nothing
   (promise.js:203-204, 208-209).
   */
  lemma GuardFirstCallWins(w: World, g: GuardId, t: PromiseId, fulfil: bool, a: Value,
                           t2: PromiseId, fulfil2: bool, a2: Value)
    requires Inv(w) && g < |w.guards| && t < |w.promises| && t2 < |w.promises|
    requires ValueIn(a, |w.promises|) && ValueIn(a2, |w.promises|)
    ensures var w1 := InvokeHandler(w, Guarded(g, t, fulfil), a).0;
      && w1.guards[g]
      && InvokeHandler(w1, Guarded(g, t2, fulfil2), a2) == (w1, Returns(Undefined))
  {
    var w1 := InvokeHandler(w, Guarded(g, t, fulfil), a).0;
  }

  /**
   With the flag set, a thenable's script can call the callbacks any number
   of times to no effect; a script without a throw then returns normally.
   */
  lemma {:induction false} GuardedCallbacksInert(w: World, s: seq<Step>, i: nat, g: GuardId, t: PromiseId)
    requires Inv(w) && i <= |s| && ScriptIn(s, i, |w.promises|)
    requires g < |w.guards| && w.guards[g] && t < |w.promises|
    ensures RunScript(w, s, i, Guarded(g, t, true), Guarded(g, t, false)).0 == w
    ensures (forall j | i <= j < |s| :: !s[j].Throw?) ==>
      RunScript(w, s, i, Guarded(g, t, true), Guarded(g, t, false)).1 == Returns(Undefined)
    decreases |s| - i
  {
    if i < |s| && !s[i].Throw? {
      GuardedCallbacksInert(w, s, i + 1, g, t);
    }
  }

  /**
   A thenable whose `then` first calls the fulfil callback with a plain value
   fulfils `promise2` with it, whatever the rest of its script does: later
   calls are ignored by the flag, and a later throw finds `promise2` settled.
   */
  lemma ThenableFirstFulfilWins(w: World, promise2: PromiseId, v: Value, rest: seq<Step>)
    requires Inv(w) && promise2 < |w.promises| && w.promises[promise2].state == Pending
    requires ValueIn(Thenable([CallFulfil(v)] + rest), |w.promises|)
    requires !IsObject(v)
    ensures var r := ResolvePromise(w, promise2, Thenable([CallFulfil(v)] + rest)).promises[promise2];
      r.state == Fulfilled && r.value == v
  {
    var s := [CallFulfil(v)] + rest;
    assert s[0] == CallFulfil(v);
    assert StepsBound(s, 0) == Max(Bound(v), StepsBound(s, 1));
    var (w1, g) := NewGuard(w);
    var h, hr := Guarded(g, promise2, true), Guarded(g, promise2, false);
    var wa := Resolve(SetGuard(w1, g), promise2, v);
    assert InvokeHandler(w1, h, v) == (wa, Returns(Undefined));
    GuardedCallbacksInert(wa, s, 1, g, promise2);
    var (w2, c) := RunScript(w1, s, 0, h, hr);
    assert w2 == wa;
  }

  /**
   A thenable whose `then` throws before calling back rejects `promise2` with
   what it threw (promise.js:212-214); one whose `then` returns without ever
   calling back leaves `promise2` pending, with only the new flag added.
   */
  lemma ThenableWithoutCallback(w: World, promise2: PromiseId, s: seq<Step>)
    requires Inv(w) && promise2 < |w.promises| && ValueIn(Thenable(s), |w.promises|)
    requires w.promises[promise2].state == Pending
    requires s == [] || s[0].Throw?
    ensures var w2 := ResolvePromise(w, promise2, Thenable(s));
      && |w2.guards| == |w.guards| + 1
      && (s == [] ==> w2 == NewGuard(w).0)
      && (s != [] ==> w2.promises[promise2].state == Rejected && w2.promises[promise2].reason == s[0].arg)
  {
    var (w1, g) := NewGuard(w);
    var h, hr := Guarded(g, promise2, true), Guarded(g, promise2, false);
    if s != [] {
      var e := s[0].arg;
      assert StepsBound(s, 0) == Max(Bound(e), StepsBound(s, 1));
      assert CallThen(w1, Thenable(s), h, hr) == (w1, Throws(e));
      assert ResolvePromise(w, promise2, Thenable(s)) == Reject(SetGuard(w1, g), promise2, e);
    } else {
      assert CallThen(w1, Thenable(s), h, hr) == (w1, Returns(Undefined));
    }
  }

  /**
   A thenable whose `then` first calls the fulfil callback with any value `v`
   and never throws: the outcome is exactly that of resolving `promise2` with
   `v` under the new flag, now set (promise.js:203-205), so the recursion
   follows `v` wherever it leads and every later call is ignored.
   */
  lemma ThenableFirstFulfilAdopts(w: World, promise2: PromiseId, v: Value, rest: seq<Step>)
    requires Inv(w) && promise2 < |w.promises|
    requires ValueIn(Thenable([CallFulfil(v)] + rest), |w.promises|)
    requires forall j | 0 <= j < |rest| :: !rest[j].Throw?
    ensures ValueIn(v, |w.promises|)
    ensures ResolvePromise(w, promise2, Thenable([CallFulfil(v)] + rest))
         == ResolvePromise(SetGuard(NewGuard(w).0, |w.guards|), promise2, v)
  {
    var s := [CallFulfil(v)] + rest;
    assert s[0] == CallFulfil(v);
    assert StepsBound(s, 0) == Max(Bound(v), StepsBound(s, 1));
    var (w1, g) := NewGuard(w);
    var h, hr := Guarded(g, promise2, true), Guarded(g, promise2, false);
    var wa := ResolvePromise(SetGuard(w1, g), promise2, v);
    assert InvokeHandler(w1, h, v) == (wa, Returns(Undefined));
    assert forall j | 1 <= j < |s| :: !s[j].Throw? by {
      forall j | 1 <= j < |s|
        ensures !s[j].Throw?
      {
        assert s[j] == rest[j - 1];
      }
    }
    GuardedCallbacksInert(wa, s, 1, g, promise2);
    assert RunScript(w1, s, 0, h, hr) == (wa, Returns(Undefined));
  }

  /**
   A thenable whose `then` first calls the reject callback rejects
   `promise2`, whatever the rest of its script does. The reason is not the
   callback's argument `e` but a `ReferenceError`: the callback throws on the
   unbound `error` (promise.js:210) and that throw is caught at promise.js:212-214.
   */
  lemma ThenableFirstRejectWins(w: World, promise2: PromiseId, e: Value, rest: seq<Step>)
    requires Inv(w) && promise2 < |w.promises| && w.promises[promise2].state == Pending
    requires ValueIn(Thenable([CallReject(e)] + rest), |w.promises|)
    ensures var r := ResolvePromise(w, promise2, Thenable([CallReject(e)] + rest)).promises[promise2];
      r.state == Rejected && r.reason == Error(ReferenceError)
  {
    var s := [CallReject(e)] + rest;
    assert s[0] == CallReject(e);
    assert StepsBound(s, 0) == Max(Bound(e), StepsBound(s, 1));
    var (w1, g) := NewGuard(w);
    var h, hr := Guarded(g, promise2, true), Guarded(g, promise2, false);
    var thrown := Throws(Error(ReferenceError));
    assert InvokeHandler(w1, hr, e) == (SetGuard(w1, g), thrown);
    assert RunScript(w1, s, 0, h, hr) == (SetGuard(w1, g), thrown);
  }

  /**
   The unchecked flag at promise.js:212-214: a thenable that calls the fulfil
   callback with any other `PromiseA`, whatever its state, and then throws
   still rejects `promise2` with the thrown value, because adopting the
   promise leaves `promise2` pending until a later task.
   */
  lemma ThrowAfterAdoptionRejects(w: World, promise2: PromiseId, q: PromiseId, e: Value)
    requires Inv(w) && promise2 < |w.promises| && q < |w.promises| && q != promise2
    requires w.promises[promise2].state == Pending
    requires ValueIn(Thenable([CallFulfil(Promise(q)), Throw(e)]), |w.promises|)
    ensures var r := ResolvePromise(w, promise2, Thenable([CallFulfil(Promise(q)), Throw(e)])).promises[promise2];
      r.state == Rejected && r.reason == e
  {
    var s := [CallFulfil(Promise(q)), Throw(e)];
    assert StepsBound(s, 0) == Max(Bound(Promise(q)), StepsBound(s, 1));
    var (w1, g) := NewGuard(w);
    var h, hr := Guarded(g, promise2, true), Guarded(g, promise2, false);
    var wa := GuardedAdoption(w1, g, promise2, q);
    assert RunScript(wa, s, 1, h, hr) == (wa, Throws(e));
    assert RunScript(w1, s, 0, h, hr) == (wa, Throws(e));
  }

  /** The fulfil callback called with a `PromiseA` `q`, flag unset: it subscribes to `q` and settles nothing yet. */
  lemma GuardedAdoption(w: World, g: GuardId, promise2: PromiseId, q: PromiseId) returns (wa: World)
    requires Inv(w) && g < |w.guards| && !w.guards[g]
    requires promise2 < |w.promises| && q < |w.promises| && q != promise2
    ensures InvokeHandler(w, Guarded(g, promise2, true), Promise(q)) == (wa, Returns(Undefined))
    ensures Inv(wa) && Extends(w, wa) && wa.promises[promise2] == w.promises[promise2]
  {
    var wg := SetGuard(w, g);
    var (wg2, g2) := NewGuard(wg);
    var (w3, c) := CallThen(wg2, Promise(q), Guarded(g2, promise2, true), Guarded(g2, promise2, false));
    assert ResolvePromise(wg, promise2, Promise(q)) == w3;
    wa := w3;
  }

  /** `resolvePromise` on a `PromiseA` `q` amounts to `q.then` with the two guarded callbacks. */
  lemma AdoptionCallsThen(w: World, promise2: PromiseId, q: PromiseId)
    requires Inv(w) && promise2 < |w.promises| && q < |w.promises| && q != promise2
    ensures var (w1, g) := NewGuard(w);
      ResolvePromise(w, promise2, Promise(q))
      == Then(w1, q, Callable(Guarded(g, promise2, true)), Callable(Guarded(g, promise2, false))).0
  {
  }

  /**
   Adopting a `PromiseA` never settles `promise2` at once: it only subscribes
   to the adopted promise through its `then` (promise.js:199-201).
   */
  lemma AdoptionIsDeferred(w: World, promise2: PromiseId, q: PromiseId)
    requires Inv(w) && promise2 < |w.promises| && q < |w.promises| && q != promise2
    ensures var w2 := ResolvePromise(w, promise2, Promise(q));
      && w2.promises[promise2] == w.promises[promise2]
      && |w2.guards| == |w.guards| + 1 && !w2.guards[|w.guards|]
      && |w2.queue| + |w2.promises[q].onFulfilledCallbacks|
         == |w.queue| + |w.promises[q].onFulfilledCallbacks| + 1
  {
    AdoptionCallsThen(w, promise2, q);
  }

  /**
   Adopting a fulfilled `PromiseA`: once the task it scheduled has run,
   `promise2` is fulfilled with the adopted promise's (plain) value.
   */
  lemma AdoptFulfilled(w: World, promise2: PromiseId, q: PromiseId)
    requires Inv(w) && promise2 < |w.promises| && q < |w.promises| && q != promise2
    requires w.queue == [] && w.promises[promise2].state == Pending
    requires w.promises[q].state == Fulfilled && !IsObject(w.promises[q].value)
    ensures var w2 := ResolvePromise(w, promise2, Promise(q));
      && |w2.queue| == 1
      && var w3 := RunNext(w2);
      w3.promises[promise2].state == Fulfilled && w3.promises[promise2].value == w.promises[q].value
  {
    AdoptionCallsThen(w, promise2, q);
    var (wg, g) := NewGuard(w);
    var h := Guarded(g, promise2, true);
    var p3 := |w.promises|;
    var w2 := ResolvePromise(w, promise2, Promise(q));
    assert w2.queue == [Task(q, h, p3, true)];
    var (w1, t) := Dequeue(w2);
    var v := w.promises[q].value;
    assert w1.promises[q] == w.promises[q];
    assert w1.promises[promise2] == w.promises[promise2];
    var wr := Resolve(SetGuard(w1, g), promise2, v);
    assert InvokeHandler(w1, h, v) == (wr, Returns(Undefined));
    assert RunTask(w1, t) == ResolvePromise(wr, p3, Undefined);
  }

  /**
   Adopting a rejected `PromiseA` leaves `promise2` pending after the inner
   task, with the flag set, so neither callback can settle it any more: the
   reject callback sets the flag and then throws on the unbound `error`
   (promise.js:206-211), which rejects only the promise returned by the
   inner `then`, and every later call of either callback is ignored.
   */
  lemma AdoptRejectedStaysPending(w: World, promise2: PromiseId, q: PromiseId)
    requires Inv(w) && promise2 < |w.promises| && q < |w.promises| && q != promise2
    requires w.queue == [] && w.promises[promise2].state == Pending
    requires w.promises[q].state == Rejected
    ensures var w2 := ResolvePromise(w, promise2, Promise(q));
      && |w2.queue| == 1
      && var w3 := RunNext(w2);
      && w3.promises[promise2].state == Pending
      && w3.guards[|w.guards|]
  {
    AdoptionCallsThen(w, promise2, q);
    var (wg, g) := NewGuard(w);
    var hr := Guarded(g, promise2, false);
    var p3 := |w.promises|;
    var w2 := ResolvePromise(w, promise2, Promise(q));
    assert w2.queue == [Task(q, hr, p3, false)];
    var (w1, t) := Dequeue(w2);
    var r := w.promises[q].reason;
    assert w1.promises[q] == w.promises[q];
    assert w1.promises[promise2] == w.promises[promise2];
    assert RecordOk(w1, q);
    var ws := SetGuard(w1, g);
    assert InvokeHandler(w1, hr, r) == (ws, Throws(Error(ReferenceError)));
    assert RunTask(w1, t) == Reject(ws, p3, Error(ReferenceError));
  }
}
