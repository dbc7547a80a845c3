/**
 The event loop that drains the `setTimeout` queue, one task per turn.
 Tasks run in the order they were enqueued, and no run of tasks undoes a
 settlement or clears a `called` flag.
 */
module EventLoop {
  import opened Values
  import opened Worlds
  import opened PromiseA

  /**
   Runs the next `k` tasks. The tasks that were waiting behind them are
   still at the front of the queue afterwards, in the same order, and every
   promise that was settled keeps its state, value and reason.
   */
  function RunTasks(w: World, k: nat): (w2: World)
    requires Inv(w) && k <= |w.queue|
    ensures Inv(w2)
    ensures w.queue[k..] <= w2.queue
    ensures |w.promises| <= |w2.promises| && |w.guards| <= |w2.guards|
    ensures forall p | 0 <= p < |w.promises| :: Keeps(w.promises[p], w2.promises[p])
    ensures forall g | 0 <= g < |w.guards| && w.guards[g] :: w2.guards[g]
    decreases k
  {
    if k == 0 then w
    else
      var w1 := RunNext(w);
      var w2 := RunTasks(w1, k - 1);
      WaitingTasksLead(w.queue, w1.queue, w2.queue, k);
      KeepsTrans(w, w.(queue := w.queue[1..]), w1, w2);
      w2
  }

  /**
   If the tasks behind the first one lead the queue after one turn, and the
   tasks behind the next `k - 1` lead it after the remaining turns, then the
   tasks behind the first `k` lead it at the end.
   */
  lemma WaitingTasksLead(q: seq<Task>, q1: seq<Task>, q2: seq<Task>, k: nat)
    requires 0 < k <= |q| && q[1..] <= q1 && q1[k - 1..] <= q2
    ensures q[k..] <= q2
  {
    assert q[k..] == q[1..][k - 1..];
    assert q[1..][k - 1..] <= q1[k - 1..];
  }

  /** A turn followed by more turns keeps every record and every set flag. */
  lemma KeepsTrans(w: World, w0: World, w1: World, w2: World)
    requires w0.promises == w.promises && w0.guards == w.guards && Extends(w0, w1)
    requires |w1.promises| <= |w2.promises| && |w1.guards| <= |w2.guards|
    requires forall p | 0 <= p < |w1.promises| :: Keeps(w1.promises[p], w2.promises[p])
    requires forall g | 0 <= g < |w1.guards| && w1.guards[g] :: w2.guards[g]
    ensures forall p | 0 <= p < |w.promises| :: Keeps(w.promises[p], w2.promises[p])
    ensures forall g | 0 <= g < |w.guards| && w.guards[g] :: w2.guards[g]
  {
  }

  /** FIFO: the task at position `k` of the queue is the one that runs after `k` turns. */
  lemma FifoOrder(w: World, k: nat)
    requires Inv(w) && k < |w.queue|
    ensures RunTasks(w, k).queue[0] == w.queue[k]
  {
    var w2 := RunTasks(w, k);
    assert w.queue[k..] <= w2.queue;
    assert w.queue[k..][0] == w.queue[k];
  }
}
