/** inc/ThreadSafeQueue.h: every method body is one critical section. */
module Queues {
  import opened Options

  datatype Queue<T> = Queue(items: seq<T>, stopped: bool)

  datatype Operation<T> = Push(item: T) | Pop | WaitAndPop | TryPop | Clear | Stop

  /** When the operation can complete: waitAndPop blocks until its wait predicate holds, pop gives up in the end. */
  predicate CanComplete<T>(q: Queue<T>, op: Operation<T>) {
    op.WaitAndPop? ==> q.items != [] || q.stopped
  }

  predicate Yields<T>(q: Queue<T>, op: Operation<T>) {
    q.items != [] && (op.Pop? || op.WaitAndPop? || (op.TryPop? && !q.stopped))
  }

  function Apply<T>(q: Queue<T>, op: Operation<T>): Queue<T> {
    if Yields(q, op) then q.(items := q.items[1..])
    else match op
      case Push(item) => if q.stopped then q else q.(items := q.items + [item])
      case Clear => q.(items := [])
      case Stop => q.(stopped := true)
      case _ => q
  }

  function Result<T>(q: Queue<T>, op: Operation<T>): Option<T> {
    if Yields(q, op) then Some(q.items[0]) else None
  }

  class ThreadSafeQueue<T> {
    var queue: seq<T>
    var stopped: bool

    ghost function View(): Queue<T>
      reads this
    {
      Queue(queue, stopped)
    }

    constructor ()
      ensures View() == Queue([], false)
    {
      queue := [];
      stopped := false;
    }

    /** The move constructor: the source is left stopped. */
    constructor Moved(other: ThreadSafeQueue<T>)
      modifies other
      ensures View() == old(other.View())
      ensures other.stopped
    {
      queue := other.queue;
      stopped := other.stopped;
      new;
      other.queue := [];
      other.stopped := true;
    }

    method Push(item: T)
      modifies this
      ensures View() == Apply(old(View()), Operation.Push(item))
    {
      if stopped {
        return;
      }
      queue := queue + [item];
    }

    method Pop() returns (item: Option<T>)
      modifies this
      ensures View() == Apply(old(View()), Operation.Pop)
      ensures item == Result(old(View()), Operation.Pop)
    {
      if queue == [] {
        return None;
      }
      item := Some(queue[0]);
      queue := queue[1..];
    }

    method WaitAndPop() returns (item: Option<T>)
      requires CanComplete(View(), Operation.WaitAndPop)
      modifies this
      ensures View() == Apply(old(View()), Operation.WaitAndPop)
      ensures item == Result(old(View()), Operation.WaitAndPop)
      ensures item.None? ==> stopped && queue == []
    {
      if stopped && queue == [] {
        return None;
      }
      item := Some(queue[0]);
      queue := queue[1..];
    }

    method TryPop() returns (item: Option<T>)
      modifies this
      ensures View() == Apply(old(View()), Operation.TryPop)
      ensures item == Result(old(View()), Operation.TryPop)
    {
      if queue == [] || stopped {
        return None;
      }
      item := Some(queue[0]);
      queue := queue[1..];
    }

    method Clear()
      modifies this
      ensures View() == Apply(old(View()), Operation.Clear)
    {
      queue := [];
    }

    method Stop()
      modifies this
      ensures View() == Apply(old(View()), Operation.Stop)
    {
      stopped := true;
    }

    method Size() returns (n: nat)
      ensures n == |queue|
    {
      n := |queue|;
    }
  }

  // ---------------------------------------------------------------- history

  /** Items accepted so far, and how many of them have left the queue again, popped or cleared. */
  datatype History<T> = History(queue: Queue<T>, accepted: seq<T>, left: nat)

  function Record<T>(h: History<T>, op: Operation<T>): History<T> {
    History(Apply(h.queue, op),
            if op.Push? && !h.queue.stopped then h.accepted + [op.item] else h.accepted,
            if op.Clear? then h.left + |h.queue.items| else if Yields(h.queue, op) then h.left + 1 else h.left)
  }

  ghost predicate IsRun<T>(states: seq<History<T>>, ops: seq<Operation<T>>) {
    && |states| == |ops| + 1
    && states[0] == History(Queue([], false), [], 0)
    && forall k :: 0 <= k < |ops| ==> CanComplete(states[k].queue, ops[k]) && states[k + 1] == Record(states[k], ops[k])
  }

  ghost predicate Balanced<T>(h: History<T>) {
    h.left <= |h.accepted| && h.queue.items == h.accepted[h.left..]
  }

  lemma RecordKeepsBalance<T>(h: History<T>, op: Operation<T>)
    requires Balanced(h)
    ensures Balanced(Record(h, op))
    ensures h.accepted <= Record(h, op).accepted && h.left <= Record(h, op).left
    ensures h.queue.stopped ==> Record(h, op).queue.stopped && Record(h, op).accepted == h.accepted
    ensures Result(h.queue, op).Some? ==>
      h.left < |h.accepted| && Result(h.queue, op).value == h.accepted[h.left] && Record(h, op).left == h.left + 1
  {
    if op.Push? && !h.queue.stopped {
      assert (h.accepted + [op.item])[h.left..] == h.accepted[h.left..] + [op.item];
    }
  }

  /** Over every run: what was accepted is what has left followed by what is still there, and neither shrinks. */
  lemma {:induction false} FifoRun<T>(states: seq<History<T>>, ops: seq<Operation<T>>, i: nat, j: nat)
    requires IsRun(states, ops) && i <= j < |states|
    ensures Balanced(states[i]) && Balanced(states[j])
    ensures states[i].accepted <= states[j].accepted && states[i].left <= states[j].left
    ensures states[i].queue.stopped ==> states[j].queue.stopped && states[j].accepted == states[i].accepted
    decreases j
  {
    if i < j {
      FifoRun(states, ops, i, j - 1);
      RecordKeepsBalance(states[j - 1], ops[j - 1]);
    } else if j > 0 {
      FifoRun(states, ops, j - 1, j - 1);
      RecordKeepsBalance(states[j - 1], ops[j - 1]);
    }
  }

  predicate NeverStopped<T>(ops: seq<Operation<T>>, n: nat) {
    forall k :: 0 <= k < n && k < |ops| ==> !ops[k].Stop?
  }

  /** The queue is stopped exactly if it was told to. */
  lemma {:induction false} StoppedByStop<T>(states: seq<History<T>>, ops: seq<Operation<T>>, j: nat)
    requires IsRun(states, ops) && j < |states|
    ensures states[j].queue.stopped <==> !NeverStopped(ops, j)
  {
    if j > 0 {
      StoppedByStop(states, ops, j - 1);
      assert states[j] == Record(states[j - 1], ops[j - 1]);
    }
  }

  /** Each operation of a run: a push is accepted exactly if stop was never called; a pop returns the oldest item not
      yet gone, and returns one exactly if there is one, tryPop only before stop. */
  lemma EachOperation<T>(states: seq<History<T>>, ops: seq<Operation<T>>, j: nat)
    requires IsRun(states, ops) && j < |ops|
    ensures var h, op, h' := states[j], ops[j], states[j + 1];
      && h'.accepted == h.accepted + (if op.Push? && NeverStopped(ops, j) then [op.item] else [])
      && (op.Pop? || op.WaitAndPop? || (op.TryPop? && NeverStopped(ops, j)) ==>
          Result(h.queue, op) == if h.left < |h.accepted| then Some(h.accepted[h.left]) else None)
      && (op.TryPop? && !NeverStopped(ops, j) ==> Result(h.queue, op) == None)
      && (op.Clear? ==> h'.left == |h.accepted|)
      && (!op.Clear? ==> h'.left == h.left + if Result(h.queue, op).Some? then 1 else 0)
  {
    FifoRun(states, ops, j, j);
    StoppedByStop(states, ops, j);
  }

  /** A stopped queue is drained in order by pop and waitAndPop, then reports the end; tryPop refuses it. */
  lemma {:induction false} StoppedQueueDrains<T>(q: Queue<T>, op: Operation<T>, n: nat)
    requires q.stopped && (op.Pop? || op.WaitAndPop?)
    ensures Repeat(q, op, n).items == if n <= |q.items| then q.items[n..] else []
    ensures Repeat(q, op, n).stopped
    ensures Result(Repeat(q, op, n), op) == if n < |q.items| then Some(q.items[n]) else None
    ensures Result(q, TryPop).None? && Apply(q, TryPop) == q
  {
    if n > 0 {
      StoppedQueueDrains(q, op, n - 1);
    }
  }

  function Repeat<T>(q: Queue<T>, op: Operation<T>, n: nat): Queue<T> {
    if n == 0 then q else Apply(Repeat(q, op, n - 1), op)
  }
}
