/**
 * The FIFO render queue of cineboard/queue_manager.py: a Python list that is
 * appended to, popped at the front and cleared, and that announces every
 * append and clear with the queue_updated signal.
 */
module QueueManagement {
  import opened Wrappers

  /** list.pop(0) behind the emptiness test of get_next_item: the item handed out and the rest. */
  function PopFront<T>(q: seq<T>): (r: (Option<T>, seq<T>))
    ensures q == [] ==> r == (None, q)
    ensures q != [] ==> r.0 == Some(q[0]) && [q[0]] + r.1 == q
  {
    if q == [] then (None, q) else (Some(q[0]), q[1..])
  }

  class QueueManager<T> {
    /** self.queue */
    var queue: seq<T>
    /** How many times queue_updated has been emitted. */
    var updates: nat

    constructor ()
      ensures queue == [] && updates == 0
    {
      queue := [];
      updates := 0;
    }

    method AddToQueue(item: T)
      modifies this
      ensures queue == old(queue) + [item]
      ensures updates == old(updates) + 1
    {
      queue := queue + [item];
      updates := updates + 1;
    }

    /** Hands out the oldest item, or None (and no change) when the queue is empty; emits nothing. */
    method GetNextItem() returns (item: Option<T>)
      modifies this
      ensures (item, queue) == PopFront(old(queue))
      ensures updates == old(updates)
    {
      if |queue| > 0 {
        item := Some(queue[0]);
        queue := queue[1..];
      } else {
        item := None;
      }
    }

    method HasItems() returns (b: bool)
      ensures b <==> |queue| > 0
    {
      b := |queue| > 0;
    }

    method ClearQueue()
      modifies this
      ensures queue == []
      ensures updates == old(updates) + 1
    {
      queue := [];
      updates := updates + 1;
    }
  }

  /** A call on the queue, for reasoning about whole histories of calls. */
  datatype Op<T> = Add(item: T) | Next | Clear

  /**
   * The effect of a history of calls on a queue holding q: the items
   * get_next_item handed out, in order, and the queue afterwards.
   */
  function Run<T>(q: seq<T>, ops: seq<Op<T>>): (seq<T>, seq<T>)
    decreases |ops|
  {
    if ops == [] then ([], q)
    else match ops[0]
      case Add(x) => Run(q + [x], ops[1..])
      case Clear => Run([], ops[1..])
      case Next =>
        var (item, rest) := PopFront(q);
        var (out, last) := Run(rest, ops[1..]);
        (if item.Some? then [item.value] + out else out, last)
  }

  /** The items passed to add_to_queue in a history, in call order. */
  function Added<T>(ops: seq<Op<T>>): seq<T>
    decreases |ops|
  {
    if ops == [] then []
    else if ops[0].Add? then [ops[0].item] + Added(ops[1..])
    else Added(ops[1..])
  }

  predicate NoClear<T>(ops: seq<Op<T>>) {
    forall i :: 0 <= i < |ops| ==> !ops[i].Clear?
  }

  /**
   * FIFO law: without a clear, what was handed out followed by what is still
   * queued is exactly what was queued before followed by what was added, in order.
   */
  lemma {:induction false} FifoLaw<T>(q: seq<T>, ops: seq<Op<T>>)
    requires NoClear(ops)
    ensures Run(q, ops).0 + Run(q, ops).1 == q + Added(ops)
    decreases |ops|
  {
    if ops != [] {
      assert NoClear(ops[1..]) by {
        forall i | 0 <= i < |ops[1..]| ensures !ops[1..][i].Clear? {
          assert ops[1..][i] == ops[i + 1];
        }
      }
      if ops[0].Add? {
        FifoLaw(q + [ops[0].item], ops[1..]);
      } else {
        assert ops[0].Next? by { assert !ops[0].Clear?; }
        var (item, rest) := PopFront(q);
        FifoLaw(rest, ops[1..]);
        var (out, last) := Run(rest, ops[1..]);
        assert Added(ops) == Added(ops[1..]);
        if q != [] {
          calc {
            Run(q, ops).0 + Run(q, ops).1;
            ([q[0]] + out) + last;
            [q[0]] + (rest + Added(ops[1..]));
            q + Added(ops);
          }
        }
      }
    }
  }

  /** Starting from an empty queue, the items come out in exactly the order they went in. */
  lemma HandedOutInAddOrder<T>(ops: seq<Op<T>>)
    requires NoClear(ops)
    ensures |Run([], ops).0| <= |Added(ops)|
    ensures Run([], ops).0 == Added(ops)[..|Run([], ops).0|]
  {
    FifoLaw([], ops);
    assert [] + Added(ops) == Added(ops);
  }

  /** Running one more call after a history is the same as running it on the resulting queue. */
  lemma {:induction false} RunSnoc<T>(q: seq<T>, ops: seq<Op<T>>, op: Op<T>)
    ensures Run(q, ops + [op]).1 == Run(Run(q, ops).1, [op]).1
    decreases |ops|
  {
    if ops == [] {
      assert ops + [op] == [op];
    } else {
      assert (ops + [op])[1..] == ops[1..] + [op];
      match ops[0]
      case Add(x) => RunSnoc(q + [x], ops[1..], op);
      case Clear => RunSnoc([], ops[1..], op);
      case Next => RunSnoc(PopFront(q).1, ops[1..], op);
    }
  }

  /** Whatever happened before, after clear_queue has_items is false. */
  lemma EmptyAfterClear<T>(q: seq<T>, ops: seq<Op<T>>)
    ensures Run(q, ops + [Clear]).1 == []
  {
    RunSnoc(q, ops, Clear);
  }
}
