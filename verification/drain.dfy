/**
 * What one run of a queue worker hands to its subscriber, shared by `MessageHelper` and
 * `RecvMessageHelper`.
 *
 * Both classes pair a FIFO queue with a semaphore: every enqueue releases one permit, and the
 * worker takes a permit before each pick. Clearing the queue does not take permits back, so
 * the permit count can exceed the queue length. Each permit beyond the queue makes the worker
 * pick from an empty queue, and that pick yields a null message (`None` here).
 */
module Drain {
  import opened Wrappers

  /** `n` null messages. */
  function Nulls(n: nat): (r: seq<Option<string>>)
    ensures |r| == n
    ensures forall i :: 0 <= i < n ==> r[i] == None
  {
    if n == 0 then [] else Nulls(n - 1) + [None]
  }

  /**
   * What the worker delivers, in order, when it runs until it would block or exit.
   * While the working flag is set it consumes every permit, so after the queue come the
   * null messages of the surplus permits. Once the flag is clear it stops as soon as the
   * queue is empty.
   */
  function Drained(queue: seq<Option<string>>, permits: nat, working: bool): seq<Option<string>>
    requires |queue| <= permits
  {
    if working then queue + Nulls(permits - |queue|) else queue
  }

  /** The permits left after such a run. */
  function PermitsAfterDrain(queue: seq<Option<string>>, permits: nat, working: bool): nat
    requires |queue| <= permits
  {
    if working then 0 else permits - |queue|
  }

  /** The queue after `n` picks: each pick removes the head, and a pick from an empty queue removes nothing. */
  function QueueAfter(queue: seq<Option<string>>, n: nat): seq<Option<string>> {
    if n <= |queue| then queue[n..] else []
  }

  /** What `n` picks return, in order: the queue's messages, then a null per pick beyond it. */
  function PickedAfter(queue: seq<Option<string>>, n: nat): seq<Option<string>> {
    if n <= |queue| then queue[..n] else queue + Nulls(n - |queue|)
  }

  /** One more pick returns the current head, or null from an empty queue. */
  lemma PickStep(queue: seq<Option<string>>, n: nat)
    ensures QueueAfter(queue, n) == [] ==>
      QueueAfter(queue, n + 1) == [] && PickedAfter(queue, n + 1) == PickedAfter(queue, n) + [None]
    ensures QueueAfter(queue, n) != [] ==>
      && QueueAfter(queue, n + 1) == QueueAfter(queue, n)[1..]
      && PickedAfter(queue, n + 1) == PickedAfter(queue, n) + [QueueAfter(queue, n)[0]]
  {
    if n < |queue| {
      assert queue[..n + 1] == queue[..n] + [queue[n]];
    } else if n == |queue| {
      assert queue[..n] == queue;
    }
  }

  /** The queue is empty after `n` picks exactly when `n` reaches its length. */
  lemma QueueAfterEmpty(queue: seq<Option<string>>, n: nat)
    ensures QueueAfter(queue, n) == [] <==> n >= |queue|
  {
  }

  /** A run of the worker is the picks it makes: one per permit while working, one per message otherwise. */
  lemma DrainedIsPicks(queue: seq<Option<string>>, permits: nat, working: bool)
    requires |queue| <= permits
    ensures Drained(queue, permits, working) == PickedAfter(queue, if working then permits else |queue|)
  {
    if !working || permits == |queue| {
      assert queue[..|queue|] == queue;
    }
  }

  /**
   * The queue is delivered first, in enqueue order, each message once. Whatever comes after
   * it is null. The run delivers one message per permit while working, and exactly the queue
   * otherwise.
   */
  lemma DrainedIsFifo(queue: seq<Option<string>>, permits: nat, working: bool)
    requires |queue| <= permits
    ensures |Drained(queue, permits, working)| == if working then permits else |queue|
    ensures Drained(queue, permits, working)[..|queue|] == queue
    ensures forall i :: |queue| <= i < |Drained(queue, permits, working)| ==> Drained(queue, permits, working)[i] == None
  {
    var d := Drained(queue, permits, working);
    if working {
      assert d[..|queue|] == queue;
    } else {
      assert d[..|queue|] == d;
    }
  }

  /**
   * The permits a run consumes are the messages it delivers, so the permits still cover the
   * (now empty) queue.
   */
  lemma DrainConsumesOnePermitEach(queue: seq<Option<string>>, permits: nat, working: bool)
    requires |queue| <= permits
    ensures PermitsAfterDrain(queue, permits, working) + |Drained(queue, permits, working)| == permits
  {
    DrainedIsFifo(queue, permits, working);
  }
}
