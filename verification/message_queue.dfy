/**
 * `MessageHelper`: a FIFO hand-off between the thread that receives messages and a worker
 * thread that raises `OnMessage` for each.
 *
 * The model is sequential. Each public method is one atomic step. `DoWork` is the worker
 * running until it would block (no permit while the working flag is set) or exit (flag
 * clear, queue empty). The semaphore is its permit count. `delivered` is the sequence of
 * messages `OnMessage` has been raised with, oldest first. A C# null string is `None`.
 */
module MessageQueue {
  import opened Wrappers
  import opened Drain

  class MessageHelper {
    /** `_msgQueue`, head first. */
    var queue: seq<Option<string>>
    /** The count of `_msgSemaphore`. */
    var permits: nat
    /** `_threadWorking`. */
    var working: bool
    /** `_threadWorker != null`. */
    var hasWorker: bool
    /** The messages `OnMessage` was raised with. */
    var delivered: seq<Option<string>>

    /** Every queued message holds a permit; a set working flag means a worker was started. */
    predicate Valid()
      reads this
    {
      |queue| <= permits && (working ==> hasWorker)
    }

    constructor()
      ensures Valid()
      ensures queue == [] && permits == 0 && !working && !hasWorker && delivered == []
    {
      queue := [];
      permits := 0;
      working := false;
      hasWorker := false;
      delivered := [];
    }

    /** `Start`: set the working flag and start a worker. */
    method Start()
      requires Valid()
      modifies this
      ensures Valid() && working && hasWorker
      ensures queue == old(queue) && permits == old(permits) && delivered == old(delivered)
    {
      working := true;
      hasWorker := true;
    }

    /**
     * `Stop`: clear the working flag, wait for the worker (which first drains the queue),
     * drop the worker and clear the queue. Without a worker the queued messages are
     * discarded. The permits they held are never taken back.
     */
    method Stop()
      requires Valid()
      modifies this
      ensures Valid() && !working && !hasWorker && queue == []
      ensures old(hasWorker) ==> delivered == old(delivered) + old(queue) && permits == old(permits) - |old(queue)|
      ensures !old(hasWorker) ==> delivered == old(delivered) && permits == old(permits)
    {
      working := false;
      if hasWorker {
        DoWork();
      }
      hasWorker := false;
      ClearMessage();
    }

    /** `AddMessage`: enqueue at the tail and release one permit. */
    method AddMessage(msg: Option<string>)
      requires Valid()
      modifies this
      ensures Valid()
      ensures queue == old(queue) + [msg] && permits == old(permits) + 1
      ensures working == old(working) && hasWorker == old(hasWorker) && delivered == old(delivered)
    {
      queue := queue + [msg];
      permits := permits + 1;
    }

    /** `HasMessage`: whether the queue holds anything. */
    method HasMessage() returns (ret: bool)
      ensures ret <==> |queue| > 0
    {
      ret := queue != [];
    }

    /** `_msgSemaphore.WaitOne`: take a permit when there is one. */
    method WaitOne() returns (acquired: bool)
      modifies this
      ensures acquired <==> old(permits) > 0
      ensures permits == if acquired then old(permits) - 1 else old(permits)
      ensures queue == old(queue) && working == old(working) && hasWorker == old(hasWorker)
      ensures delivered == old(delivered)
    {
      acquired := permits > 0;
      if acquired {
        permits := permits - 1;
      }
    }

    /** `PickMessage`: remove and return the head, or return null and change nothing when empty. */
    method PickMessage() returns (msg: Option<string>)
      modifies this
      ensures old(queue) == [] ==> msg == None && queue == old(queue)
      ensures old(queue) != [] ==> msg == old(queue)[0] && queue == old(queue)[1..]
      ensures permits == old(permits) && working == old(working) && hasWorker == old(hasWorker)
      ensures delivered == old(delivered)
    {
      msg := None;
      if |queue| > 0 {
        msg := queue[0];
        queue := queue[1..];
      }
    }

    /** `ClearMessage`: empty the queue, leaving the permits as they are. */
    method ClearMessage()
      modifies this
      ensures queue == []
      ensures permits == old(permits) && working == old(working) && hasWorker == old(hasWorker)
      ensures delivered == old(delivered)
    {
      queue := [];
    }

    /**
     * `DoWork`: while working or the queue is not empty, take a permit, pick the head and
     * raise `OnMessage` with it. The source polls the semaphore when no permit is there;
     * here the run ends at that point, and a later call resumes it.
     */
    method DoWork()
      requires Valid() && hasWorker
      modifies this
      ensures Valid() && queue == []
      ensures delivered == old(delivered) + Drained(old(queue), old(permits), old(working))
      ensures permits == PermitsAfterDrain(old(queue), old(permits), old(working))
      ensures working == old(working) && hasWorker == old(hasWorker)
    {
      ghost var q0, p0, d0 := queue, permits, delivered;
      ghost var n: nat := 0;
      var more := HasMessage();
      while working || more
        invariant working == old(working) && hasWorker == old(hasWorker)
        invariant more <==> |queue| > 0
        invariant n <= p0 && permits == p0 - n
        invariant queue == QueueAfter(q0, n) && delivered == d0 + PickedAfter(q0, n)
        invariant !working ==> n <= |q0|
        decreases permits
      {
        var acquired := WaitOne();
        if !acquired {
          break;
        }
        PickStep(q0, n);
        var msg := PickMessage();
        assert d0 + PickedAfter(q0, n) + [msg] == d0 + (PickedAfter(q0, n) + [msg]);
        delivered := delivered + [msg];
        n := n + 1;
        more := HasMessage();
      }
      QueueAfterEmpty(q0, n);
      assert n == if working then p0 else |q0|;
      DrainedIsPicks(q0, p0, working);
    }
  }

  // ---------------------------------------------------------------- properties

  /**
   * Messages added after `Start` are all raised by the time `Stop` returns, in the order
   * they were added, each once: the worker exits only once the flag is clear and the queue
   * is empty.
   */
  method StopDeliversEverything(msgs: seq<Option<string>>) returns (got: seq<Option<string>>)
    ensures got == msgs
  {
    var h := new MessageHelper();
    h.Start();
    var i := 0;
    while i < |msgs|
      invariant 0 <= i <= |msgs|
      invariant h.Valid() && h.working && h.hasWorker
      invariant h.queue == msgs[..i] && h.delivered == []
    {
      h.AddMessage(msgs[i]);
      assert msgs[..i + 1] == msgs[..i] + [msgs[i]];
      i := i + 1;
    }
    h.Stop();
    assert msgs[..|msgs|] == msgs;
    got := h.delivered;
  }

  /**
   * Without a running worker, `Stop` discards what was queued: nothing is raised and the
   * queue is empty afterwards, but the permits stay.
   */
  method StopWithoutWorkerDiscards(msgs: seq<Option<string>>) returns (got: seq<Option<string>>, left: seq<Option<string>>, permits: nat)
    ensures got == [] && left == [] && permits == |msgs|
  {
    var h := new MessageHelper();
    var i := 0;
    while i < |msgs|
      invariant 0 <= i <= |msgs|
      invariant h.Valid() && !h.working && !h.hasWorker
      invariant |h.queue| == i && h.permits == i && h.delivered == []
    {
      h.AddMessage(msgs[i]);
      i := i + 1;
    }
    h.Stop();
    got, left, permits := h.delivered, h.queue, h.permits;
  }

  /**
   * A permit whose message was cleared away is still there for the next worker, which then
   * raises `OnMessage` with null.
   */
  method ClearedPermitDeliversNull(msg: string) returns (got: seq<Option<string>>)
    ensures got == [None]
  {
    var h := new MessageHelper();
    h.AddMessage(Some(msg));
    h.Stop();
    h.Start();
    h.DoWork();
    assert Nulls(1) == [None];
    got := h.delivered;
  }
}
