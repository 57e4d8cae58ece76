/**
 * The agent's worker pool (`workerpool.Pool`): a buffered channel of
 * batches, sized by the worker count, that `Submit` offers to without
 * blocking and the workers drain in order. The goroutines are modelled by
 * their linearised receives: `Take` is one receive by some worker, and
 * `taken` lists the batches handed to `Send`, in the order they left the
 * queue.
 */
module WorkerPool {
  import opened StoreSpec

  type Batch = Snapshot

  class Pool {
    /** The channel's buffer, oldest first. */
    var jobs: seq<Batch>
    /** The buffer size given to `make`. */
    const capacity: nat
    /** Whether `Shutdown` has closed the channel. */
    var closed: bool
    /** The batches the workers have received so far. */
    var taken: seq<Batch>

    ghost predicate Valid()
      reads this
    {
      |jobs| <= capacity
    }

    /** `New(flags, workerCount)`: an open, empty queue of capacity `workerCount`. */
    constructor New(workerCount: nat)
      ensures Valid() && capacity == workerCount
      ensures jobs == [] && taken == [] && !closed
    {
      capacity := workerCount;
      jobs := [];
      taken := [];
      closed := false;
    }

    /**
     * `Submit`: a non-blocking send. It succeeds exactly when the buffer
     * has room, appending the batch at the tail; a full buffer is left as
     * it was. Sending on a closed channel panics, hence the precondition.
     */
    method Submit(batch: Batch) returns (accepted: bool)
      requires Valid() && !closed
      modifies this
      ensures Valid()
      ensures accepted <==> |old(jobs)| < capacity
      ensures jobs == if accepted then old(jobs) + [batch] else old(jobs)
      ensures closed == old(closed) && taken == old(taken)
    {
      if |jobs| < capacity {
        jobs := jobs + [batch];
        accepted := true;
      } else {
        accepted := false;
      }
    }

    /** One receive of a worker's `range` loop: the oldest batch leaves the queue and goes to `Send`. */
    method Take() returns (batch: Batch)
      requires Valid() && jobs != []
      modifies this
      ensures Valid()
      ensures batch == old(jobs)[0] && jobs == old(jobs)[1..]
      ensures taken == old(taken) + [batch] && closed == old(closed)
    {
      batch := jobs[0];
      jobs := jobs[1..];
      taken := taken + [batch];
    }

    /**
     * `Shutdown`: close the channel, then wait for the workers, whose
     * `range` loops end only once the buffer is empty. Every batch queued
     * at shutdown is therefore still sent, in queue order. Closing twice
     * panics, hence the precondition.
     */
    method Shutdown()
      requires Valid() && !closed
      modifies this
      ensures Valid() && closed && jobs == []
      ensures taken == old(taken) + old(jobs)
    {
      closed := true;
      while jobs != []
        invariant Valid() && closed
        invariant old(taken) + old(jobs) == taken + jobs
        decreases |jobs|
      {
        ghost var before := jobs;
        var batch := Take();
        assert before == [batch] + jobs;
      }
    }
  }
}
