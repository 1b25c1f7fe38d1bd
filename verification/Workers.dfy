/**
 The loops of src/server.c over a linked queue: the locked sections of the accepting thread and of the
 worker threads, each proved to be one action of WorkerPool.
 */
module Workers {
  import opened Entries
  import opened LinkedQueue
  import opened WorkerPool

  class ThreadPool<T> {
    const queue: Queue<T>
    var workers: seq<Worker<T>>
    ghost var accepted: seq<T>
    ghost var taken: seq<T>
    ghost var handled: multiset<T>

    ghost predicate Valid()
      reads this, queue, queue.nodes
    {
      queue.Valid()
    }

    ghost function Value(): Pool<T>
      reads this, queue
    {
      Pool(queue.contents, workers, accepted, taken, handled)
    }

    constructor (size: nat)
      ensures Valid() && fresh(queue) && Value() == Start(size)
    {
      queue := new Queue<T>();
      workers := seq(size, _ => Idle);
      accepted, taken, handled := [], [], multiset{};
    }

    /** enqueue and pthread_cond_signal under the mutex; wake is the sleeper the signal reaches. */
    method Accept(item: T, wake: nat)
      requires Valid() && Enabled(Value(), Arrive(item, wake))
      modifies this, queue, queue.nodes
      ensures Valid() && Value() == Act(old(Value()), Arrive(item, wake))
    {
      queue.Enqueue(item);
      accepted := accepted + [item];
      if wake < |workers| && workers[wake].Asleep? {
        workers := workers[wake := Woken];
      }
    }

    /** One test of a worker's loop: take an item and leave the mutex, or go to sleep on the condition. */
    method TryDequeue(w: nat) returns (item: Option<T>)
      requires Valid() && Enabled(Value(), Dequeue(w))
      modifies this, queue
      ensures Valid() && Value() == Act(old(Value()), Dequeue(w))
      ensures item == if old(queue.contents) == [] then None else Some(old(queue.contents)[0])
    {
      item := queue.Dequeue();
      match item
      case None => workers := workers[w := Asleep];
      case Some(x) =>
        workers := workers[w := Handling(x)];
        taken := taken + [x];
    }

    /** handle_client, or the switch over a task's message type, has returned. */
    method Done(w: nat)
      requires Valid() && Enabled(Value(), Finish(w))
      modifies this
      ensures Valid() && Value() == Act(old(Value()), Finish(w))
    {
      handled := handled + multiset{workers[w].item};
      workers := workers[w := Idle];
    }
  }
}
