/**
 The linked FIFO queues of src/task_queue/queue.c. Removing the last node leaves tail pointing at a freed
 node; the queue still behaves as a sequence because head is tested first.
 */
module LinkedQueue {
  import opened Entries

  class Node<T> {
    var item: T
    var next: Node?<T>

    constructor (item: T)
      ensures this.item == item && next == null
    {
      this.item := item;
      next := null;
    }
  }

  class Queue<T> {
    var head: Node?<T>
    var tail: Node?<T>
    ghost var nodes: seq<Node<T>>
    ghost var contents: seq<T>
    ghost var freed: set<Node<T>>

    /**
     head starts the chain of the linked nodes. tail is the last of them, or, when there are none, null or
     a node that has been freed.
     */
    ghost predicate Valid()
      reads this, nodes
    {
      && |contents| == |nodes|
      && (forall i :: 0 <= i < |nodes| ==> nodes[i].item == contents[i] && nodes[i] !in freed)
      && (forall i, j :: 0 <= i < j < |nodes| ==> nodes[i] != nodes[j])
      && (forall i {:trigger nodes[i].next} :: 0 <= i < |nodes| - 1 ==> nodes[i].next == nodes[i + 1])
      && (if nodes == [] then head == null && (tail == null || tail in freed)
          else head == nodes[0] && tail == nodes[|nodes| - 1] && nodes[|nodes| - 1].next == null)
    }

    constructor ()
      ensures Valid() && contents == [] && freed == {}
    {
      head, tail := null, null;
      nodes, contents, freed := [], [], {};
    }

    /** Append, never through a freed node. */
    method Enqueue(item: T)
      requires Valid()
      modifies this, nodes
      ensures Valid() && contents == old(contents) + [item]
      ensures freed == old(freed)
      ensures |nodes| == |old(nodes)| + 1 && nodes[..|old(nodes)|] == old(nodes) && fresh(nodes[|old(nodes)|])
    {
      var node := new Node(item);
      if head == null {
        head := node;
        tail := node;
      } else {
        assert tail == nodes[|nodes| - 1] && tail !in freed;
        tail.next := node;
        tail := node;
      }
      nodes := nodes + [node];
      contents := contents + [item];
    }

    /** Remove and free the first node; None (-1 or NULL in C) exactly on an empty queue. */
    method Dequeue() returns (item: Option<T>)
      requires Valid()
      modifies this
      ensures Valid()
      ensures old(contents) == [] ==> item == None && contents == [] && freed == old(freed)
      ensures old(contents) != [] ==> item == Some(old(contents)[0]) && contents == old(contents)[1..]
      ensures old(contents) != [] ==> nodes == old(nodes)[1..] && freed == old(freed) + {old(nodes)[0]}
      ensures tail == old(tail)
    {
      if head == null {
        return None;
      }
      var first := head;
      item := Some(first.item);
      head := first.next;
      freed := freed + {first};
      nodes := nodes[1..];
      contents := contents[1..];
    }
  }

  // ---------- the client queue of src/server.c ----------

  /** The accepting thread passes on what accept answered, -1 for an error; a worker asks for the next socket. */
  datatype ClientEvent = Accepted(socket: int) | Asked

  /** The queue after one event: an error is never enqueued. */
  function AfterClient(s: seq<int>, e: ClientEvent): seq<int> {
    match e
    case Accepted(socket) => if socket == -1 then s else s + [socket]
    case Asked => if s == [] then s else s[1..]
  }

  /** What dequeue answers, -1 for an empty queue. */
  function AnswerTo(s: seq<int>): int {
    if s == [] then -1 else s[0]
  }

  function RunClients(s: seq<int>, run: seq<ClientEvent>): seq<int>
    decreases |run|
  {
    if run == [] then s else RunClients(AfterClient(s, run[0]), run[1..])
  }

  /** The socket an event brings, if it is one. */
  function Arrival(e: ClientEvent): seq<int> {
    if e.Accepted? && e.socket != -1 then [e.socket] else []
  }

  /** The socket an event hands to a worker, if it is one. */
  function Answer(s: seq<int>, e: ClientEvent): seq<int> {
    if e.Asked? && AnswerTo(s) != -1 then [AnswerTo(s)] else []
  }

  function Arrivals(run: seq<ClientEvent>): seq<int> {
    if run == [] then [] else Arrival(run[0]) + Arrivals(run[1..])
  }

  function Served(s: seq<int>, run: seq<ClientEvent>): seq<int>
    decreases |run|
  {
    if run == [] then [] else Answer(s, run[0]) + Served(AfterClient(s, run[0]), run[1..])
  }

  lemma OneClientEvent(s: seq<int>, e: ClientEvent)
    requires -1 !in s
    ensures -1 !in AfterClient(s, e)
    ensures s + Arrival(e) == Answer(s, e) + AfterClient(s, e)
  {}

  /**
   Any interleaving of accepts and dequeues: -1 is never in the queue, so it is answered exactly when the
   queue is empty, and the sockets served are the sockets that arrived, in order, up to those still queued.
   */
  lemma {:induction false} ClientsInOrder(s: seq<int>, run: seq<ClientEvent>)
    requires -1 !in s
    ensures -1 !in RunClients(s, run)
    ensures AnswerTo(RunClients(s, run)) == -1 <==> RunClients(s, run) == []
    ensures s + Arrivals(run) == Served(s, run) + RunClients(s, run)
    decreases |run|
  {
    if run == [] {
      assert s + [] == s && [] + s == s;
    } else {
      hide Arrival, Answer, AfterClient;
      var e, rest := run[0], run[1..];
      var t := AfterClient(s, e);
      OneClientEvent(s, e);
      ClientsInOrder(t, rest);
      calc {
        s + Arrivals(run);
        s + (Arrival(e) + Arrivals(rest));
        (s + Arrival(e)) + Arrivals(rest);
        (Answer(s, e) + t) + Arrivals(rest);
        Answer(s, e) + (t + Arrivals(rest));
        Answer(s, e) + (Served(t, rest) + RunClients(t, rest));
        (Answer(s, e) + Served(t, rest)) + RunClients(t, rest);
      }
    }
  }

  class ClientQueue {
    const queue: Queue<int>

    ghost predicate Valid()
      reads this, queue, queue.nodes
    {
      queue.Valid() && -1 !in queue.contents
    }

    constructor ()
      ensures Valid() && fresh(queue) && queue.contents == []
    {
      queue := new Queue<int>();
    }

    /** One round of the accept loop: skip an error, enqueue anything else. */
    method HandleAccepted(socket: int)
      requires Valid()
      modifies queue, queue.nodes
      ensures Valid() && queue.contents == AfterClient(old(queue.contents), Accepted(socket))
    {
      if socket == -1 {
        return;
      }
      queue.Enqueue(socket);
    }

    /** One dequeue by a worker. */
    method DequeueSocket() returns (socket: int)
      requires Valid()
      modifies queue
      ensures Valid() && queue.contents == AfterClient(old(queue.contents), Asked)
      ensures socket == AnswerTo(old(queue.contents)) && (socket == -1 <==> old(queue.contents) == [])
    {
      var item := queue.Dequeue();
      match item
      case None => socket := -1;
      case Some(x) => socket := x;
    }
  }

  // ---------- a queue emptied and filled again ----------

  /**
   Draining a queue of any length frees all its nodes and leaves tail on one; the next Enqueue starts a proper
   chain.
   */
  method DrainThenEnqueue<T>(q: Queue<T>, item: T)
    requires q.Valid() && q.contents != []
    modifies q, q.nodes
    ensures q.Valid() && q.contents == [item]
    ensures old(q.freed) <= q.freed && forall i :: 0 <= i < |old(q.nodes)| ==> old(q.nodes)[i] in q.freed
  {
    ghost var before := q.nodes;
    while q.head != null
      invariant q.Valid() && |q.nodes| <= |before| && q.nodes == before[|before| - |q.nodes|..]
      invariant old(q.freed) <= q.freed && forall i :: 0 <= i < |before| - |q.nodes| ==> before[i] in q.freed
      invariant q.tail == old(q.tail)
      decreases |q.nodes|
    {
      assert q.nodes[0] == before[|before| - |q.nodes|];
      var _ := q.Dequeue();
    }
    assert q.tail in q.freed;
    q.Enqueue(item);
  }
}
