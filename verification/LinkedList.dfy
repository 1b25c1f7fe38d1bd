/**
 The two singly linked lists of the server, on the heap: the room list of src/game/game.c and the online
 list of src/user/user.c. Every method is proved to act on the chain as the operation of module Entries acts
 on the sequence of entries, keeping all other nodes linked in their order.
 */
module LinkedList {
  import opened Entries

  class Node<V> {
    var id: int
    var info: V
    var next: Node?<V>

    constructor (id: int, info: V, next: Node?<V>)
      ensures this.id == id && this.info == info && this.next == next
    {
      this.id, this.info, this.next := id, info, next;
    }
  }

  class List<V> {
    var head: Node?<V>
    ghost var nodes: seq<Node<V>>
    ghost var contents: seq<Entry<V>>

    /** The nodes form one acyclic chain from head, and hold the contents in order. */
    ghost predicate Valid()
      reads this, nodes
    {
      && |contents| == |nodes|
      && (forall i :: 0 <= i < |nodes| ==> contents[i] == Entry(nodes[i].id, nodes[i].info))
      && (forall i, j :: 0 <= i < j < |nodes| ==> nodes[i] != nodes[j])
      && (forall i {:trigger nodes[i].next} :: 0 <= i < |nodes| - 1 ==> nodes[i].next == nodes[i + 1])
      && (if nodes == [] then head == null else head == nodes[0] && nodes[|nodes| - 1].next == null)
    }

    constructor ()
      ensures Valid() && contents == [] && nodes == []
    {
      head := null;
      nodes, contents := [], [];
    }

    /** add_online_user: push at the head. */
    method AddFirst(id: int, info: V)
      requires Valid()
      modifies this
      ensures Valid() && contents == [Entry(id, info)] + old(contents)
      ensures |nodes| > 0 && fresh(nodes[0]) && nodes[1..] == old(nodes)
    {
      var node := new Node(id, info, head);
      head := node;
      nodes := [node] + nodes;
      contents := [Entry(id, info)] + contents;
    }

    /** add_room: walk to the last node and append. */
    method AddLast(id: int, info: V)
      requires Valid()
      modifies this, nodes
      ensures Valid() && contents == old(contents) + [Entry(id, info)]
      ensures |nodes| == |old(nodes)| + 1 && nodes[..|old(nodes)|] == old(nodes) && fresh(nodes[|old(nodes)|])
    {
      var node := new Node(id, info, null);
      if head == null {
        head := node;
      } else {
        var current := head;
        ghost var i := 0;
        while current.next != null
          invariant 0 <= i < |nodes| && current == nodes[i]
          decreases |nodes| - i
        {
          current := current.next;
          i := i + 1;
        }
        assert i == |nodes| - 1;
        current.next := node;
      }
      nodes := nodes + [node];
      contents := contents + [Entry(id, info)];
    }

    /** get_room_by_id and every lookup by user id: the first node with this id, or null. */
    method Lookup(id: int) returns (node: Node?<V>)
      requires Valid()
      ensures node == null <==> !Has(contents, id)
      ensures node != null ==> |nodes| == |contents| && node == nodes[IndexOf(contents, id)]
      ensures node != null ==> node.id == id && node.info == Get(contents, id)
    {
      node := head;
      ghost var i := 0;
      while node != null
        invariant 0 <= i <= |nodes|
        invariant if i < |nodes| then node == nodes[i] else node == null
        invariant forall j :: 0 <= j < i ==> contents[j].id != id
        decreases |nodes| - i
      {
        if node.id == id {
          IndexIs(contents, id, i);
          return;
        }
        node := node.next;
        i := i + 1;
      }
      IndexIs(contents, id, i);
    }

    /** Overwrite the fields of a node that Lookup found. */
    method Overwrite(node: Node<V>, info: V)
      requires Valid() && Has(contents, node.id) && node == nodes[IndexOf(contents, node.id)]
      modifies this`contents, node`info
      ensures Valid() && contents == Write(old(contents), node.id, info) && nodes == old(nodes)
    {
      node.info := info;
      contents := contents[IndexOf(contents, node.id) := Entry(node.id, info)];
    }

    /** remove_room: test the head, then walk testing current->next. */
    method RemoveAfter(id: int)
      requires Valid()
      modifies this, nodes
      ensures Valid() && contents == Unlink(old(contents), id)
      ensures nodes == Without(old(nodes), IndexOf(old(contents), id))
    {
      var current := head;
      if current == null {
        return;
      }
      if current.id == id {
        IndexIs(contents, id, 0);
        CutHead();
        return;
      }
      ghost var i := 0;
      while current.next != null
        invariant 0 <= i < |nodes| && current == nodes[i]
        invariant forall j :: 0 <= j <= i ==> contents[j].id != id
        decreases |nodes| - i
      {
        if current.next.id == id {
          IndexIs(contents, id, i + 1);
          CutOut(current, i + 1);
          return;
        }
        current := current.next;
        i := i + 1;
      }
      IndexIs(contents, id, |contents|);
    }

    /** remove_online_user: walk with the previous node at hand. */
    method RemoveBehind(id: int)
      requires Valid()
      modifies this, nodes
      ensures Valid() && contents == Unlink(old(contents), id)
      ensures nodes == Without(old(nodes), IndexOf(old(contents), id))
    {
      var current, previous: Node?<V> := head, null;
      ghost var i := 0;
      while current != null
        invariant 0 <= i <= |nodes|
        invariant if i < |nodes| then current == nodes[i] else current == null
        invariant if i == 0 then previous == null else previous == nodes[i - 1]
        invariant forall j :: 0 <= j < i ==> contents[j].id != id
        invariant Valid() && nodes == old(nodes) && contents == old(contents)
        decreases |nodes| - i
      {
        if current.id == id {
          assert contents[i].id == id;
          IndexIs(contents, id, i);
          if previous == null {
            CutHead();
          } else {
            CutOut(previous, i);
          }
          return;
        }
        previous := current;
        current := current.next;
        i := i + 1;
      }
      IndexIs(contents, id, i);
    }

    // head = head->next.
    method CutHead()
      requires Valid() && nodes != []
      modifies this
      ensures Valid()
      ensures contents == old(contents)[1..] && nodes == Without(old(nodes), 0)
    {
      head := head.next;
      nodes, contents := nodes[1..], contents[1..];
    }

    // previous->next = previous->next->next, for the node at position i.
    method CutOut(previous: Node<V>, ghost i: nat)
      requires Valid() && 0 < i < |nodes| && previous == nodes[i - 1]
      modifies this, previous
      ensures Valid()
      ensures contents == old(contents[..i] + contents[i + 1..]) && nodes == Without(old(nodes), i)
    {
      previous.next := previous.next.next;
      nodes := Without(nodes, i);
      contents := contents[..i] + contents[i + 1..];
    }
  }

  function Without<T>(s: seq<T>, i: nat): (r: seq<T>)
    ensures forall j :: 0 <= j < |r| ==> r[j] in s
  {
    if i < |s| then s[..i] + s[i + 1..] else s
  }
}
