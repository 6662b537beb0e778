/** The linked queue under the streams: a list of nodes whose first node holds no item. */
module Fifo {
  import opened Options

  class Node<T> {
    var item: Option<T>
    var next: Node?<T>

    constructor (item: Option<T>)
      ensures this.item == item && next == null
    {
      this.item := item;
      next := null;
    }
  }

  /** The nodes are different and follow each other up to a last one. */
  ghost predicate Linked<T>(nodes: seq<Node<T>>)
    reads nodes
  {
    && (forall i, j :: 0 <= i < j < |nodes| ==> nodes[i] != nodes[j])
    && (forall i :: 0 < i < |nodes| ==> nodes[i - 1].next == nodes[i])
    && (nodes != [] ==> nodes[|nodes| - 1].next == null)
  }

  /** Linked nodes that all hold an item: what a queue consists of behind its head. */
  ghost predicate Chain<T>(nodes: seq<Node<T>>)
    reads nodes
  {
    Linked(nodes) && forall i :: 0 <= i < |nodes| ==> nodes[i].item.Some?
  }

  ghost function Items<T>(nodes: seq<Node<T>>): (s: seq<T>)
    requires Chain(nodes)
    reads nodes
    ensures |s| == |nodes|
  {
    seq(|nodes|, i requires 0 <= i < |nodes| && Chain(nodes) reads nodes => nodes[i].item.value)
  }

  class Queue<T> {
    var head: Node<T>
    var tail: Node<T>
    ghost var nodes: seq<Node<T>>

    ghost predicate Valid()
      reads this, nodes
    {
      && |nodes| > 0 && nodes[0] == head && nodes[|nodes| - 1] == tail
      && Linked(nodes) && head.item == None && forall i :: 0 < i < |nodes| ==> nodes[i].item.Some?
    }

    ghost function Contents(): (s: seq<T>)
      requires Valid()
      reads this, nodes
      ensures |s| == |nodes| - 1
    {
      seq(|nodes| - 1, i requires 0 <= i < |nodes| - 1 && Valid() reads this, nodes => nodes[i + 1].item.value)
    }

    /** The node behind the head, if any. */
    lemma HeadNext()
      requires Valid()
      ensures (if |nodes| == 1 then tail == head && head.next == null else head.next == nodes[1] && nodes[1].item.Some? && tail != head)
    {
    }

    constructor ()
      ensures Valid() && fresh(nodes) && Contents() == []
    {
      var first := new Node<T>(None);
      head, tail, nodes := first, first, [first];
    }

    method Put(item: T)
      requires Valid()
      modifies this`tail, this`nodes, tail`next
      ensures Valid() && fresh(nodes[|nodes| - 1]) && nodes[..|nodes| - 1] == old(nodes)
      ensures Contents() == old(Contents()) + [item]
    {
      var node := new Node<T>(Some(item));
      tail.next := node;
      tail := node;
      nodes := nodes + [node];
    }

    method Get() returns (item: Option<T>)
      requires Valid()
      modifies this`head, this`nodes, nodes
      ensures Valid() && old(Contents()) == (if item.Some? then [item.value] else []) + Contents()
      ensures item == None ==> Contents() == []
      ensures forall n :: n in nodes ==> n in old(nodes)
    {
      HeadNext();
      item := None;
      if head.next != null {
        var first := head.next;
        item := first.item;
        first.item := None;
        head := first;
        nodes := nodes[1..];
      }
    }

    /** Put an item and get one: the first of all, which is the new one if there was none. */
    method PutGet(item: T) returns (out: T)
      requires Valid()
      modifies this`head, this`tail, this`nodes, nodes
      ensures Valid() && [out] + Contents() == old(Contents()) + [item]
      ensures forall n :: n in nodes <==> n in old(nodes)
    {
      HeadNext();
      out := item;
      var node := head;
      if node.next != null {
        node.item := Some(item);
        head := node.next;
        out := head.item.value;
        head.item := None;
        node.next := null;
        tail.next := node;
        tail := node;
        nodes := nodes[1..] + [node];
      }
    }

    method PeekFirst() returns (item: Option<T>)
      requires Valid()
      ensures item == (if Contents() == [] then None else Some(Contents()[0]))
    {
      HeadNext();
      item := None;
      if head.next != null { item := head.next.item; }
    }

    method PeekLast() returns (item: Option<T>)
      requires Valid()
      ensures item == (if Contents() == [] then None else Some(Contents()[|Contents()| - 1]))
    {
      item := tail.item;
    }

    method NonEmpty() returns (some: bool)
      requires Valid()
      ensures some <==> Contents() != []
    {
      HeadNext();
      some := head.next != null && head.next.item != None;
    }

    /** Detach everything behind the head. */
    method GetTail() returns (node: Node?<T>, last: Node?<T>, ghost chain: seq<Node<T>>)
      requires Valid()
      modifies this`tail, this`nodes, head`next
      ensures Valid() && Contents() == [] && Chain(chain) && Items(chain) == old(Contents())
      ensures [head] + chain == old(nodes) && Ends(chain, node, last) && head == old(head) && nodes == [head]
    {
      HeadNext();
      node := head.next;
      chain := nodes[1..];
      if tail == head {
        last := null;
      } else {
        head.next := null;
        last := tail;
        tail := head;
      }
      nodes := [head];
    }

    /** Attach the detached part of another queue behind the tail. */
    method PutTail(node: Node?<T>, last: Node?<T>, ghost chain: seq<Node<T>>)
      requires Valid() && Chain(chain) && Ends(chain, node, last)
      requires forall n :: n in chain ==> n !in nodes
      modifies this`tail, this`nodes, tail`next
      ensures Valid() && nodes == old(nodes) + chain && Contents() == old(Contents()) + old(Items(chain))
    {
      ghost var before := nodes;
      forall i | 0 <= i < |chain| ensures chain[i] !in nodes && chain[i] != tail { assert chain[i] in chain && nodes[|nodes| - 1] in nodes; }
      if node != null {
        tail.next := node;
        tail := last;
        nodes := nodes + chain;
        forall i | 0 < i < |nodes| ensures nodes[i - 1].next == nodes[i] && nodes[i].item.Some? {
          if i > |before| {
            assert nodes[i - 1] == chain[i - 1 - |before|] && nodes[i] == chain[i - |before|];
          } else if i < |before| {
            assert before[i - 1] != before[|before| - 1];
          }
        }
        forall i, j | 0 <= i < j < |nodes| ensures nodes[i] != nodes[j] {
          if i < |before| <= j { assert nodes[i] in before; }
        }
        assert nodes[|nodes| - 1] == chain[|chain| - 1];
      } else {
        assert nodes + chain == nodes;
      }
    }
  }

  /** The first and the last node of a detached part. */
  ghost predicate Ends<T>(chain: seq<Node<T>>, node: Node?<T>, last: Node?<T>) {
    if chain == [] then node == null && last == null
    else node == chain[0] && last == chain[|chain| - 1]
  }

  /** Count the nodes of a detached part. */
  method Count<T>(start: Node?<T>, last: Node?<T>, ghost chain: seq<Node<T>>) returns (count: nat)
    requires Chain(chain) && Ends(chain, start, last)
    ensures count == |chain|
  {
    var node := start;
    count := 0;
    while node != null
      invariant count <= |chain| && node == if count < |chain| then chain[count] else null
      decreases |chain| - count
    {
      assert count + 1 < |chain| ==> chain[count + 1 - 1].next == chain[count + 1];
      node := node.next;
      count := count + 1;
    }
  }

  /** What dissolving a landing does to its two queues: the rest of the incoming one goes
      behind everything in the outgoing one, nothing stays, and the moved items are counted. */
  method Merge<T>(into: Queue<T>, from: Queue<T>) returns (count: nat)
    requires into.Valid() && from.Valid() && into != from
    requires forall n :: n in from.nodes ==> n !in into.nodes
    modifies into`tail, into`nodes, from`tail, from`nodes, into.tail`next, from.head`next
    ensures into.Valid() && from.Valid() && count == |old(from.Contents())|
    ensures into.Contents() == old(into.Contents()) + old(from.Contents()) && from.Contents() == []
  {
    assert from.nodes[0] in from.nodes;
    forall i | 0 <= i < |into.nodes| ensures into.nodes[i] != from.head { assert into.nodes[i] in into.nodes; }
    assert into.nodes[|into.nodes| - 1] == into.tail;
    var node, last, chain := from.GetTail();
    count := Count(node, last, chain);
    into.PutTail(node, last, chain);
  }
}
