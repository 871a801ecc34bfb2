/** The global run queue of src/runtime/runq.c: an intrusive singly linked list under one mutex. */
module RunQueue {
  import SchedulerModel

  class Node {
    var next: Node?
  }

  function At(nodes: seq<Node>, i: int): Node? { if 0 <= i < |nodes| then nodes[i] else null }

  predicate LinkedAt(nodes: seq<Node>, i: int)
    requires 0 <= i < |nodes|
    reads nodes
  {
    nodes[i].next == At(nodes, i + 1)
  }

  /** Each node points to its successor and the last to nothing. */
  predicate Chained(nodes: seq<Node>)
    reads nodes
  {
    forall i :: 0 <= i < |nodes| ==> LinkedAt(nodes, i)
  }

  predicate Distinct(nodes: seq<Node>) { forall i, j :: 0 <= i < j < |nodes| ==> nodes[i] != nodes[j] }

  /** One consumer's share of the queue, rounded up and capped. */
  method Share(queued: nat, room: int, consumers: int) returns (n: nat)
    requires room > 0 && consumers > 0
    ensures n == SchedulerModel.FairShare(queued, room, consumers)
  {
    n := queued / consumers;
    if n < queued { n := n + 1; }
    if n > room { n := room; }
  }

  class Queue {
    var head: Node?
    var tail: Node?
    var count: nat
    ghost var contents: seq<Node>

    ghost predicate Valid()
      reads this, contents
    {
      && count == |contents| && Distinct(contents) && Chained(contents)
      && head == At(contents, 0) && tail == At(contents, |contents| - 1)
    }

    constructor ()
      ensures Valid() && contents == []
    {
      head, tail, count, contents := null, null, 0, [];
    }

    /** `_runq_append` of a chain. */
    method Append(first: Node, last: Node, n: nat, ghost batch: seq<Node>)
      requires Valid() && |batch| == n > 0 && first == batch[0] && last == batch[n - 1] && Distinct(batch)
      requires Chained(batch)
      requires forall x :: x in batch ==> x !in contents
      modifies this, contents
      ensures Valid() && contents == old(contents) + batch
    {
      if tail != null {
        tail.next := first;
      } else {
        head := first;
      }
      tail := last;
      count := count + n;
      ghost var was := contents;
      contents := was + batch;
      forall i | 0 <= i < |contents| ensures LinkedAt(contents, i) {
        if i < |was| {
          assert old(LinkedAt(contents, i)) && contents[i] == was[i];
        } else {
          assert old(LinkedAt(batch, i - |was|)) && contents[i] == batch[i - |was|] && contents[i] in batch
              && contents[i] !in was;
        }
      }
      forall i, j | 0 <= i < j < |contents| ensures contents[i] != contents[j] {
        if i < |was| <= j { assert contents[j] == batch[j - |was|] && contents[j] in batch; }
      }
    }

    /** Chaining the nodes of a batch. */
    static method Link(nodes: seq<Node>)
      requires nodes != [] && Distinct(nodes)
      modifies nodes
      ensures Chained(nodes)
    {
      for i := 1 to |nodes|
        invariant forall j :: 0 <= j < i - 1 ==> LinkedAt(nodes, j)
      {
        nodes[i - 1].next := nodes[i];
        assert LinkedAt(nodes, i - 1);
      }
      nodes[|nodes| - 1].next := null;
      assert LinkedAt(nodes, |nodes| - 1);
    }

    /** `runq_push_batch` */
    method PushBatch(nodes: seq<Node>)
      requires Valid() && Distinct(nodes) && forall x :: x in nodes ==> x !in contents
      modifies this, contents, nodes
      ensures Valid() && contents == old(contents) + nodes
    {
      if nodes == [] { return; }
      assert allocated(contents);
      Link(nodes);
      forall i | 0 <= i < |contents| ensures LinkedAt(contents, i) {
        assert contents[i] in contents && contents[i] !in nodes && old(LinkedAt(contents, i));
      }
      Append(nodes[0], nodes[|nodes| - 1], |nodes|, nodes);
    }

    /** `_runq_detach`: the first n nodes, still chained to each other. */
    method Detach(n: nat) returns (first: Node)
      requires Valid() && 0 < n <= count
      modifies this, contents
      ensures Valid() && contents == old(contents)[n..] && first == old(contents)[0] && Chained(old(contents)[..n])
    {
      ghost var was := contents;
      first := head;
      var last := first;
      for i := 1 to n
        invariant contents == was && Valid() && last == contents[i - 1]
      {
        assert LinkedAt(contents, i - 1);
        last := last.next;
      }
      assert LinkedAt(was, n - 1);
      head := last.next;
      if head == null { tail := null; }
      count := count - n;
      last.next := null;
      contents := was[n..];
      forall i | 0 <= i < |contents| ensures LinkedAt(contents, i) { assert old(LinkedAt(contents, i + n)); }
      forall i | 0 <= i < n ensures LinkedAt(was[..n], i) { assert old(LinkedAt(contents, i)); }
    }

    /** `runq_pop` */
    method Pop() returns (node: Node?)
      requires Valid()
      modifies this, contents
      ensures Valid() && node == (if old(contents) == [] then null else old(contents)[0])
      ensures contents == if old(contents) == [] then [] else old(contents)[1..]
    {
      node := null;
      if head != null { node := Detach(1); }
    }

    /** `runq_pop_fair`: the oldest nodes, one consumer's share of the queue but no more than fit, unlinked. */
    method PopFair(room: int, consumers: int) returns (nodes: seq<Node>)
      requires Valid()
      modifies this, contents
      ensures Valid() && nodes <= old(contents) && old(contents) == nodes + contents
      ensures |nodes| == if room <= 0 || consumers <= 0 then 0
                         else SchedulerModel.FairShare(old(count), room, consumers)
      ensures forall x :: x in nodes ==> x.next == null
    {
      nodes := [];
      if room <= 0 || consumers <= 0 { return; }
      var n := Share(count, room, consumers);
      if n == 0 { return; }
      ghost var batch := contents[..n];
      var node: Node? := Detach(n);
      nodes := Collect(node, n, batch);
    }

    /** Unlinking the nodes of a detached chain one by one. */
    method Collect(first: Node?, n: nat, ghost batch: seq<Node>) returns (nodes: seq<Node>)
      requires |batch| == n > 0 && Chained(batch) && Distinct(batch) && first == batch[0]
      modifies batch
      ensures nodes == batch && forall x :: x in nodes ==> x.next == null
    {
      nodes := [];
      var node := first;
      forall j | 0 <= j < n ensures batch[j].next == At(batch, j + 1) { assert LinkedAt(batch, j); }
      for i := 0 to n
        invariant nodes == batch[..i] && node == At(batch, i)
        invariant forall j :: 0 <= j < i ==> batch[j].next == null
        invariant forall j :: i <= j < n ==> batch[j].next == At(batch, j + 1)
      {
        var next := node.next;
        assert node == batch[i] && forall j :: 0 <= j < n && j != i ==> batch[j] != node;
        node.next := null;
        nodes := nodes + [node];
        node := next;
      }
    }
  }

  /** The share is fair: unless it is all there is room for, that many consumers taking it would empty the queue. */
  lemma SharesCover(queued: nat, room: int, consumers: nat)
    requires consumers > 0
    ensures var share := SchedulerModel.FairShare(queued, room, consumers); share >= room || share * consumers >= queued
  {
    var q := queued / consumers;
    SchedulerModel.QuotientAtMost(queued, consumers);
    assert queued == q * consumers + queued % consumers;
    assert (q + 1) * consumers == q * consumers + consumers;
  }
}
