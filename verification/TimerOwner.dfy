/** The timer calls as they run under the owner's timer_lock, on the linked heap. Each takes one step of TimerModel,
    whose map of queued deadlines is what the heap holds. */
module TimerOwner {
  import opened Prelude
  import opened TimerModel
  import opened LinkedHeap

  /** The queued timers and their deadlines. */
  function Queue(timers: seq<Timer>): map<nat, nat> {
    map i | 0 <= i < |timers| && timers[i].state.Queued? :: timers[i].timeout
  }

  class Owner {
    const nodes: seq<Node>
    const heap: Heap
    var timers: seq<Timer>
    var hint: nat
    var fires: seq<nat>
    var midway: bool

    /** The heap holds the nodes of exactly the queued timers, under their current deadlines. */
    ghost predicate Valid()
      reads this, heap, heap.nodes, nodes
    {
      && heap.Valid() && |nodes| == |timers| && Distinct(nodes)
      && (forall n :: n in heap.nodes ==> n in nodes)
      && (forall i :: 0 <= i < |timers| ==> (nodes[i] in heap.nodes <==> timers[i].state.Queued?))
      && (forall i :: 0 <= i < |timers| && timers[i].state.Queued? ==> nodes[i].key == timers[i].timeout)
    }

    ghost function View(): Wheel
      reads this
    {
      Wheel(timers, Queue(timers), hint, fires, midway)
    }

    constructor (nodes: seq<Node>)
      requires Distinct(nodes)
      ensures Valid() && Init(View()) && this.nodes == nodes && fresh(heap)
    {
      this.nodes := nodes;
      heap := new Heap();
      timers := seq(|nodes|, _ => Timer(Idle, false, false, 0, 0, Ledger(0, 0, 0, 0, 0, 0, 0, false), []));
      hint, fires, midway := NEVER, [], false;
    }

    /** `_sched_timer_publish_next_deadline` */
    method Publish()
      requires Valid()
      modifies this`hint
      ensures Valid() && Earliest(Queue(timers), hint)
    {
      var root := heap.Peek();
      if root == null {
        hint := NEVER;
        assert Queue(timers) == map[] by {
          forall i | 0 <= i < |timers| ensures !timers[i].state.Queued? { assert nodes[i] !in heap.nodes; }
        }
      } else {
        var i := Entry(root);
        hint := timers[i].timeout;
        forall j | j in Queue(timers) ensures hint <= Queue(timers)[j] { assert nodes[j] in heap.nodes; }
        assert i in Queue(timers) && Queue(timers)[i] == hint;
      }
    }

    /** `heap_entry`: the timer a node belongs to. */
    method Entry(node: Node) returns (i: nat)
      requires Valid() && node in heap.nodes
      ensures i < |timers| && nodes[i] == node && timers[i].state.Queued? && node.key == timers[i].timeout
    {
      i :| 0 <= i < |nodes| && nodes[i] == node;
    }

    /** Timer `i`, which has left the heap if it was in it, becomes `t` and enters the heap if that is queued. */
    method Enqueue(i: nat, t: Timer)
      requires Valid() && i < |timers| && !timers[i].state.Queued?
      modifies this`timers, heap, heap.nodes`left, heap.nodes`right, heap.nodes`parent, nodes[i]
      ensures Valid() && timers == old(timers)[i := t]
      ensures heap.nodes <= old(heap.nodes) + {nodes[i]}
    {
      if t.state.Queued? {
        nodes[i].key := t.timeout;
        heap.Insert(nodes[i]);
      }
      timers := timers[i := t];
    }

    /** A queued timer leaves the heap. */
    method Dequeue(i: nat, t: Timer)
      requires Valid() && i < |timers| && timers[i].state.Queued? && !t.state.Queued?
      modifies this`timers, heap, heap.nodes`left, heap.nodes`right, heap.nodes`parent
      ensures Valid() && timers == old(timers)[i := t] && heap.nodes == old(heap.nodes) - {nodes[i]}
    {
      heap.Remove(nodes[i]);
      timers := timers[i := t];
    }

    /** The common part of start and reset: out of the heap if queued, and in again under the new deadline unless the
        timer is firing. */
    method Rearm(i: nat, t: Timer)
      requires Valid() && i < |timers| && t.state == (if timers[i].state.Firing? then Firing else Queued)
      modifies this`timers, this`hint, heap, heap.nodes`left, heap.nodes`right, heap.nodes`parent, nodes[i]
      ensures Valid() && timers == old(timers)[i := t] && Queue(timers) == old(Reheap(View(), i, t))
      ensures Earliest(Queue(timers), hint)
    {
      ghost var was := timers;
      if timers[i].state.Queued? { Dequeue(i, timers[i].(state := Idle)); }
      Enqueue(i, t);
      QueueUpdate(was, i, t);
      Publish();
    }

    method Start(i: nat, timeout: nat, repeat: nat, now: nat) returns (armed: bool)
      requires Valid() && i < |timers|
      modifies this`timers, this`hint, heap, heap.nodes`left, heap.nodes`right, heap.nodes`parent, nodes[i]
      ensures Valid() && Next(old(View()), Action.Start(i, timeout, repeat, now), View())
      ensures armed <==> !old(timers[i].state).Firing?
    {
      armed := !timers[i].state.Firing?;
      Rearm(i, Started(timers[i], timeout, repeat, now));
    }

    method Reset(i: nat, timeout: nat, now: nat) returns (cancelled: bool)
      requires Valid() && i < |timers|
      modifies this`timers, this`hint, heap, heap.nodes`left, heap.nodes`right, heap.nodes`parent, nodes[i]
      ensures Valid() && Next(old(View()), Action.Reset(i, timeout, now), View())
      ensures (cancelled <==> old(Outstanding(timers[i]))) && Outstanding(timers[i])
    {
      cancelled := Outstanding(timers[i]);
      Rearm(i, WasReset(timers[i], timeout, now));
    }

    method Stop(i: nat) returns (cancelled: bool)
      requires Valid() && i < |timers|
      modifies this`timers, this`hint, heap, heap.nodes`left, heap.nodes`right, heap.nodes`parent
      ensures Valid() && Next(old(View()), Action.Stop(i), View())
      ensures (cancelled <==> old(Outstanding(timers[i]))) && !Outstanding(timers[i])
    {
      cancelled := Outstanding(timers[i]);
      QueueUpdate(timers, i, Stopped(timers[i]));
      if timers[i].state.Queued? {
        Dequeue(i, Stopped(timers[i]));
      } else {
        timers := timers[i := Stopped(timers[i])];
      }
      Publish();
    }

    /** One turn of the due loop: the earliest timer if it is due, and none only if no queued timer is. */
    method PopDue(now: nat) returns (fire: Option<nat>)
      requires Valid()
      modifies this`timers, this`fires, this`midway, heap, heap.nodes`left, heap.nodes`right, heap.nodes`parent
      ensures Valid()
      ensures fire.Some? ==> Next(old(View()), Action.PopDue(fire.value, now), View())
      ensures fire.None? ==> View() == old(View()) && forall i :: 0 <= i < |timers| && timers[i].state.Queued? ==>
                timers[i].timeout > now
    {
      fire := None;
      var root := heap.Peek();
      forall j | j in Queue(timers)
        ensures root != null && root.key <= Queue(timers)[j]
      {
        assert nodes[j] in heap.nodes;
      }
      if root == null { return; }
      var i := Entry(root);
      if timers[i].timeout <= now {
        QueueUpdate(timers, i, Popped(timers[i]));
        Dequeue(i, Popped(timers[i]));
        fires, midway, fire := fires + [i], true, Some(i);
      } else {
        assert forall j :: 0 <= j < |timers| && timers[j].state.Queued? ==> j in Queue(timers);
      }
    }

    /** The end of a fire: `_sched_timer_complete`, which tolerates finding the timer in any state. */
    method Complete(i: nat, now: nat) returns (armed: bool)
      requires Valid() && i < |timers| && i in fires && !timers[i].ledger.running
      modifies this`timers, this`hint, this`fires, heap, heap.nodes`left, heap.nodes`right, heap.nodes`parent, nodes[i]
      ensures Valid() && Next(old(View()), Action.Complete(i, now), View())
      ensures armed <==> old(timers[i].state).Firing? && timers[i].state.Queued?
    {
      armed := false;
      fires := DropFire(fires, i);
      if timers[i].state.Firing? {
        var t := Finished(timers[i], now);
        QueueUpdate(timers, i, t);
        armed := t.state.Queued?;
        Enqueue(i, t);
        Publish();
      }
    }
  }

  lemma QueueUpdate(timers: seq<Timer>, i: nat, t: Timer)
    requires i < |timers|
    ensures Queue(timers[i := t]) == if t.state.Queued? then Queue(timers)[i := t.timeout] else Remove(Queue(timers), i)
    ensures !timers[i].state.Queued? ==> Remove(Queue(timers), i) == Queue(timers)
    ensures Remove(Queue(timers), i)[i := t.timeout] == Queue(timers)[i := t.timeout]
  {
  }
}
