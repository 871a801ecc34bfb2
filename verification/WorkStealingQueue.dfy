/** The lock-free FIFO ring of src/runtime/wsq.c: one pushing owner, any number of grabbers.
    One action is one atomic operation; the 64-bit cursors are unbounded. */
module WorkStealingQueue {
  import Runs

  /** A queued pointer; NULL is 0. */
  type Elem = nat
  const NULL: Elem := 0

  /** Where the owner stands inside `wsq_push`. */
  datatype Push =
    | NotPushing
    | TailLoaded(elem: Elem, at: nat)
    | RoomSeen(elem: Elem, at: nat)
    | SlotStored(elem: Elem, at: nat)

  /** Where a thread stands inside `_wsq_grab_half`; `wsq_pop` is the same loop with limit 1. */
  datatype Grab =
    | NotGrabbing
    | HeadLoaded(head: nat, limit: nat)
    | Reading(head: nat, limit: nat, count: nat, got: seq<Elem>)

  /** What the last finished call returned, kept so that results can be spoken about. */
  datatype Result = NoResult | PushOk | PushFull | GrabEmpty | Grabbed(elems: seq<Elem>)

  /** `pushed` and `taken` are histories: every element published by a tail store, and every
      element handed out by a successful head exchange, in order. */
  datatype Queue = Queue(
    cap: nat, head: nat, tail: nat, slots: seq<Elem>,
    push: Push, grabs: seq<Grab>,
    pushed: seq<Elem>, taken: seq<Elem>, result: Result)

  datatype Action =
    | LoadTail(elem: Elem) | LoadHeadForPush | StoreSlot | StoreTail
    | LoadHead(g: nat, limit: nat) | LoadTailForGrab(g: nat) | LoadSlot(g: nat) | ExchangeHead(g: nat, spurious: bool)

  predicate Init(q: Queue) {
    && q.cap > 0 && |q.slots| == q.cap
    && q.head == 0 && q.tail == 0 && q.pushed == [] && q.taken == []
    && q.push == NotPushing && (forall g :: 0 <= g < |q.grabs| ==> q.grabs[g] == NotGrabbing)
    && q.result == NoResult
  }

  /** Half of what is queued, rounded up, and no more than the caller has room for. */
  function Share(queued: nat, limit: nat): nat {
    var half := (queued + 1) / 2;
    if half > limit then limit else half
  }

  predicate PushStep(q: Queue, a: Action, q': Queue)
    requires |q.slots| == q.cap > 0
  {
    match a
    case LoadTail(e) =>
      // a NULL element is refused before anything is read
      q.push == NotPushing && e != NULL && q' == q.(push := TailLoaded(e, q.tail))
    case LoadHeadForPush =>
      && q.push.TailLoaded?
      && q' == (if q.push.at - q.head >= q.cap
                then q.(push := NotPushing, result := PushFull)
                else q.(push := RoomSeen(q.push.elem, q.push.at)))
    case StoreSlot =>
      && q.push.RoomSeen?
      && q' == q.(slots := q.slots[q.push.at % q.cap := q.push.elem], push := SlotStored(q.push.elem, q.push.at))
    case StoreTail =>
      && q.push.SlotStored?
      && q' == q.(tail := q.push.at + 1, pushed := q.pushed + [q.push.elem], push := NotPushing, result := PushOk)
    case _ => false
  }

  predicate GrabStep(q: Queue, a: Action, q': Queue)
    requires |q.slots| == q.cap > 0
  {
    match a
    case LoadHead(g, limit) =>
      && g < |q.grabs| && q.grabs[g] == NotGrabbing && limit > 0
      && q' == q.(grabs := q.grabs[g := HeadLoaded(q.head, limit)])
    case LoadTailForGrab(g) =>
      && g < |q.grabs| && q.grabs[g].HeadLoaded? && q.grabs[g].head <= q.tail
      && var queued := q.tail - q.grabs[g].head;
         q' == (if queued == 0
                then q.(grabs := q.grabs[g := NotGrabbing], result := GrabEmpty)
                else q.(grabs := q.grabs[g := Reading(q.grabs[g].head, q.grabs[g].limit,
                                                      Share(queued, q.grabs[g].limit), [])]))
    case LoadSlot(g) =>
      && g < |q.grabs| && q.grabs[g].Reading? && |q.grabs[g].got| < q.grabs[g].count
      && var r := q.grabs[g];
         q' == q.(grabs := q.grabs[g := r.(got := r.got + [q.slots[(r.head + |r.got|) % q.cap]])])
    case ExchangeHead(g, spurious) =>
      && g < |q.grabs| && q.grabs[g].Reading? && |q.grabs[g].got| == q.grabs[g].count
      && var r := q.grabs[g];
         q' == (if r.head == q.head && !spurious
                then q.(head := r.head + r.count, taken := q.taken + r.got,
                        grabs := q.grabs[g := NotGrabbing], result := Grabbed(r.got))
                else q.(grabs := q.grabs[g := HeadLoaded(q.head, r.limit)]))
    case _ => false
  }

  ghost predicate Next(q: Queue, a: Action, q': Queue) {
    |q.slots| == q.cap > 0 && (PushStep(q, a, q') || GrabStep(q, a, q'))
  }

  predicate CursorsOk(q: Queue) {
    && q.cap > 0 && |q.slots| == q.cap
    && q.head <= q.tail <= q.head + q.cap
    && |q.pushed| == q.tail && q.taken == q.pushed[..q.head]
    && (forall i :: 0 <= i < |q.pushed| ==> q.pushed[i] != NULL)
  }

  predicate PushOkHere(q: Queue) {
    && (!q.push.NotPushing? ==> q.push.at == q.tail && q.push.elem != NULL)
    && ((q.push.RoomSeen? || q.push.SlotStored?) ==> q.tail < q.head + q.cap)
  }

  /** The live window of the ring holds the published, untaken elements. */
  ghost predicate SlotsOk(q: Queue)
    requires CursorsOk(q)
  {
    && (forall i :: q.head <= i < q.tail ==> q.slots[i % q.cap] == q.pushed[i])
    && (q.push.SlotStored? && q.push.at == q.tail ==> q.slots[q.tail % q.cap] == q.push.elem)
  }

  /** A grabber whose loaded head is still current has read exactly the published elements. A stale one is
      promised nothing: its exchange will fail. */
  ghost predicate GrabOk(q: Queue, r: Grab)
    requires CursorsOk(q)
  {
    match r
    case NotGrabbing => true
    case HeadLoaded(h, limit) => h <= q.head && limit > 0
    case Reading(h, limit, count, got) =>
      && h <= q.head && 1 <= count <= limit && |got| <= count
      && (h == q.head ==> h + count <= q.tail && forall j :: 0 <= j < |got| ==> got[j] == q.pushed[h + j])
  }

  ghost predicate Inv(q: Queue) {
    && CursorsOk(q) && PushOkHere(q) && SlotsOk(q)
    && forall g :: 0 <= g < |q.grabs| ==> GrabOk(q, q.grabs[g])
  }

  lemma SmallMultiple(d: int, cap: int)
    requires 0 - cap < d * cap < cap
    ensures d == 0
  {
    assert d > 0 ==> (d - 1) * cap >= 0;
    assert d < 0 ==> (-d - 1) * cap >= 0;
  }

  lemma RemainderOf(x: nat, q: nat, r: nat, cap: nat)
    requires r < cap && x == q * cap + r
    ensures x % cap == r
  {
    var d := q - x / cap;
    assert x == x / cap * cap + x % cap;
    assert d * cap == x % cap - r;
    SmallMultiple(d, cap);
  }

  lemma DistinctSlots(i: nat, j: nat, cap: nat)
    requires i < j < i + cap
    ensures i % cap != j % cap
  {
    var a, r := i / cap, i % cap + (j - i);
    if r < cap {
      RemainderOf(j, a, r, cap);
    } else {
      RemainderOf(j, a + 1, r - cap, cap);
    }
  }

  lemma PushKeeps(q: Queue, a: Action, q': Queue)
    requires Inv(q) && PushStep(q, a, q')
    ensures Inv(q')
  {
    if a.StoreSlot? {
      StoreSlotKeeps(q, a, q');
    } else {
      forall g | 0 <= g < |q'.grabs| ensures GrabOk(q', q'.grabs[g]) {
        assert GrabOk(q, q.grabs[g]);
      }
    }
  }

  lemma StoreSlotKeeps(q: Queue, a: Action, q': Queue)
    requires Inv(q) && PushStep(q, a, q') && a.StoreSlot?
    ensures Inv(q')
  {
    forall i | q.head <= i < q.tail ensures q'.slots[i % q.cap] == q.pushed[i] {
      DistinctSlots(i, q.tail, q.cap);
    }
    forall g | 0 <= g < |q'.grabs| ensures GrabOk(q', q'.grabs[g]) {
      assert GrabOk(q, q.grabs[g]);
    }
  }

  lemma ExchangeKeeps(q: Queue, a: Action, q': Queue)
    requires Inv(q) && a.ExchangeHead? && GrabStep(q, a, q') && q'.head != q.head
    ensures Inv(q')
  {
    var r := q.grabs[a.g];
    assert GrabOk(q, r);
    assert r.got == q.pushed[r.head..r.head + r.count];
    assert q'.taken == q'.pushed[..q'.head];
    forall g | 0 <= g < |q'.grabs| ensures GrabOk(q', q'.grabs[g]) {
      assert GrabOk(q, q.grabs[g]);
    }
  }

  lemma GrabKeeps(q: Queue, a: Action, q': Queue)
    requires Inv(q) && GrabStep(q, a, q') && q'.head == q.head
    ensures Inv(q')
  {
    forall g | 0 <= g < |q'.grabs| ensures GrabOk(q', q'.grabs[g]) {
      assert GrabOk(q, q.grabs[g]);
    }
  }

  lemma NextKeeps(q: Queue, a: Action, q': Queue)
    requires Inv(q) && Next(q, a, q')
    ensures Inv(q')
  {
    if PushStep(q, a, q') { PushKeeps(q, a, q'); }
    else if q'.head == q.head { GrabKeeps(q, a, q'); }
    else { ExchangeKeeps(q, a, q'); }
  }

  /** Linearizability to a FIFO over every interleaving: what the successful head exchanges hand out, in order, is
      what the tail stores published, in order, and the ring never over- or underruns. */
  lemma FifoOverRuns(states: seq<Queue>, acts: seq<Action>, k: nat)
    requires Runs.IsRun(Init, Next, states, acts) && k < |states|
    ensures var q := states[k];
            q.head <= q.tail <= q.head + q.cap && q.tail == |q.pushed| && q.taken == q.pushed[..q.head]
  {
    InvOverRuns(states, acts, k);
  }

  lemma InvOverRuns(states: seq<Queue>, acts: seq<Action>, k: nat)
    requires Runs.IsRun(Init, Next, states, acts) && k < |states|
    ensures Inv(states[k])
  {
    forall q, a, q' | Inv(q) && Next(q, a, q') ensures Inv(q') { NextKeeps(q, a, q'); }
    Runs.Invariance(Init, Next, Inv, states, acts, k);
  }

  /** What each finished call means at the instant it takes effect: a grab returns the oldest unclaimed elements, an
      empty answer is given only by an empty ring, and a push is refused only by a full one. */
  lemma ResultsOverRuns(states: seq<Queue>, acts: seq<Action>, k: nat)
    requires Runs.IsRun(Init, Next, states, acts) && k < |acts|
    ensures var q, q' := states[k], states[k + 1];
            match acts[k]
            case LoadTailForGrab(g) => q'.grabs[g] == NotGrabbing ==> q.head == q.tail
            case LoadHeadForPush => q'.push == NotPushing ==> q.tail - q.head == q.cap
            case StoreTail => q'.pushed == q.pushed + [q.push.elem]
            case ExchangeHead(g, _) =>
              && q.head <= q'.head <= |q.pushed|
              && (q'.head > q.head ==>
                    q'.result == Grabbed(q.pushed[q.head..q'.head]) && NULL !in q'.result.elems)
            case _ => q'.pushed == q.pushed && q'.head == q.head
  {
    InvOverRuns(states, acts, k);
    var q, q', a := states[k], states[k + 1], acts[k];
    assert Next(q, a, q');
    match a
    case ExchangeHead(g, _) =>
      assert GrabOk(q, q.grabs[g]);
      if q'.head > q.head {
        assert q.grabs[g].got == q.pushed[q.head..q'.head];
      }
    case LoadTailForGrab(g) =>
      assert GrabOk(q, q.grabs[g]);
    case _ =>
  }

  /** `wsq_remaining`, from a head and a tail loaded at different moments. */
  function Remaining(cap: nat, head: nat, tail: nat): int {
    if tail - head < cap then cap - (tail - head) else 0
  }

  lemma {:induction false} CursorsGrow(states: seq<Queue>, acts: seq<Action>, i: nat, k: nat)
    requires Runs.IsRun(Init, Next, states, acts) && i <= k < |states|
    ensures states[i].head <= states[k].head && states[i].tail <= states[k].tail && states[i].cap == states[k].cap
  {
    if i < k {
      CursorsGrow(states, acts, i, k - 1);
      InvOverRuns(states, acts, k - 1);
      assert Next(states[k - 1], acts[k - 1], states[k - 1 + 1]);
      StepGrows(states[k - 1], acts[k - 1], states[k]);
    }
  }

  lemma StepGrows(q: Queue, a: Action, q': Queue)
    requires Inv(q) && Next(q, a, q')
    ensures q.head <= q'.head && q.tail <= q'.tail && q.cap == q'.cap
  {
  }

  /** However the grabbers interleave with its two loads, `wsq_remaining` never promises too much: until that many
      further elements have been published, a push finds room. */
  lemma RemainingSuffices(states: seq<Queue>, acts: seq<Action>, i: nat, j: nat, k: nat)
    requires Runs.IsRun(Init, Next, states, acts) && i <= j <= k < |acts| && acts[k].LoadHeadForPush?
    requires states[k].tail - states[j].tail < Remaining(states[i].cap, states[i].head, states[j].tail)
    ensures states[k + 1].push == RoomSeen(states[k].push.elem, states[k].tail)
  {
    CursorsGrow(states, acts, i, j);
    CursorsGrow(states, acts, j, k);
    InvOverRuns(states, acts, k);
    assert Next(states[k], acts[k], states[k + 1]);
  }
}
