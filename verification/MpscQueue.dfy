/** The intrusive multi-producer single-consumer queue of src/container/mpsc.c.
    One action is one atomic operation. Producer 0 is the consumer itself, which pushes only the sentinel. */
module MpscQueue {
  import Runs

  type Node = nat
  const NULL: Node := 0
  const SENTINEL: Node := 1

  /** One tail exchange: the node it put in, and the producer that owes the link from its predecessor. */
  datatype Claim = Claim(node: Node, owner: nat)

  /** Where a producer stands inside `mpsc_push`; `at` is the position of its claim in the history. */
  datatype Push = NotPushing | NextCleared(node: Node) | Claimed(node: Node, prev: Node, at: nat)

  /** Where the consumer stands inside `mpsc_pop`, or between the two loads of `mpsc_can_pop`. */
  datatype Pop =
    | NotPopping | Spinning
    | HeadLoaded(head: Node) | SentinelAlone | SkipTo(next: Node) | PastSentinel(head: Node)
    | OnlyNode(head: Node) | Reinsert(head: Node) | Reinserting(head: Node) | Recheck(head: Node)
    | Detach(head: Node, next: Node)
    | Peeking(head: Node)

  datatype Result = NoResult | Empty | Popped(node: Node) | CanPop(answer: bool)

  /** `log` is the history of tail exchanges, the first `gone` of which have left the chain, and `popped` the history
      of returned nodes. */
  datatype Queue = Queue(
    next: map<Node, Node>, head: Node, tail: Node,
    pushes: seq<Push>, pop: Pop, result: Result,
    log: seq<Claim>, gone: nat, popped: seq<Node>)

  datatype Action =
    | ClearNext(p: nat, node: Node) | ExchangeTail(p: nat) | StoreLink(p: nat)
    | LoadHead | LoadNext | LoadTail | StoreHead | EndReinsert | PeekHead | PeekNext

  function NextOf(q: Queue, x: Node): Node { if x in q.next then q.next[x] else NULL }

  /** The message nodes of a stretch of history, in order. */
  function Messages(log: seq<Claim>): seq<Node> {
    if log == [] then []
    else
      var c := log[|log| - 1];
      Messages(log[..|log| - 1]) + if c.node == SENTINEL then [] else [c.node]
  }

  predicate InChain(q: Queue, x: Node)
    requires q.gone <= |q.log|
  {
    exists i :: q.gone <= i < |q.log| && q.log[i].node == x
  }

  /** No producer is in the middle of pushing `x`. */
  predicate Free(q: Queue, x: Node) {
    forall p :: 0 <= p < |q.pushes| ==> q.pushes[p] != NextCleared(x)
  }

  predicate Init(q: Queue) {
    && q.next == map[] && q.head == SENTINEL && q.tail == SENTINEL
    && |q.pushes| > 0 && (forall p :: 0 <= p < |q.pushes| ==> q.pushes[p] == NotPushing)
    && q.pop == NotPopping && q.result == NoResult
    && q.log == [Claim(SENTINEL, 0)] && q.gone == 0 && q.popped == []
  }

  predicate PushStep(q: Queue, a: Action, q': Queue)
    requires q.gone <= |q.log|
  {
    match a
    case ClearNext(p, x) =>
      && p < |q.pushes| && q.pushes[p] == NotPushing && x != NULL
      // a producer owns the node it pushes: it is in no queue and no other push; the sentinel is pushed unasked
      && (p != 0 ==> !InChain(q, x) && Free(q, x))
      && (x == SENTINEL <==> p == 0) && (p == 0 ==> q.pop.Reinsert?)
      && q' == q.(next := q.next[x := NULL], pushes := q.pushes[p := NextCleared(x)],
                  pop := if p == 0 then Reinserting(q.pop.head) else q.pop)
    case ExchangeTail(p) =>
      && p < |q.pushes| && q.pushes[p].NextCleared?
      && var x := q.pushes[p].node;
         q' == q.(tail := x, log := q.log + [Claim(x, p)], pushes := q.pushes[p := Claimed(x, q.tail, |q.log|)])
    case StoreLink(p) =>
      && p < |q.pushes| && q.pushes[p].Claimed?
      && q' == q.(next := q.next[q.pushes[p].prev := q.pushes[p].node], pushes := q.pushes[p := NotPushing])
    case _ => false
  }

  /** Storing `next` to the head cursor drops the first node of the chain. */
  function Advance(q: Queue, next: Node): Queue { q.(head := next, gone := q.gone + 1) }

  predicate PopStep(q: Queue, a: Action, q': Queue) {
    match a
    case LoadHead => (q.pop.NotPopping? || q.pop.Spinning?) && q' == q.(pop := HeadLoaded(q.head))
    case LoadNext =>
      (match q.pop
       case HeadLoaded(h) =>
         var n := NextOf(q, h);
         q' == q.(pop := if h == SENTINEL then (if n == NULL then SentinelAlone else SkipTo(n))
                         else if n == NULL then OnlyNode(h) else Detach(h, n))
       case PastSentinel(h) =>
         var n := NextOf(q, h);
         q' == q.(pop := if n == NULL then OnlyNode(h) else Detach(h, n))
       case Recheck(h) =>
         var n := NextOf(q, h);
         q' == q.(pop := if n == NULL then Spinning else Detach(h, n))
       case _ => false)
    case LoadTail =>
      (match q.pop
       case SentinelAlone =>
         var last := q.tail == SENTINEL;
         q' == q.(pop := if last then NotPopping else Spinning, result := if last then Empty else q.result)
       case OnlyNode(h) => q' == q.(pop := if q.tail == h then Reinsert(h) else Spinning)
       case _ => false)
    case StoreHead =>
      (match q.pop
       case SkipTo(n) => q' == Advance(q, n).(pop := PastSentinel(n))
       case Detach(h, n) => q' == Advance(q, n).(pop := NotPopping, result := Popped(h), popped := q.popped + [h])
       case _ => false)
    case EndReinsert =>
      && q.pop.Reinserting? && |q.pushes| > 0 && q.pushes[0] == NotPushing
      && q' == q.(pop := Recheck(q.pop.head))
    case PeekHead => q.pop.NotPopping? && q' == q.(pop := Peeking(q.head))
    case PeekNext =>
      && q.pop.Peeking?
      && q' == q.(pop := NotPopping, result := CanPop(!(q.pop.head == SENTINEL && NextOf(q, q.pop.head) == NULL)))
    case _ => false
  }

  predicate Next(q: Queue, a: Action, q': Queue) {
    q.gone <= |q.log| && (PushStep(q, a, q') || PopStep(q, a, q'))
  }

  // ---- the invariant ----------------------------------------------------------------------------------------------

  predicate ChainOk(q: Queue) {
    && q.gone < |q.log| && |q.pushes| > 0
    && q.head == q.log[q.gone].node && q.tail == q.log[|q.log| - 1].node
    && (forall i :: q.gone <= i < |q.log| ==> q.log[i].node != NULL && q.log[i].owner < |q.pushes|)
    && (forall i, j :: q.gone <= i < j < |q.log| ==> q.log[i].node != q.log[j].node)
  }

  /** Each node of the chain points to its successor, unless the producer that claimed the successor still owes it. */
  predicate LinkOk(q: Queue, i: nat)
    requires i < |q.log|
  {
    var n := NextOf(q, q.log[i].node);
    if i + 1 == |q.log| then n == NULL
    else
      || n == q.log[i + 1].node
      || (n == NULL && q.log[i + 1].owner < |q.pushes|
          && q.pushes[q.log[i + 1].owner] == Claimed(q.log[i + 1].node, q.log[i].node, i + 1))
  }

  /** A node being prepared is nowhere else; a claimed one follows its predecessor, which is still in the chain. */
  predicate PushOk(q: Queue, p: nat)
    requires ChainOk(q) && p < |q.pushes|
  {
    match q.pushes[p]
    case NotPushing => true
    case NextCleared(x) =>
      && x != NULL && (x == SENTINEL <==> p == 0) && NextOf(q, x) == NULL
      && (forall i :: q.gone <= i < |q.log| ==> q.log[i].node != x)
      && (forall u :: 0 <= u < |q.pushes| && u != p ==> q.pushes[u] != NextCleared(x))
    case Claimed(x, prev, at) =>
      && (x == SENTINEL <==> p == 0)
      && q.gone < at < |q.log| && q.log[at] == Claim(x, p) && q.log[at - 1].node == prev && NextOf(q, prev) == NULL
  }

  predicate PopOk(q: Queue)
    requires ChainOk(q)
  {
    && (q.pushes[0] != NotPushing ==> q.pop.Reinserting?)
    && match q.pop
       case NotPopping => true
       case Spinning => true
       case SentinelAlone => q.head == SENTINEL
       case SkipTo(n) => q.head == SENTINEL && n != NULL && NextOf(q, SENTINEL) == n
       case Reinsert(h) => h == q.head && forall i :: q.gone <= i < |q.log| ==> q.log[i].node != SENTINEL
       case HeadLoaded(h) => h == q.head
       case Peeking(h) => h == q.head
       case Detach(h, n) => h == q.head && h != SENTINEL && n != NULL && NextOf(q, h) == n
       case pc => pc.head == q.head && pc.head != SENTINEL
  }

  predicate ListOk(q: Queue) {
    && ChainOk(q)
    && (forall i :: q.gone <= i < |q.log| ==> LinkOk(q, i))
    && (forall p :: 0 <= p < |q.pushes| ==> PushOk(q, p))
    && q.popped == Messages(q.log[..q.gone])
  }

  predicate Inv(q: Queue) { ListOk(q) && PopOk(q) }

  lemma ClearKeeps(q: Queue, p: nat, x: Node, q': Queue)
    requires Inv(q) && PushStep(q, ClearNext(p, x), q')
    ensures ListOk(q')
  {
    NotInUse(q, p, x);
    forall i | q.gone <= i < |q.log| ensures LinkOk(q', i) {
      assert LinkOk(q, i);
    }
    forall u | 0 <= u < |q.pushes| ensures PushOk(q', u) {
      ClearPush(q, p, x, q', u);
    }
  }

  lemma ClearPush(q: Queue, p: nat, x: Node, q': Queue, u: nat)
    requires ListOk(q) && PushStep(q, ClearNext(p, x), q') && u < |q.pushes| && !InChain(q, x) && Free(q, x)
    ensures ChainOk(q') && PushOk(q', u)
  {
    assert PushOk(q, u);
  }

  /** What a push begins with is neither in the chain nor being pushed: a producer sees to it, and the sentinel has left
      the chain whenever the consumer decides to put it back. */
  lemma NotInUse(q: Queue, p: nat, x: Node)
    requires Inv(q) && p < |q.pushes| && q.pushes[p] == NotPushing && (x == SENTINEL <==> p == 0)
    requires if p == 0 then q.pop.Reinsert? else !InChain(q, x) && Free(q, x)
    ensures !InChain(q, x) && Free(q, x)
  {
    if p == 0 {
      forall u | 0 <= u < |q.pushes| ensures q.pushes[u] != NextCleared(x) { assert PushOk(q, u); }
    }
  }

  lemma ExchangeLinks(q: Queue, p: nat, q': Queue, i: nat)
    requires ListOk(q) && PushStep(q, ExchangeTail(p), q') && q.gone <= i < |q'.log|
    ensures LinkOk(q', i)
  {
    assert PushOk(q, p);
    if i < |q.log| {
      assert LinkOk(q, i);
      assert q'.log[i] == q.log[i] && NextOf(q', q.log[i].node) == NextOf(q, q.log[i].node);
    }
  }

  lemma ExchangeKeeps(q: Queue, p: nat, q': Queue)
    requires ListOk(q) && PushStep(q, ExchangeTail(p), q')
    ensures ListOk(q')
  {
    assert PushOk(q, p) && LinkOk(q, |q.log| - 1);
    assert q'.log[..q.gone] == q.log[..q.gone];
    forall i | q.gone <= i < |q'.log| ensures LinkOk(q', i) {
      ExchangeLinks(q, p, q', i);
    }
    forall u | 0 <= u < |q.pushes| ensures PushOk(q', u) {
      assert PushOk(q, u);
    }
  }

  lemma LinkKeeps(q: Queue, p: nat, q': Queue)
    requires ListOk(q) && PushStep(q, StoreLink(p), q')
    ensures ListOk(q')
  {
    assert PushOk(q, p);
    assert LinkOk(q, q.pushes[p].at - 1);
    forall i | q.gone <= i < |q.log| ensures LinkOk(q', i) {
      assert LinkOk(q, i);
    }
    forall u | 0 <= u < |q.pushes| ensures PushOk(q', u) {
      assert PushOk(q, u);
    }
  }

  /** A producer's step leaves what the consumer has seen true. */
  lemma PushKeepsPop(q: Queue, a: Action, q': Queue)
    requires Inv(q) && PushStep(q, a, q') && ChainOk(q')
    ensures PopOk(q')
  {
    assert PushOk(q, a.p);
    assert LinkOk(q, q.gone);
    assert a.StoreLink? ==> LinkOk(q, q.pushes[a.p].at - 1);
  }

  lemma AdvancePush(q: Queue, q': Queue, u: nat)
    requires Inv(q) && PopStep(q, StoreHead, q') && u < |q.pushes|
    ensures ChainOk(q') && PushOk(q', u)
  {
    assert LinkOk(q, q.gone);
    assert PushOk(q, u);
  }

  lemma AdvanceKeeps(q: Queue, q': Queue)
    requires Inv(q) && PopStep(q, StoreHead, q')
    ensures Inv(q')
  {
    assert LinkOk(q, q.gone);
    assert q.log[..q.gone + 1][..q.gone] == q.log[..q.gone];
    forall u | 0 <= u < |q.pushes| ensures PushOk(q', u) {
      AdvancePush(q, q', u);
    }
    forall i | q'.gone <= i < |q.log| ensures LinkOk(q', i) {
      assert LinkOk(q, i);
    }
  }

  lemma SameList(q: Queue, q': Queue)
    requires ListOk(q) && q' == q.(pop := q'.pop, result := q'.result)
    ensures ListOk(q')
  {
    forall u | 0 <= u < |q.pushes| ensures PushOk(q', u) {
      assert PushOk(q, u);
    }
    forall i | q'.gone <= i < |q.log| ensures LinkOk(q', i) {
      assert LinkOk(q, i);
    }
  }

  lemma LoadsKeep(q: Queue, a: Action, q': Queue)
    requires Inv(q) && PopStep(q, a, q') && !a.StoreHead?
    ensures Inv(q')
  {
    SameList(q, q');
  }

  lemma NextKeeps(q: Queue, a: Action, q': Queue)
    requires Inv(q) && Next(q, a, q')
    ensures Inv(q')
  {
    match a
    case ClearNext(p, x) => ClearKeeps(q, p, x, q'); PushKeepsPop(q, a, q');
    case ExchangeTail(p) => ExchangeKeeps(q, p, q'); PushKeepsPop(q, a, q');
    case StoreLink(p) => LinkKeeps(q, p, q'); PushKeepsPop(q, a, q');
    case StoreHead => AdvanceKeeps(q, q');
    case _ => LoadsKeep(q, a, q');
  }

  // ---- what it means ----------------------------------------------------------------------------------------------

  lemma InvOverRuns(states: seq<Queue>, acts: seq<Action>, k: nat)
    requires Runs.IsRun(Init, Next, states, acts) && k < |states|
    ensures Inv(states[k])
  {
    forall q, a, q' | Inv(q) && Next(q, a, q') ensures Inv(q') { NextKeeps(q, a, q'); }
    Runs.Invariance(Init, Next, Inv, states, acts, k);
  }

  /** The nodes claimed by a tail exchange and not yet returned. */
  function Waiting(q: Queue): seq<Node>
    requires q.gone <= |q.log|
  {
    Messages(q.log[q.gone..])
  }

  lemma {:induction false} MessagesSplit(log: seq<Claim>, k: nat)
    requires k <= |log|
    ensures Messages(log) == Messages(log[..k]) + Messages(log[k..])
  {
    if k == |log| {
      assert log[..k] == log && log[k..] == [];
    } else {
      MessagesSplit(log[..|log| - 1], k);
      assert log[..|log| - 1][..k] == log[..k];
      assert log[..|log| - 1][k..] == log[k..][..|log| - k - 1];
    }
  }

  lemma {:induction false} MessagesFrom(log: seq<Claim>, x: Node)
    ensures x in Messages(log) <==> x != SENTINEL && exists i :: 0 <= i < |log| && log[i].node == x
  {
    if log != [] {
      var rest := log[..|log| - 1];
      MessagesFrom(rest, x);
      assert forall i :: 0 <= i < |rest| ==> rest[i] == log[i];
      assert log[|log| - 1].node == x ==> exists i :: 0 <= i < |log| && log[i].node == x;
    }
  }

  /** Every node is delivered exactly once and in the order of the tail exchanges, and the sentinel never is: what was
      returned followed by what still waits is what was claimed. Nothing waits twice, and the link a claim still owes
      goes into a node that has not been returned. */
  lemma DeliveryOverRuns(states: seq<Queue>, acts: seq<Action>, k: nat)
    requires Runs.IsRun(Init, Next, states, acts) && k < |states|
    ensures var q := states[k];
            && q.gone <= |q.log|
            && q.popped + Waiting(q) == Messages(q.log)
            && SENTINEL !in Messages(q.log)
            && (forall i, j :: q.gone <= i < j < |q.log| ==> q.log[i].node != q.log[j].node)
            && (forall p :: 0 <= p < |q.pushes| && q.pushes[p].Claimed? ==> InChain(q, q.pushes[p].prev))
  {
    InvOverRuns(states, acts, k);
    var q := states[k];
    MessagesSplit(q.log, q.gone);
    MessagesFrom(q.log, SENTINEL);
    forall p | 0 <= p < |q.pushes| && q.pushes[p].Claimed? ensures InChain(q, q.pushes[p].prev) {
      assert PushOk(q, p);
      assert q.log[q.pushes[p].at - 1].node == q.pushes[p].prev;
    }
  }

  /** The first waiting node has been claimed but its producer has not stored the link to it yet. */
  predicate FirstUnlinked(q: Queue) {
    && q.gone < |q.log| && q.head == SENTINEL && q.gone + 1 < |q.log| && q.log[q.gone + 1].owner < |q.pushes|
    && q.pushes[q.log[q.gone + 1].owner] == Claimed(q.log[q.gone + 1].node, SENTINEL, q.gone + 1)
  }

  lemma WaitingFirst(q: Queue)
    requires Inv(q)
    ensures |q.log| == q.gone + 1 && q.head == SENTINEL ==> Waiting(q) == []
    ensures q.head != SENTINEL ==> Waiting(q) != [] && Waiting(q)[0] == q.head
    ensures q.head == SENTINEL && q.gone + 1 < |q.log| ==> Waiting(q) != [] && Waiting(q)[0] == q.log[q.gone + 1].node
  {
    var rest := q.log[q.gone..];
    MessagesSplit(rest, 1);
    assert rest[..1] == [q.log[q.gone]] && rest[..1][..0] == [];
    if q.gone + 1 < |q.log| {
      MessagesSplit(rest[1..], 1);
      assert rest[1..][..1] == [q.log[q.gone + 1]] && rest[1..][..1][..0] == [];
    }
  }

  /** The answers of `mpsc_pop` and `mpsc_can_pop`, at the instant they are decided. A returned node is the oldest
      waiting one; NULL is returned only when nothing claimed is waiting; `can_pop` says yes only when something is,
      and no only when nothing is or the oldest claim is still unlinked. */
  predicate Answers(q: Queue, a: Action, q': Queue) {
    && q.gone <= |q.log| && q'.gone <= |q'.log|
    && match a
       case ExchangeTail(p) =>
         && p < |q.pushes| && q.pushes[p].NextCleared?
         && Waiting(q') == Waiting(q) + if q.pushes[p].node == SENTINEL then [] else [q.pushes[p].node]
       case StoreHead =>
         if q.pop.Detach? then q'.result == Popped(q.pop.head) && Waiting(q) == [q.pop.head] + Waiting(q')
         else q'.result == q.result && Waiting(q) == Waiting(q')
       case LoadTail =>
         && Waiting(q') == Waiting(q)
         && (q.pop.SentinelAlone? && q'.pop.NotPopping? ==> q'.result == Empty && Waiting(q) == [])
       case PeekNext =>
         && Waiting(q') == Waiting(q) && q'.result.CanPop?
         && if q'.result.answer then Waiting(q) != [] else Waiting(q) == [] || FirstUnlinked(q)
       case _ => Waiting(q') == Waiting(q) && q'.result == q.result
  }

  lemma StoreHeadAnswers(q: Queue, q': Queue)
    requires Inv(q) && PopStep(q, StoreHead, q')
    ensures Answers(q, StoreHead, q')
  {
    var rest := q.log[q.gone..];
    MessagesSplit(rest, 1);
    assert rest[..1] == [q.log[q.gone]] && rest[..1][..0] == [] && rest[1..] == q'.log[q'.gone..];
  }

  lemma ExchangeAnswers(q: Queue, p: nat, q': Queue)
    requires Inv(q) && PushStep(q, ExchangeTail(p), q')
    ensures Answers(q, ExchangeTail(p), q')
  {
    assert q'.log[q.gone..][..|q.log| - q.gone] == q.log[q.gone..];
  }

  lemma LoadAnswers(q: Queue, a: Action, q': Queue)
    requires Inv(q) && (PopStep(q, a, q') || PushStep(q, a, q')) && !a.StoreHead? && !a.ExchangeTail?
    ensures Answers(q, a, q')
  {
    WaitingFirst(q);
    assert LinkOk(q, q.gone);
  }

  lemma AnswersOverRuns(states: seq<Queue>, acts: seq<Action>, k: nat)
    requires Runs.IsRun(Init, Next, states, acts) && k < |acts|
    ensures Answers(states[k], acts[k], states[k + 1])
  {
    forall q, a, q' | Inv(q) && Next(q, a, q') ensures Inv(q') && Answers(q, a, q') {
      NextKeeps(q, a, q');
      match a
      case StoreHead => StoreHeadAnswers(q, q');
      case ExchangeTail(p) => ExchangeAnswers(q, p, q');
      case _ => LoadAnswers(q, a, q');
    }
    Runs.StepInvariance(Init, Next, Inv, Answers, states, acts, k);
  }
}
