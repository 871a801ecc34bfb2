/** Every thread's allocation and release callbacks at once (src/runtime/scheduler.c): one action is one operation on
    one tier, under that tier's own lock or on the thread's own pool, or one decommit. In between, slots are in the
    thread's buffers, in nobody else's sight. What the platform decides is open: which regions exist, which decommits
    fail, how many list entries can be allocated. What an operation does to its tier is what SlotTiers proves of the
    source's code: Took, PutSome and Allotted are its contracts. */
module SlotProtocol {
  import opened Prelude
  import opened SlotTiers
  import Runs

  const BATCH: nat := 32

  /** What the thread does once its buffer is empty: hand out the slot it keeps, return, or put the slot it keeps. */
  datatype Task = Creating | Releasing | Spilling

  datatype Pc =
    | Idle
    | TakingLocal | TakingShared | TakingArena
    | PuttingLocal | SpillingLocal | PuttingAgain
    | StowingLocal | StowingShared | StowingArena | Decommitting | Appending
    | Finishing

  /** A thread, with a pool of its own if it is a worker: the slot it is about, the buffer still to be stowed, the batch
      still to be decommitted, and the addresses decommitted and not yet back in the arena. */
  datatype Thread = Thread(
    worker: bool, pool: seq<Slot>, pc: Pc, task: Task,
    kept: Option<Slot>, rest: seq<Slot>, batch: seq<nat>, back: seq<nat>)

  /** `committed` are the addresses with memory behind them. */
  datatype Store = Store(
    capacity: nat, carved: set<nat>, free: multiset<nat>, shared: seq<Slot>, lost: multiset<nat>, live: multiset<nat>,
    committed: set<nat>, threads: seq<Thread>, aborted: bool)

  datatype Action =
    | Create(t: nat) | Release(t: nat, ptr: nat, state: State) | Commit(ptr: nat)
    | TakeLocal(t: nat) | TakeShared(t: nat, out: seq<Slot>) | TakeArena(t: nat, taken: seq<nat>)
    | PutLocal(t: nat) | SpillLocal(t: nat, left: seq<Slot>, out: seq<Slot>)
    | StowLocal(t: nat, n: nat) | StowShared(t: nat, entries: nat, n: nat)
    | NextBatch(t: nat) | Decommit(t: nat, ok: bool) | Append(t: nat) | Finish(t: nat)

  predicate Init(s: Store) {
    && s.capacity > 0 && 0 !in s.carved && s.free == multiset(s.carved) && s.shared == []
    && s.lost == multiset{} && s.live == multiset{} && s.committed == {} && !s.aborted
    && forall t :: 0 <= t < |s.threads| ==>
         var th := s.threads[t];
         th == Thread(th.worker, [], Idle, th.task, None, [], [], [])
  }

  function Put(s: Store, t: nat, th: Thread): Store
    requires t < |s.threads|
  {
    s.(threads := s.threads[t := th])
  }

  predicate At(s: Store, t: nat, pc: Pc) { t < |s.threads| && s.threads[t].pc == pc }

  /** Slots came out of the shared pool or the arena: the first is kept, the others are stowed. */
  function Got(th: Thread, taken: seq<Slot>): Thread
    requires taken != []
  {
    th.(kept := Some(taken[0]), rest := taken[1..],
        pc := if |taken| == 1 then Finishing else if th.worker then StowingLocal else StowingShared)
  }

  // ---- _sched_coro_alloc_cb ---------------------------------------------------------------------------------------

  predicate DoCreate(s: Store, t: nat, s': Store) {
    && At(s, t, Idle)
    && s' == Put(s, t, s.threads[t].(pc := if s.threads[t].worker then TakingLocal else TakingShared, task := Creating))
  }

  predicate DoTakeLocal(s: Store, t: nat, s': Store) {
    && At(s, t, TakingLocal)
    && var th := s.threads[t];
       s' == Put(s, t, if th.pool == [] then th.(pc := TakingShared)
                       else th.(pool := th.pool[..|th.pool| - 1], kept := Some(th.pool[|th.pool| - 1]),
                                pc := Finishing))
  }

  predicate DoTakeShared(s: Store, t: nat, taken: seq<Slot>, s': Store) {
    && At(s, t, TakingShared)
    && var th := s.threads[t];
       && Took(s.shared, if th.worker then BATCH else 1, s'.shared, taken)
       && s' == Put(s, t, if taken == [] then th.(pc := TakingArena) else Got(th, taken)).(shared := s'.shared)
  }

  function AsFresh(taken: seq<nat>): seq<Slot> {
    seq(|taken|, i requires 0 <= i < |taken| => Slot(taken[i], Fresh))
  }

  predicate DoTakeArena(s: Store, t: nat, taken: seq<nat>, s': Store) {
    && At(s, t, TakingArena) && 0 !in s'.carved && Allotted(s.free, s.carved, BATCH, s'.free, s'.carved, taken)
    && var th := s.threads[t];
       s' == Put(s, t, if taken == [] then th.(pc := Idle) else Got(th, AsFresh(taken))).(free := s'.free,
           carved := s'.carved)
  }

  predicate DoStowLocal(s: Store, t: nat, n: nat, s': Store) {
    && At(s, t, StowingLocal)
    && var th := s.threads[t];
       && n <= |th.rest| && PutSome(th.pool, th.rest, s.capacity - |th.pool|, th.pool + th.rest[..n], n)
       && s' == Put(s, t, th.(pool := th.pool + th.rest[..n], rest := th.rest[n..], pc := StowingShared))
  }

  // ---- _sched_coro_put_to_shared and _sched_coro_put_to_arena -----------------------------------------------------

  predicate DoStowShared(s: Store, t: nat, entries: nat, n: nat, s': Store) {
    && At(s, t, StowingShared)
    && var th := s.threads[t];
       && PutSome(s.shared, th.rest, entries, s'.shared, n)
       && s' == Put(s, t, th.(rest := th.rest[n..], pc := StowingArena)).(shared := s'.shared)
  }

  predicate DoNextBatch(s: Store, t: nat, s': Store) {
    && At(s, t, StowingArena)
    && var th := s.threads[t];
       var n := Min(BATCH, |th.rest|);
       s' == Put(s, t, if th.rest == [] then th.(pc := Finishing)
                       else th.(batch := Ptrs(th.rest[..n]), rest := th.rest[n..], pc := Decommitting))
  }

  /** `arena_free` decommits before it takes the lock; what cannot be decommitted is lost. */
  predicate DoDecommit(s: Store, t: nat, ok: bool, s': Store) {
    && At(s, t, Decommitting)
    && var th := s.threads[t];
       if th.batch == [] then s' == Put(s, t, th.(pc := if th.back == [] then StowingArena else Appending))
       else
         var a := th.batch[0];
         s' == Put(s, t, th.(batch := th.batch[1..], back := if ok then th.back + [a] else th.back)).(
                   lost := if ok then s.lost else s.lost + multiset{a},
                   committed := if ok then s.committed - {a} else s.committed)
  }

  /** Under the arena's lock, whose free array has room for every slot ever carved. */
  predicate DoAppend(s: Store, t: nat, s': Store) {
    && At(s, t, Appending)
    && var th := s.threads[t];
       if |th.back| > |s.carved| - |s.free| then s' == s.(aborted := true)
       else s' == Put(s, t, th.(back := [], pc := StowingArena)).(free := s.free + multiset(th.back))
  }

  /** The buffer is empty: a created coroutine gets its slot, or a spilled pool has room now. */
  predicate DoFinish(s: Store, t: nat, s': Store) {
    && At(s, t, Finishing)
    && var th := s.threads[t];
       match th.task
       case Creating =>
         && th.kept.Some?
         && s' == Put(s, t, th.(kept := None, pc := Idle)).(live := s.live + multiset{th.kept.value.ptr})
       case Releasing => s' == Put(s, t, th.(pc := Idle))
       case Spilling => s' == Put(s, t, th.(pc := PuttingAgain))
  }

  // ---- _sched_coro_dealloc_cb, and the coroutines themselves ------------------------------------------------------

  /** Creating a coroutine commits its memory. */
  predicate DoCommit(s: Store, ptr: nat, s': Store) {
    ptr in s.live && s' == s.(committed := s.committed + {ptr})
  }

  /** A coroutine gives its slot back once, as reusable if its memory is committed, as fresh if its creation failed. */
  predicate DoRelease(s: Store, t: nat, ptr: nat, state: State, s': Store) {
    && At(s, t, Idle) && ptr in s.live && (state.Reusable? ==> ptr in s.committed)
    && var th, slot := s.threads[t], Slot(ptr, state);
       s' == Put(s, t, if state.Fresh? then th.(rest := [slot], pc := StowingArena, task := Releasing)
                       else if !th.worker then th.(rest := [slot], pc := StowingShared, task := Releasing)
                       else th.(kept := Some(slot), pc := PuttingLocal,
                                task := Spilling)).(live := s.live - multiset{ptr})
  }

  /** The put that fits, the put that does not, and the second put, which must. */
  predicate DoPutLocal(s: Store, t: nat, s': Store) {
    && (At(s, t, PuttingLocal) || At(s, t, PuttingAgain))
    && var th := s.threads[t];
       && th.kept.Some?
       && if |th.pool| < s.capacity && th.kept.value.ptr != 0
          then s' == Put(s, t, th.(pool := th.pool + [th.kept.value], kept := None, pc := Idle))
          else if th.pc.PuttingLocal? then s' == Put(s, t, th.(pc := SpillingLocal))
          else s' == s.(aborted := true)
  }

  predicate DoSpillLocal(s: Store, t: nat, left: seq<Slot>, taken: seq<Slot>, s': Store) {
    && At(s, t, SpillingLocal) && Took(s.threads[t].pool, BATCH, left, taken)
    && s' == Put(s, t, s.threads[t].(pool := left, rest := taken, pc := StowingShared))
  }

  predicate Next(s: Store, a: Action, s': Store) {
    && !s.aborted
    && match a
       case Create(t) => DoCreate(s, t, s')
       case Release(t, ptr, state) => DoRelease(s, t, ptr, state, s')
       case Commit(ptr) => DoCommit(s, ptr, s')
       case TakeLocal(t) => DoTakeLocal(s, t, s')
       case TakeShared(t, out) => DoTakeShared(s, t, out, s')
       case TakeArena(t, taken) => DoTakeArena(s, t, taken, s')
       case PutLocal(t) => DoPutLocal(s, t, s')
       case SpillLocal(t, left, out) => DoSpillLocal(s, t, left, out, s')
       case StowLocal(t, n) => DoStowLocal(s, t, n, s')
       case StowShared(t, entries, n) => DoStowShared(s, t, entries, n, s')
       case NextBatch(t) => DoNextBatch(s, t, s')
       case Decommit(t, ok) => DoDecommit(s, t, ok, s')
       case Append(t) => DoAppend(s, t, s')
       case Finish(t) => DoFinish(s, t, s')
  }

  // ---- where the addresses are ------------------------------------------------------------------------------------

  /** How often an address is in some slots. */
  function Times(slots: seq<Slot>, a: nat): nat { Addresses(slots)[a] }

  /** How often a thread has an address in its pool or its hands. */
  function Mine(th: Thread, a: nat): nat {
    Times(th.pool, a) + One(th.kept.Some? && th.kept.value.ptr == a) + Times(th.rest, a)
    + multiset(th.batch)[a] + multiset(th.back)[a]
  }

  function All(threads: seq<Thread>, a: nat): nat {
    if threads == [] then 0 else Mine(threads[0], a) + All(threads[1..], a)
  }

  function Common(s: Store, a: nat): nat { s.free[a] + s.lost[a] + Times(s.shared, a) + s.live[a] }

  /** Every address carved is in exactly one place, and no other address is anywhere. */
  ghost predicate Balanced(s: Store) { forall a :: Common(s, a) + All(s.threads, a) == One(a in s.carved) }

  lemma {:induction false} AllUpdate(threads: seq<Thread>, t: nat, th: Thread, a: nat)
    requires t < |threads|
    ensures All(threads[t := th], a) == All(threads, a) - Mine(threads[t], a) + Mine(th, a)
    ensures Mine(threads[t], a) <= All(threads, a)
  {
    if t == 0 {
      assert threads[0 := th][1..] == threads[1..];
    } else {
      AllUpdate(threads[1..], t - 1, th, a);
      assert threads[t := th][1..] == threads[1..][t - 1 := th];
    }
  }

  /** What has to hold of one address for a step of thread `t` to leave it in one place. */
  predicate Moved(s: Store, t: nat, s': Store, a: nat)
    requires t < |s.threads| == |s'.threads|
  {
    Common(s', a) + Mine(s'.threads[t], a) == Common(s, a) + Mine(s.threads[t], a) + One(a in s'.carved
        && a !in s.carved)
  }

  lemma Rebalance(s: Store, t: nat, s': Store)
    requires Balanced(s) && t < |s.threads| == |s'.threads| && s'.threads == s.threads[t := s'.threads[t]]
    requires s.carved <= s'.carved
    requires forall a :: Moved(s, t, s', a)
    ensures Balanced(s')
  {
    forall a ensures Common(s', a) + All(s'.threads, a) == One(a in s'.carved) {
      AllUpdate(s.threads, t, s'.threads[t], a);
      assert Moved(s, t, s', a);
      assert Common(s, a) + All(s.threads, a) == One(a in s.carved);
    }
  }

  lemma TimesSplit(x: seq<Slot>, y: seq<Slot>, a: nat)
    ensures Times(x + y, a) == Times(x, a) + Times(y, a)
  {
    AddressesSplit(x, y);
  }

  lemma TimesCut(x: seq<Slot>, n: nat, a: nat)
    requires n <= |x|
    ensures Times(x, a) == Times(x[..n], a) + Times(x[n..], a)
  {
    assert x == x[..n] + x[n..];
    TimesSplit(x[..n], x[n..], a);
  }

  lemma TimesOne(x: Slot, a: nat)
    ensures Times([x], a) == One(x.ptr == a) && Times([], a) == 0
  {
    assert Ptrs([x]) == [x.ptr] && Ptrs([]) == [];
  }

  lemma TimesTaken(was: seq<Slot>, wanted: int, now: seq<Slot>, taken: seq<Slot>, a: nat)
    requires Took(was, wanted, now, taken)
    ensures Times(was, a) == Times(now, a) + Times(taken, a)
  {
    TimesSplit(now, Reversed(taken), a);
    ReversedAddresses(taken);
  }

  lemma TimesIn(x: seq<Slot>, slot: Slot)
    requires slot in x
    ensures Times(x, slot.ptr) > 0
  {
    var i :| 0 <= i < |x| && x[i] == slot;
    assert Ptrs(x)[i] == slot.ptr;
    assert slot.ptr in multiset(Ptrs(x));
  }

  // ---- the invariant ----------------------------------------------------------------------------------------------

  /** What a thread holds at each point, and that a spilled pool has room. */
  predicate ThreadOk(th: Thread, capacity: nat) {
    && |th.pool| <= capacity
    && (th.pc.Decommitting? || th.batch == [])
    && (th.pc.Decommitting? || th.pc.Appending? || th.back == [])
    && match th.pc
       case Idle => th.kept.None? && th.rest == []
       case TakingLocal => th.task.Creating? && th.worker && th.kept.None? && th.rest == []
       case TakingShared => th.task.Creating? && th.kept.None? && th.rest == []
       case TakingArena => th.task.Creating? && th.kept.None? && th.rest == []
       case PuttingLocal => th.task.Spilling? && th.kept.Some? && th.rest == []
       case SpillingLocal => th.task.Spilling? && th.kept.Some? && th.rest == [] && |th.pool| == capacity
       case PuttingAgain => th.kept.Some? && th.rest == [] && |th.pool| < capacity
       case StowingLocal => th.task.Creating? && th.kept.Some?
       case Finishing => Stowing(th, capacity) && th.rest == []
       case _ => Stowing(th, capacity)
  }

  predicate Stowing(th: Thread, capacity: nat) {
    (th.kept.None? <==> th.task.Releasing?) && (th.task.Spilling? ==> |th.pool| < capacity)
  }

  /** A slot is marked reusable exactly if it has memory behind it. */
  predicate Marked(slot: Slot, committed: set<nat>) { slot.state.Reusable? <==> slot.ptr in committed }

  predicate AllMarked(slots: seq<Slot>, committed: set<nat>) {
    forall i :: 0 <= i < |slots| ==> Marked(slots[i], committed)
  }

  /** Slots on their way to the arena need no mark, and have no memory once decommitted. */
  predicate ThreadMarked(th: Thread, committed: set<nat>) {
    && AllMarked(th.pool, committed) && (th.kept.Some? ==> Marked(th.kept.value, committed))
    && (th.pc.StowingArena? || th.pc.Decommitting? || th.pc.Appending? || AllMarked(th.rest, committed))
    && (forall a :: a in th.back ==> a !in committed)
  }

  ghost predicate StoreMarked(s: Store) {
    && AllMarked(s.shared, s.committed) && s.committed <= s.carved
    && (forall a :: a in s.free ==> a !in s.committed)
    && (forall t :: 0 <= t < |s.threads| ==> ThreadMarked(s.threads[t], s.committed))
  }

  predicate ThreadsOk(s: Store) {
    && s.capacity > 0 && 0 !in s.carved && !s.aborted
    && forall t :: 0 <= t < |s.threads| ==> ThreadOk(s.threads[t], s.capacity)
  }

  ghost predicate Inv(s: Store) { ThreadsOk(s) && Balanced(s) && StoreMarked(s) }

  // ---- each step keeps the balance --------------------------------------------------------------------------------

  /** An address seen once is seen nowhere else. */
  lemma Once(s: Store, t: nat, a: nat)
    requires Balanced(s) && t < |s.threads|
    ensures Common(s, a) + Mine(s.threads[t], a) <= One(a in s.carved)
  {
    assert Common(s, a) + All(s.threads, a) == One(a in s.carved);
    AllUpdate(s.threads, t, s.threads[t], a);
  }

  lemma GotMoves(th: Thread, taken: seq<Slot>, a: nat)
    requires taken != [] && th.kept.None? && th.rest == []
    ensures Mine(Got(th, taken), a) == Mine(th, a) + Times(taken, a)
  {
    TimesCut(taken, 1, a);
    assert taken[..1] == [taken[0]];
    TimesOne(taken[0], a);
  }

  lemma TakeLocalMoves(s: Store, t: nat, s': Store, a: nat)
    requires ThreadsOk(s) && DoTakeLocal(s, t, s')
    ensures Moved(s, t, s', a)
  {
    var th := s.threads[t];
    if th.pool != [] {
      TimesCut(th.pool, |th.pool| - 1, a);
      assert th.pool[|th.pool| - 1..] == [th.pool[|th.pool| - 1]];
      TimesOne(th.pool[|th.pool| - 1], a);
    }
  }

  lemma TakeSharedMoves(s: Store, t: nat, taken: seq<Slot>, s': Store, a: nat)
    requires ThreadsOk(s) && DoTakeShared(s, t, taken, s')
    ensures Moved(s, t, s', a)
  {
    var th := s.threads[t];
    TimesTaken(s.shared, if th.worker then BATCH else 1, s'.shared, taken, a);
    if taken == [] { assert s.shared == s'.shared; } else { GotMoves(th, taken, a); }
  }

  lemma TakeArenaMoves(s: Store, t: nat, taken: seq<nat>, s': Store, a: nat)
    requires ThreadsOk(s) && DoTakeArena(s, t, taken, s')
    ensures Moved(s, t, s', a)
  {
    assert (s'.free + multiset(taken))[a] == (s.free + multiset(s'.carved - s.carved))[a];
    if taken != [] {
      GotMoves(s.threads[t], AsFresh(taken), a);
      assert Ptrs(AsFresh(taken)) == taken;
    }
  }

  lemma StowMoves(s: Store, t: nat, n: nat, entries: nat, s': Store, a: nat)
    requires ThreadsOk(s) && (DoStowLocal(s, t, n, s') || DoStowShared(s, t, entries, n, s'))
    ensures Moved(s, t, s', a)
  {
    var th := s.threads[t];
    TimesCut(th.rest, n, a);
    TimesSplit(th.pool, th.rest[..n], a);
    TimesSplit(s.shared, th.rest[..n], a);
  }

  lemma NextBatchMoves(s: Store, t: nat, s': Store, a: nat)
    requires ThreadsOk(s) && DoNextBatch(s, t, s')
    ensures Moved(s, t, s', a)
  {
    TimesCut(s.threads[t].rest, Min(BATCH, |s.threads[t].rest|), a);
  }

  lemma DecommitMoves(s: Store, t: nat, ok: bool, s': Store, a: nat)
    requires DoDecommit(s, t, ok, s')
    ensures Moved(s, t, s', a)
  {
    var th := s.threads[t];
    if th.batch != [] { assert th.batch == [th.batch[0]] + th.batch[1..]; }
  }

  lemma AppendMoves(s: Store, t: nat, s': Store, a: nat)
    requires DoAppend(s, t, s')
    ensures Moved(s, t, s', a)
  {
  }

  lemma PutLocalMoves(s: Store, t: nat, s': Store, a: nat)
    requires DoPutLocal(s, t, s')
    ensures Moved(s, t, s', a)
  {
    var th := s.threads[t];
    TimesSplit(th.pool, [th.kept.value], a);
    TimesOne(th.kept.value, a);
  }

  lemma SpillMoves(s: Store, t: nat, left: seq<Slot>, taken: seq<Slot>, s': Store, a: nat)
    requires ThreadsOk(s) && DoSpillLocal(s, t, left, taken, s')
    ensures Moved(s, t, s', a)
  {
    TimesTaken(s.threads[t].pool, BATCH, left, taken, a);
  }

  lemma ReleaseMoves(s: Store, t: nat, ptr: nat, state: State, s': Store, a: nat)
    requires ThreadsOk(s) && DoRelease(s, t, ptr, state, s')
    ensures Moved(s, t, s', a)
  {
    TimesOne(Slot(ptr, state), a);
  }

  lemma FinishMoves(s: Store, t: nat, s': Store, a: nat)
    requires DoFinish(s, t, s')
    ensures Moved(s, t, s', a)
  {
  }

  // ---- each step keeps the invariant ------------------------------------------------------------------------------

  lemma {:induction false} ReversedFrom(x: seq<Slot>, slot: Slot)
    ensures slot in Reversed(x) <==> slot in x
  {
    if x != [] {
      ReversedFrom(x[..|x| - 1], slot);
      assert x == x[..|x| - 1] + [x[|x| - 1]];
    }
  }

  lemma MarkedTaken(was: seq<Slot>, wanted: int, now: seq<Slot>, taken: seq<Slot>, committed: set<nat>)
    requires AllMarked(was, committed) && Took(was, wanted, now, taken)
    ensures AllMarked(now, committed) && AllMarked(taken, committed)
  {
    forall i | 0 <= i < |now| ensures Marked(now[i], committed) { assert was[i] == now[i]; }
    forall i | 0 <= i < |taken| ensures Marked(taken[i], committed) {
      ReversedFrom(taken, taken[i]);
      var j :| 0 <= j < |Reversed(taken)| && Reversed(taken)[j] == taken[i];
      assert was[|now| + j] == taken[i];
    }
  }

  /** A step of thread `t` that touches no memory. */
  lemma StepKeeps(s: Store, t: nat, s': Store)
    requires Inv(s) && t < |s.threads| == |s'.threads| && s'.threads == s.threads[t := s'.threads[t]]
    requires s'.capacity == s.capacity && !s'.aborted && 0 !in s'.carved && s.carved <= s'.carved
    requires s'.committed == s.committed
    requires forall a :: Moved(s, t, s', a)
    requires ThreadOk(s'.threads[t], s.capacity) && ThreadMarked(s'.threads[t], s.committed)
    requires AllMarked(s'.shared, s.committed)
    requires forall a :: a in s'.free ==> a !in s.committed
    ensures Inv(s')
  {
    Rebalance(s, t, s');
  }

  lemma CreateKeeps(s: Store, t: nat, s': Store)
    requires Inv(s) && DoCreate(s, t, s')
    ensures Inv(s')
  {
    forall a ensures Moved(s, t, s', a) { }
    StepKeeps(s, t, s');
  }

  lemma TakeLocalKeeps(s: Store, t: nat, s': Store)
    requires Inv(s) && DoTakeLocal(s, t, s')
    ensures Inv(s')
  {
    forall a ensures Moved(s, t, s', a) { TakeLocalMoves(s, t, s', a); }
    assert ThreadOk(s.threads[t], s.capacity) && ThreadMarked(s.threads[t], s.committed);
    StepKeeps(s, t, s');
  }

  lemma TakeSharedKeeps(s: Store, t: nat, taken: seq<Slot>, s': Store)
    requires Inv(s) && DoTakeShared(s, t, taken, s')
    ensures Inv(s')
  {
    forall a ensures Moved(s, t, s', a) { TakeSharedMoves(s, t, taken, s', a); }
    assert ThreadOk(s.threads[t], s.capacity) && ThreadMarked(s.threads[t], s.committed);
    MarkedTaken(s.shared, if s.threads[t].worker then BATCH else 1, s'.shared, taken, s.committed);
    StepKeeps(s, t, s');
  }

  lemma AllottedFrom(free: multiset<nat>, carved: set<nat>, wanted: nat, free': multiset<nat>, carved': set<nat>,
                     taken: seq<nat>, a: nat)
    requires Allotted(free, carved, wanted, free', carved', taken) && (a in free' || a in taken)
    ensures a in free || a in carved' - carved
  {
    assert a in taken ==> a in multiset(taken);
    assert (free' + multiset(taken))[a] == (free + multiset(carved' - carved))[a];
  }

  lemma TakeArenaKeeps(s: Store, t: nat, taken: seq<nat>, s': Store)
    requires Inv(s) && DoTakeArena(s, t, taken, s')
    ensures Inv(s')
  {
    forall a ensures Moved(s, t, s', a) { TakeArenaMoves(s, t, taken, s', a); }
    assert ThreadOk(s.threads[t], s.capacity) && ThreadMarked(s.threads[t], s.committed);
    forall a | a in s'.free || a in taken ensures a !in s.committed {
      AllottedFrom(s.free, s.carved, BATCH, s'.free, s'.carved, taken, a);
    }
    assert AllMarked(AsFresh(taken), s.committed);
    StepKeeps(s, t, s');
  }

  lemma MarkedPut(was: seq<Slot>, given: seq<Slot>, n: nat, committed: set<nat>)
    requires n <= |given| && AllMarked(was, committed) && AllMarked(given, committed)
    ensures AllMarked(was + given[..n], committed) && AllMarked(given[n..], committed)
  {
  }

  lemma StowLocalKeeps(s: Store, t: nat, n: nat, s': Store)
    requires Inv(s) && DoStowLocal(s, t, n, s')
    ensures Inv(s')
  {
    forall a ensures Moved(s, t, s', a) { StowMoves(s, t, n, 0, s', a); }
    assert ThreadOk(s.threads[t], s.capacity) && ThreadMarked(s.threads[t], s.committed);
    MarkedPut(s.threads[t].pool, s.threads[t].rest, n, s.committed);
    StepKeeps(s, t, s');
  }

  lemma StowSharedKeeps(s: Store, t: nat, entries: nat, n: nat, s': Store)
    requires Inv(s) && DoStowShared(s, t, entries, n, s')
    ensures Inv(s')
  {
    forall a ensures Moved(s, t, s', a) { StowMoves(s, t, n, entries, s', a); }
    assert ThreadOk(s.threads[t], s.capacity) && ThreadMarked(s.threads[t], s.committed);
    MarkedPut(s.shared, s.threads[t].rest, n, s.committed);
    StepKeeps(s, t, s');
  }

  lemma NextBatchKeeps(s: Store, t: nat, s': Store)
    requires Inv(s) && DoNextBatch(s, t, s')
    ensures Inv(s')
  {
    forall a ensures Moved(s, t, s', a) { NextBatchMoves(s, t, s', a); }
    assert ThreadOk(s.threads[t], s.capacity) && ThreadMarked(s.threads[t], s.committed);
    StepKeeps(s, t, s');
  }

  /** The free array always has room for what comes back, whoever else is on the way there. */
  lemma RoomForBack(s: Store, t: nat)
    requires Balanced(s) && t < |s.threads|
    ensures |s.threads[t].back| <= |s.carved| - |s.free|
  {
    var back := multiset(s.threads[t].back);
    forall a ensures (s.free + back)[a] <= multiset(s.carved)[a] { Once(s, t, a); }
    var spare := multiset(s.carved) - (s.free + back);
    assert multiset(s.carved) == s.free + back + spare;
    assert |multiset(s.carved)| == |s.carved| && |back| == |s.threads[t].back|;
  }

  lemma AppendKeeps(s: Store, t: nat, s': Store)
    requires Inv(s) && DoAppend(s, t, s')
    ensures Inv(s')
  {
    RoomForBack(s, t);
    forall a ensures Moved(s, t, s', a) { AppendMoves(s, t, s', a); }
    assert ThreadOk(s.threads[t], s.capacity) && ThreadMarked(s.threads[t], s.committed);
    StepKeeps(s, t, s');
  }

  lemma PutLocalKeeps(s: Store, t: nat, s': Store)
    requires Inv(s) && DoPutLocal(s, t, s')
    ensures Inv(s')
  {
    Once(s, t, s.threads[t].kept.value.ptr);
    assert ThreadOk(s.threads[t], s.capacity) && ThreadMarked(s.threads[t], s.committed);
    forall a ensures Moved(s, t, s', a) { PutLocalMoves(s, t, s', a); }
    StepKeeps(s, t, s');
  }

  lemma {:induction false} ReversedLength(x: seq<Slot>)
    ensures |Reversed(x)| == |x|
  {
    if x != [] { ReversedLength(x[..|x| - 1]); }
  }

  lemma SpillKeeps(s: Store, t: nat, left: seq<Slot>, taken: seq<Slot>, s': Store)
    requires Inv(s) && DoSpillLocal(s, t, left, taken, s')
    ensures Inv(s')
  {
    forall a ensures Moved(s, t, s', a) { SpillMoves(s, t, left, taken, s', a); }
    assert ThreadOk(s.threads[t], s.capacity) && ThreadMarked(s.threads[t], s.committed);
    MarkedTaken(s.threads[t].pool, BATCH, left, taken, s.committed);
    ReversedLength(taken);
    StepKeeps(s, t, s');
  }

  lemma ReleaseKeeps(s: Store, t: nat, ptr: nat, state: State, s': Store)
    requires Inv(s) && DoRelease(s, t, ptr, state, s')
    ensures Inv(s')
  {
    forall a ensures Moved(s, t, s', a) { ReleaseMoves(s, t, ptr, state, s', a); }
    assert ThreadOk(s.threads[t], s.capacity) && ThreadMarked(s.threads[t], s.committed);
    StepKeeps(s, t, s');
  }

  lemma FinishKeeps(s: Store, t: nat, s': Store)
    requires Inv(s) && DoFinish(s, t, s')
    ensures Inv(s')
  {
    forall a ensures Moved(s, t, s', a) { FinishMoves(s, t, s', a); }
    assert ThreadOk(s.threads[t], s.capacity) && ThreadMarked(s.threads[t], s.committed);
    StepKeeps(s, t, s');
  }

  // ---- steps that touch memory ------------------------------------------------------------------------------------

  /** Two threads do not have the same address. */
  lemma {:induction false} Pair(threads: seq<Thread>, t: nat, u: nat, a: nat)
    requires t < u < |threads|
    ensures Mine(threads[t], a) + Mine(threads[u], a) <= All(threads, a)
  {
    if t == 0 {
      AllUpdate(threads[1..], u - 1, threads[u], a);
    } else {
      Pair(threads[1..], t - 1, u - 1, a);
    }
  }

  /** Only address `a` gets or loses its memory, and it is not in these slots. */
  lemma StillMarked(slots: seq<Slot>, a: nat, committed: set<nat>, committed': set<nat>)
    requires AllMarked(slots, committed) && Times(slots, a) == 0
    requires forall b :: b != a ==> (b in committed <==> b in committed')
    ensures AllMarked(slots, committed')
  {
    forall i | 0 <= i < |slots| ensures Marked(slots[i], committed') { TimesIn(slots, slots[i]); }
  }

  lemma StillThreadMarked(th: Thread, a: nat, committed: set<nat>, committed': set<nat>)
    requires ThreadMarked(th, committed) && Mine(th, a) == 0
    requires forall b :: b != a ==> (b in committed <==> b in committed')
    ensures ThreadMarked(th, committed')
  {
    StillMarked(th.pool, a, committed, committed');
    if AllMarked(th.rest, committed) { StillMarked(th.rest, a, committed, committed'); }
    forall b | b in th.back ensures b !in committed' { assert b in multiset(th.back); }
  }

  lemma CommitKeeps(s: Store, ptr: nat, s': Store)
    requires Inv(s) && DoCommit(s, ptr, s')
    ensures Inv(s')
  {
    assert Common(s, ptr) + All(s.threads, ptr) == One(ptr in s.carved);
    StillMarked(s.shared, ptr, s.committed, s'.committed);
    forall t | 0 <= t < |s.threads| ensures ThreadMarked(s.threads[t], s'.committed) {
      AllUpdate(s.threads, t, s.threads[t], ptr);
      StillThreadMarked(s.threads[t], ptr, s.committed, s'.committed);
    }
    forall a ensures Common(s', a) + All(s'.threads, a) == One(a in s'.carved) {
      assert Common(s, a) + All(s.threads, a) == One(a in s.carved);
    }
  }

  /** A successful decommit concerns the thread's own batch and nothing anyone else sees. */
  lemma DecommitMarks(s: Store, t: nat, s': Store)
    requires Inv(s) && DoDecommit(s, t, true, s') && s.threads[t].batch != []
    ensures StoreMarked(s')
  {
    var th := s.threads[t];
    var a := th.batch[0];
    assert th.batch == [a] + th.batch[1..] && a in multiset(th.batch);
    Once(s, t, a);
    StillMarked(s.shared, a, s.committed, s'.committed);
    StillMarked(th.pool, a, s.committed, s'.committed);
    forall u | 0 <= u < |s.threads| ensures ThreadMarked(s'.threads[u], s'.committed) {
      assert ThreadMarked(s.threads[u], s.committed);
      if u != t {
        Pair(s.threads, if t < u then t else u, if t < u then u else t, a);
        assert Common(s, a) + All(s.threads, a) == One(a in s.carved);
        StillThreadMarked(s.threads[u], a, s.committed, s'.committed);
      }
    }
  }

  lemma DecommitKeeps(s: Store, t: nat, ok: bool, s': Store)
    requires Inv(s) && DoDecommit(s, t, ok, s')
    ensures Inv(s')
  {
    forall a ensures Moved(s, t, s', a) { DecommitMoves(s, t, ok, s', a); }
    assert ThreadOk(s.threads[t], s.capacity) && ThreadMarked(s.threads[t], s.committed);
    if s.threads[t].batch != [] && ok {
      Rebalance(s, t, s');
      DecommitMarks(s, t, s');
    } else {
      StepKeeps(s, t, s');
    }
  }

  lemma NextKeeps(s: Store, act: Action, s': Store)
    requires Inv(s) && Next(s, act, s')
    ensures Inv(s')
  {
    match act
    case Create(t) => CreateKeeps(s, t, s');
    case Release(t, ptr, state) => ReleaseKeeps(s, t, ptr, state, s');
    case Commit(ptr) => CommitKeeps(s, ptr, s');
    case TakeLocal(t) => TakeLocalKeeps(s, t, s');
    case TakeShared(t, out) => TakeSharedKeeps(s, t, out, s');
    case TakeArena(t, taken) => TakeArenaKeeps(s, t, taken, s');
    case PutLocal(t) => PutLocalKeeps(s, t, s');
    case SpillLocal(t, left, out) => SpillKeeps(s, t, left, out, s');
    case StowLocal(t, n) => StowLocalKeeps(s, t, n, s');
    case StowShared(t, entries, n) => StowSharedKeeps(s, t, entries, n, s');
    case NextBatch(t) => NextBatchKeeps(s, t, s');
    case Decommit(t, ok) => DecommitKeeps(s, t, ok, s');
    case Append(t) => AppendKeeps(s, t, s');
    case Finish(t) => FinishKeeps(s, t, s');
  }

  // ---- what it means ----------------------------------------------------------------------------------------------

  lemma {:induction false} AllEmpty(threads: seq<Thread>, a: nat)
    requires forall t :: 0 <= t < |threads| ==>
               threads[t] == Thread(threads[t].worker, [], Idle, threads[t].task, None, [], [], [])
    ensures All(threads, a) == 0
  {
    if threads != [] {
      AllEmpty(threads[1..], a);
      assert Ptrs([]) == [];
    }
  }

  lemma InitHolds(s: Store)
    requires Init(s)
    ensures Inv(s)
  {
    forall a ensures Common(s, a) + All(s.threads, a) == One(a in s.carved) {
      AllEmpty(s.threads, a);
      assert Ptrs(s.shared) == [];
    }
  }

  ghost predicate IsRun(states: seq<Store>, acts: seq<Action>) {
    Runs.IsRun(s => Init(s), (s, a, s') => Next(s, a, s'), states, acts)
  }

  lemma InvOverRuns(states: seq<Store>, acts: seq<Action>, k: nat)
    requires IsRun(states, acts) && k < |states|
    ensures Inv(states[k])
  {
    forall s | Init(s) ensures Inv(s) { InitHolds(s); }
    forall s, a, s' | Inv(s) && Next(s, a, s') ensures Inv(s') { NextKeeps(s, a, s'); }
    Runs.Invariance(s => Init(s), (s, a, s') => Next(s, a, s'), s => Inv(s), states, acts, k);
  }

  /** Whatever threads do at once, every address ever carved is, once, in the arena's free list, lost to a failed
      decommit, in the shared pool, a live coroutine's, or in one thread's pool or hands; no other address is
      anywhere. */
  lemma PartitionOverRuns(states: seq<Store>, acts: seq<Action>, k: nat, a: nat)
    requires IsRun(states, acts) && k < |states|
    ensures var s := states[k];
            s.free[a] + s.lost[a] + Times(s.shared, a) + s.live[a] + All(s.threads, a) == One(a in s.carved)
  {
    InvOverRuns(states, acts, k);
    assert Common(states[k], a) + All(states[k].threads, a) == One(a in states[k].carved);
  }

  /** No abort is reached: the arena's free array has room for whatever any thread is about to give back, and the second
      put into a spilled pool finds room. */
  lemma NeverAborts(states: seq<Store>, acts: seq<Action>, k: nat, t: nat)
    requires IsRun(states, acts) && k < |states| && t < |states[k].threads|
    ensures var s := states[k];
            && !s.aborted && |s.threads[t].back| <= |s.carved| - |s.free|
            && (s.threads[t].pc.PuttingAgain? ==> |s.threads[t].pool| < s.capacity)
  {
    InvOverRuns(states, acts, k);
    assert ThreadOk(states[k].threads[t], states[k].capacity);
    RoomForBack(states[k], t);
  }

  /** A coroutine is told that its slot is reusable exactly if there is memory behind it; and it is nobody else's. */
  predicate HandedOut(s: Store, act: Action, s': Store) {
    act.Finish? && act.t < |s.threads| && s.threads[act.t].task.Creating? ==>
      var kept := s.threads[act.t].kept;
      && kept.Some? && (kept.value.state.Reusable? <==> kept.value.ptr in s.committed)
      && kept.value.ptr in s.carved && kept.value.ptr !in s.live && s'.live == s.live + multiset{kept.value.ptr}
  }

  lemma HandOutOverRuns(states: seq<Store>, acts: seq<Action>, k: nat)
    requires IsRun(states, acts) && k < |acts|
    ensures HandedOut(states[k], acts[k], states[k + 1])
  {
    forall s | Init(s) ensures Inv(s) { InitHolds(s); }
    forall s, a, s' | Inv(s) && Next(s, a, s') ensures Inv(s') && HandedOut(s, a, s') {
      NextKeeps(s, a, s');
      FinishHandsOut(s, a, s');
    }
    Runs.StepInvariance(s => Init(s), (s, a, s') => Next(s, a, s'), s => Inv(s), (s, a, s') => HandedOut(s, a, s'),
                        states, acts, k);
  }

  lemma FinishHandsOut(s: Store, act: Action, s': Store)
    requires Inv(s) && Next(s, act, s')
    ensures HandedOut(s, act, s')
  {
    if act.Finish? && s.threads[act.t].task.Creating? {
      assert ThreadOk(s.threads[act.t], s.capacity) && ThreadMarked(s.threads[act.t], s.committed);
      Once(s, act.t, s.threads[act.t].kept.value.ptr);
    }
  }
}
