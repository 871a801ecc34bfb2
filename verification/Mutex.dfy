/** The barging mutex of src/sync/xylem-mutex.c, shared by coroutines and threads. One action is one atomic operation;
    releasing the list guard is taken together with the last operation done under it. */
module Mutex {
  import opened Prelude
  import Runs

  datatype Pc =
    | Out | Fast(try: bool) | Own
    // a coroutine: park, commit under the guard, retry when woken
    | CoroGuard | CoroCheck | CoroPush | Parked
    // a thread: spin, try or queue up under the guard, wait for a token, retry
    | Spin | ThreadGuard | ThreadTry | ThreadPush | TokenWait
    | Retry(coro: bool)
    | UnlockGuard | UnlockPop | UnlockWake(target: nat)

  /** Per client: where it is, its wake tokens, and the unlocker that popped it and has not woken it yet. */
  datatype M = M(locked: bool, guard: Option<nat>, waiters: seq<nat>, owner: Option<nat>,
                 pc: seq<Pc>, tokens: seq<nat>, waker: seq<Option<nat>>, aborted: bool)

  datatype Action = Lock(u: nat, try: bool) | Unlock(u: nat) | Step(u: nat, b: bool)

  predicate Shape(m: M) { |m.tokens| == |m.pc| && |m.waker| == |m.pc| }

  predicate Init(m: M) {
    && Shape(m) && !m.locked && m.guard == None && m.waiters == [] && m.owner == None && !m.aborted
    && forall u :: 0 <= u < |m.pc| ==> m.pc[u] == Out && m.tokens[u] == 0 && m.waker[u] == None
  }

  function Go(m: M, u: nat, pc: Pc): M
    requires u < |m.pc|
  {
    m.(pc := m.pc[u := pc])
  }

  /** The compare-exchange of `locked`: it takes the lock, or goes on elsewhere. */
  function TryTake(m: M, u: nat, otherwise: Pc): M
    requires u < |m.pc|
  {
    m.(pc := m.pc[u := if m.locked then otherwise else Own], locked := true,
       owner := if m.locked then m.owner else Some(u))
  }

  /** Attempts outside the guard: the fast path, the spin, and the retry of a woken waiter. */
  predicate DoTry(m: M, u: nat, coro: bool, m': M)
    requires Shape(m)
  {
    && u < |m.pc|
    && match m.pc[u]
       case Fast(try) => m' == TryTake(m, u, if try then Out else if coro then CoroGuard else Spin)
       case Spin => m' == TryTake(m, u, if coro then Spin else ThreadGuard)
       case Retry(isCoro) => m' == TryTake(m, u, if isCoro then CoroGuard else Spin)
       case _ => false
  }

  predicate DoGuard(m: M, u: nat, m': M)
    requires Shape(m)
  {
    && u < |m.pc| && m.guard.None?
    && (m.pc[u].CoroGuard? || m.pc[u].ThreadGuard? || m.pc[u].UnlockGuard?)
    && m' == Go(m, u, if m.pc[u].CoroGuard? then CoroCheck else if m.pc[u].ThreadGuard? then ThreadTry
                else UnlockPop).(guard := Some(u))
  }

  /** Under the guard, a coroutine only looks at the lock; ... */
  predicate DoCheck(m: M, u: nat, m': M)
    requires Shape(m)
  {
    && u < |m.pc| && m.pc[u].CoroCheck?
    && m' == Go(m, u, if m.locked then CoroPush else Retry(true)).(guard := if m.locked then m.guard else None)
  }

  /** ... a thread tries to take it. */
  predicate DoThreadTry(m: M, u: nat, m': M)
    requires Shape(m)
  {
    && u < |m.pc| && m.pc[u].ThreadTry?
    && m' == TryTake(m, u, ThreadPush).(guard := if m.locked then m.guard else None)
  }

  predicate DoPush(m: M, u: nat, m': M)
    requires Shape(m)
  {
    && u < |m.pc| && (m.pc[u].CoroPush? || m.pc[u].ThreadPush?)
    && m' == Go(m, u, if m.pc[u].CoroPush? then Parked else TokenWait).(waiters := m.waiters + [u], guard := None)
  }

  predicate DoTokenWait(m: M, u: nat, m': M)
    requires Shape(m)
  {
    u < |m.pc| && m.pc[u].TokenWait? && m.tokens[u] > 0
        && m' == Go(m, u, Retry(false)).(tokens := m.tokens[u := m.tokens[u] - 1])
  }

  predicate DoUnlock(m: M, u: nat, m': M)
    requires Shape(m)
  {
    u < |m.pc| && m.pc[u].Own? && m' == Go(m, u, UnlockGuard).(locked := false, owner := None)
  }

  predicate DoPop(m: M, u: nat, m': M)
    requires Shape(m)
  {
    && u < |m.pc| && m.pc[u].UnlockPop? && m.waiters != [] && m.waiters[0] < |m.pc|
    && m' == Go(m, u, UnlockWake(m.waiters[0])).(guard := None, waiters := m.waiters[1..],
                                                 waker := m.waker[m.waiters[0] := Some(u)])
  }

  predicate DoPopNobody(m: M, u: nat, m': M)
    requires Shape(m)
  {
    u < |m.pc| && m.pc[u].UnlockPop? && m.waiters == [] && m' == Go(m, u, Out).(guard := None)
  }

  /** A thread gets a token; a coroutine is made ready, which aborts unless it is parked. */
  predicate DoWake(m: M, u: nat, coro: bool, m': M)
    requires Shape(m)
  {
    && u < |m.pc| && m.pc[u].UnlockWake? && m.pc[u].target < |m.pc|
    && var w := m.pc[u].target;
       && (coro <==> !m.pc[w].TokenWait?)
       && m' == m.(pc := if coro then m.pc[u := Out][w := Retry(true)] else m.pc[u := Out],
                   tokens := if coro then m.tokens else m.tokens[w := m.tokens[w] + 1],
                   waker := m.waker[w := None], aborted := m.aborted || (coro && !m.pc[w].Parked?))
  }

  predicate Next(m: M, a: Action, m': M) {
    && Shape(m) && !m.aborted
    && match a
       case Lock(u, try) => u < |m.pc| && m.pc[u].Out? && m' == Go(m, u, Fast(try))
       case Unlock(u) => DoUnlock(m, u, m')
       case Step(u, b) =>
         || DoTry(m, u, b, m') || DoGuard(m, u, m') || DoCheck(m, u, m') || DoThreadTry(m, u, m') || DoPush(m, u, m')
         || DoTokenWait(m, u, m') || DoPop(m, u, m') || DoPopNobody(m, u, m') || DoWake(m, u, b, m')
  }

  // ---- the invariant ----------------------------------------------------------------------------------------------

  predicate Guarded(pc: Pc) { pc.CoroCheck? || pc.CoroPush? || pc.ThreadTry? || pc.ThreadPush? || pc.UnlockPop? }
  predicate Blocked(pc: Pc) { pc.Parked? || pc.TokenWait? }
  predicate Pushing(pc: Pc) { pc.CoroPush? || pc.ThreadPush? }

  /** A client is queued, or its one wake is on its way, exactly while it is blocked. */
  predicate ClientOk(m: M, u: nat)
    requires Shape(m) && u < |m.pc|
  {
    && (m.guard == Some(u) <==> Guarded(m.pc[u]))
    && (m.owner == Some(u) <==> m.pc[u].Own?)
    && m.tokens[u] + One(m.waker[u].Some?) == One(Blocked(m.pc[u]) && u !in m.waiters)
    && (u in m.waiters ==> Blocked(m.pc[u])) && (m.pc[u].Parked? ==> m.tokens[u] == 0)
    && (m.waker[u].Some? ==> m.waker[u].value < |m.pc| && m.pc[m.waker[u].value] == UnlockWake(u))
    && (m.pc[u].UnlockWake? ==> m.pc[u].target < |m.pc| && m.waker[m.pc[u].target] == Some(u))
  }

  /** Between releasing the lock and taking a waiter off the queue. */
  predicate Unlocking(pc: Pc) { pc.UnlockGuard? || pc.UnlockPop? }

  /** Taken off the queue, and its retry still to come. */
  predicate Woken(m: M, u: nat)
    requires Shape(m) && u < |m.pc|
  {
    m.pc[u].Retry? || (Blocked(m.pc[u]) && u !in m.waiters)
  }

  ghost predicate Cared(m: M)
    requires Shape(m)
  {
    m.waiters != [] || (exists u :: 0 <= u < |m.pc| && Pushing(m.pc[u])) ==>
      || m.locked
      || (exists u :: 0 <= u < |m.pc| && Unlocking(m.pc[u]))
      || (exists u :: 0 <= u < |m.pc| && Woken(m, u))
  }

  ghost predicate Inv(m: M) {
    && Shape(m) && !m.aborted && NoDup(m.waiters) && (m.locked <==> m.owner.Some?)
    && (forall u :: u in m.waiters ==> u < |m.pc|) && (m.owner.Some? ==> m.owner.value < |m.pc|)
    && (m.guard.Some? ==> m.guard.value < |m.pc|)
    && (forall u :: 0 <= u < |m.pc| ==> ClientOk(m, u)) && Cared(m)
  }

  /** Only client `u` moved and the queue stayed: what it has to show. */
  lemma Moves(m: M, u: nat, m': M)
    requires Inv(m) && u < |m.pc| && Shape(m') && |m'.pc| == |m.pc| && !m'.aborted
    requires m'.waiters == m.waiters && m'.waker == m.waker
    requires forall v :: 0 <= v < |m.pc| && v != u ==> m'.pc[v] == m.pc[v] && m'.tokens[v] == m.tokens[v]
    requires !m.pc[u].UnlockWake? && !m'.pc[u].UnlockWake? && ClientOk(m', u) && (m'.locked <==> m'.owner.Some?)
    requires m'.guard == m.guard || (m.guard == Some(u) && m'.guard == None) || (m.guard == None && m'.guard == Some(u))
    requires m'.owner == m.owner || (m.owner == Some(u) && m'.owner == None) || (m.owner == None && m'.owner == Some(u))
    requires m.locked && !m'.locked ==> Unlocking(m'.pc[u])
    requires Unlocking(m.pc[u]) ==> Unlocking(m'.pc[u]) || (m'.waiters == [] && m.guard == Some(u))
    requires Woken(m, u) ==> Woken(m', u) || m'.locked
    requires Pushing(m'.pc[u]) ==> m'.locked
    ensures Inv(m')
  {
    forall v | 0 <= v < |m'.pc| ensures ClientOk(m', v) {
      assert ClientOk(m, v);
    }
    if Unlocking(m.pc[u]) && !Unlocking(m'.pc[u]) {
      forall v | 0 <= v < |m'.pc| && v != u ensures !Pushing(m'.pc[v]) { assert ClientOk(m', v) && ClientOk(m, v); }
    }
    if v :| 0 <= v < |m.pc| && Unlocking(m.pc[v]) { assert v != u ==> Unlocking(m'.pc[v]); }
    if v :| 0 <= v < |m.pc| && Woken(m, v) { assert v != u ==> Woken(m', v); }
    if v :| 0 <= v < |m'.pc| && Pushing(m'.pc[v]) { assert v != u ==> Pushing(m.pc[v]); }
  }

  lemma TryKeeps(m: M, u: nat, coro: bool, m': M)
    requires Inv(m) && (DoTry(m, u, coro, m') || DoThreadTry(m, u, m'))
    ensures Inv(m')
  {
    if DoThreadTry(m, u, m') {
      ThreadTryKeeps(m, u, m');
    } else {
      assert ClientOk(m, u);
      Moves(m, u, m');
    }
  }

  lemma ThreadTryKeeps(m: M, u: nat, m': M)
    requires Inv(m) && DoThreadTry(m, u, m')
    ensures Inv(m')
  {
    assert ClientOk(m, u);
    Moves(m, u, m');
  }

  lemma GuardKeeps(m: M, u: nat, m': M)
    requires Inv(m) && (DoGuard(m, u, m') || DoCheck(m, u, m') || DoPopNobody(m, u, m'))
    ensures Inv(m')
  {
    assert ClientOk(m, u);
    Moves(m, u, m');
  }

  lemma TokenKeeps(m: M, u: nat, m': M)
    requires Inv(m) && (DoTokenWait(m, u, m') || DoUnlock(m, u, m'))
    ensures Inv(m')
  {
    assert ClientOk(m, u);
    Moves(m, u, m');
  }

  lemma PushKeeps(m: M, u: nat, m': M)
    requires Inv(m) && DoPush(m, u, m')
    ensures Inv(m')
  {
    assert ClientOk(m, u);
    assert Pushing(m.pc[u]);
    forall v | 0 <= v < |m'.pc| ensures ClientOk(m', v) {
      assert ClientOk(m, v);
    }
    if v :| 0 <= v < |m.pc| && Unlocking(m.pc[v]) { assert Unlocking(m'.pc[v]); }
    if v :| 0 <= v < |m.pc| && Woken(m, v) { assert Woken(m', v); }
  }

  lemma PopKeeps(m: M, u: nat, m': M)
    requires Inv(m) && DoPop(m, u, m')
    ensures Inv(m')
  {
    var w := m.waiters[0];
    assert w in m.waiters && ClientOk(m, u) && ClientOk(m, w);
    assert forall v :: v in m'.waiters <==> v in m.waiters && v != w;
    forall v | 0 <= v < |m'.pc| ensures ClientOk(m', v) {
      assert ClientOk(m, v);
    }
    assert Woken(m', w);
  }

  lemma WakeKeeps(m: M, u: nat, coro: bool, m': M)
    requires Inv(m) && DoWake(m, u, coro, m')
    ensures Inv(m')
  {
    var w := m.pc[u].target;
    assert ClientOk(m, u) && ClientOk(m, w);
    forall v | 0 <= v < |m'.pc| ensures ClientOk(m', v) {
      assert ClientOk(m, v);
    }
    assert Woken(m', w);
  }

  lemma NextKeeps(m: M, a: Action, m': M)
    requires Inv(m) && Next(m, a, m')
    ensures Inv(m')
  {
    var u := a.u;
    assert ClientOk(m, u);
    match a
    case Lock(_, _) => Moves(m, u, m');
    case Unlock(_) => TokenKeeps(m, u, m');
    case Step(_, b) =>
      if DoTry(m, u, b, m') || DoThreadTry(m, u, m') { TryKeeps(m, u, b, m'); }
      else if DoGuard(m, u, m') || DoCheck(m, u, m') || DoPopNobody(m, u, m') { GuardKeeps(m, u, m'); }
      else if DoPush(m, u, m') { PushKeeps(m, u, m'); }
      else if DoPop(m, u, m') { PopKeeps(m, u, m'); }
      else if DoWake(m, u, b, m') { WakeKeeps(m, u, b, m'); }
      else { TokenKeeps(m, u, m'); }
  }

  // ---- what it means ----------------------------------------------------------------------------------------------

  lemma InvOverRuns(states: seq<M>, acts: seq<Action>, k: nat)
    requires Runs.IsRun(m => Init(m), (m, a, m') => Next(m, a, m'), states, acts) && k < |states|
    ensures Inv(states[k])
  {
    forall m, a, m' | Inv(m) && Next(m, a, m') ensures Inv(m') { NextKeeps(m, a, m'); }
    Runs.Invariance(m => Init(m), (m, a, m') => Next(m, a, m'), m => Inv(m), states, acts, k);
  }

  /** At most one owner, and it holds the lock; every queued waiter is blocked, and every blocked client taken off the
      queue has exactly one wake coming. */
  lemma OneOwner(states: seq<M>, acts: seq<Action>, k: nat)
    requires Runs.IsRun(m => Init(m), (m, a, m') => Next(m, a, m'), states, acts) && k < |states|
    ensures var m := states[k];
            && Shape(m) && !m.aborted
            && (forall u, v :: 0 <= u < |m.pc| && 0 <= v < |m.pc| && m.pc[u].Own? && m.pc[v].Own? ==> u == v)
            && (m.locked <==> exists u :: 0 <= u < |m.pc| && m.pc[u].Own?)
            && (forall u :: 0 <= u < |m.pc| && u in m.waiters ==> Blocked(m.pc[u]))
            && (forall u :: 0 <= u < |m.pc| ==>
                  m.tokens[u] + One(m.waker[u].Some?) == One(Blocked(m.pc[u]) && u !in m.waiters))
  {
    InvOverRuns(states, acts, k);
    var m := states[k];
    forall u | 0 <= u < |m.pc| ensures ClientOk(m, u) && (m.pc[u].Own? <==> m.owner == Some(u)) { }
    if m.owner.Some? { assert ClientOk(m, m.owner.value); }
  }

  /** While anyone is queued, the lock is held, or an unlocker has released it and not yet taken a waiter off the queue,
      or a waiter taken off has its retry still to come. */
  lemma NobodyForgotten(states: seq<M>, acts: seq<Action>, k: nat)
    requires Runs.IsRun(m => Init(m), (m, a, m') => Next(m, a, m'), states, acts) && k < |states|
    requires states[k].waiters != []
    ensures var m := states[k];
            && Shape(m)
            && (m.locked || exists u :: 0 <= u < |m.pc| && (Unlocking(m.pc[u]) || Woken(m, u)))
  {
    InvOverRuns(states, acts, k);
  }
}
