/** The hand-off semaphore of src/sync/xylem-sem.c, with timed waits. One action is one atomic operation; the loop of
    `_sem_try_take` is one step, decided where it takes a token or reads zero, and releasing the guard is taken together
    with the last operation done under it. */
module Semaphore {
  import opened Prelude
  import Runs

  /** `wait`, `timedwait`, and `timedwait` with zero. */
  datatype Mode = Forever | Timed | Poll

  datatype Pc =
    | Out
    | Try(mode: Mode, coro: bool) | Guard(mode: Mode, coro: bool)
    | TryGuarded(mode: Mode, coro: bool) | Push(mode: Mode, coro: bool)
    | Parked(timed: bool) | TokenWait(timed: bool) | WithdrawGuard | Withdraw | LastWait
    | PostGuard | PostPop | PostWake(target: nat)
    | FireGuard(waiter: nat, epoch: nat) | Fire(waiter: nat, epoch: nat) | FireWake(target: nat)

  /** What became of a client's place in the queue. */
  datatype Fate = NoPlace | Queued | Handed | Cancelled

  /** Per client: where it is, its wake tokens, its fate, who is about to wake it, the number of its wait, the ticket it
      queued up with and the result of its last wait. `posts` and `granted` count tokens in and out. */
  datatype S = S(
    count: int, guard: Option<nat>, waiters: seq<nat>,
    pc: seq<Pc>, tokens: seq<nat>, fate: seq<Fate>, waker: seq<Option<nat>>, epoch: seq<nat>, ticket: seq<nat>,
        result: seq<bool>,
    clock: nat, initial: nat, posts: nat, granted: nat, aborted: bool)

  datatype Action = Wait(u: nat, mode: Mode, coro: bool) | Post(u: nat) | Timer(u: nat, waiter: nat) | Step(u: nat)

  predicate Shape(s: S) {
    && |s.tokens| == |s.pc| && |s.fate| == |s.pc| && |s.waker| == |s.pc| && |s.epoch| == |s.pc| && |s.ticket| == |s.pc|
    && |s.result| == |s.pc|
  }

  predicate Init(s: S) {
    && Shape(s) && s.count == s.initial && s.guard == None && s.waiters == [] && s.posts == 0 && s.granted == 0
    && !s.aborted
    && forall u :: 0 <= u < |s.pc| ==> s.pc[u] == Out && s.tokens[u] == 0 && s.fate[u] == NoPlace && s.waker[u] == None
  }

  function Go(s: S, u: nat, pc: Pc): S
    requires u < |s.pc|
  {
    s.(pc := s.pc[u := pc])
  }

  /** Removing one waiter from the queue keeps the others' order. */
  function Without(xs: seq<nat>, x: nat): seq<nat> {
    if xs == [] then [] else if xs[0] == x then xs[1..] else [xs[0]] + Without(xs[1..], x)
  }

  /** A banked token is taken and the wait is over, outside the guard or under it; ... */
  predicate DoTake(s: S, u: nat, s': S)
    requires Shape(s)
  {
    && u < |s.pc| && (s.pc[u].Try? || s.pc[u].TryGuarded?) && s.count > 0
    && s' == Go(s, u, Out).(count := s.count - 1, granted := s.granted + 1, result := s.result[u := true],
                            guard := if s.pc[u].Try? then s.guard else None)
  }

  /** ... or there is none. */
  predicate DoMiss(s: S, u: nat, s': S)
    requires Shape(s)
  {
    && u < |s.pc| && (s.pc[u].Try? || s.pc[u].TryGuarded?) && s.count <= 0
    && var poll := s.pc[u].Try? && s.pc[u].mode.Poll?;
       s' == Go(s, u, if poll then Out else if s.pc[u].Try? then Guard(s.pc[u].mode, s.pc[u].coro)
                else Push(s.pc[u].mode, s.pc[u].coro)).(
                  result := if poll then s.result[u := false] else s.result)
  }

  function Guarded(pc: Pc): Option<Pc> {
    match pc
    case Guard(mode, coro) => Some(TryGuarded(mode, coro))
    case WithdrawGuard => Some(Withdraw)
    case PostGuard => Some(PostPop)
    case FireGuard(w, e) => Some(Fire(w, e))
    case _ => None
  }

  predicate DoGuard(s: S, u: nat, s': S)
    requires Shape(s)
  {
    u < |s.pc| && s.guard.None? && Guarded(s.pc[u]).Some? && s' == Go(s, u, Guarded(s.pc[u]).value).(guard := Some(u))
  }

  predicate DoPush(s: S, u: nat, s': S)
    requires Shape(s)
  {
    && u < |s.pc| && s.pc[u].Push?
    && s' == Go(s, u, if s.pc[u].coro then Parked(s.pc[u].mode.Timed?) else TokenWait(s.pc[u].mode.Timed?)).(
                 waiters := s.waiters + [u], guard := None, fate := s.fate[u := Queued],
                     ticket := s.ticket[u := s.clock], clock := s.clock + 1)
  }

  predicate DoToken(s: S, u: nat, s': S)
    requires Shape(s)
  {
    && u < |s.pc| && (s.pc[u].TokenWait? || s.pc[u].LastWait?) && s.tokens[u] > 0
    && s' == Go(s, u, Out).(tokens := s.tokens[u := s.tokens[u] - 1], granted := s.granted + 1,
                            result := s.result[u := true], fate := s.fate[u := NoPlace])
  }

  /** A thread's timed wait runs out; under the guard it withdraws, unless it has been served meanwhile. */
  predicate DoTimeout(s: S, u: nat, s': S)
    requires Shape(s)
  {
    u < |s.pc| && s.pc[u] == TokenWait(true) && s' == Go(s, u, WithdrawGuard)
  }

  predicate DoWithdraw(s: S, u: nat, s': S)
    requires Shape(s)
  {
    && u < |s.pc| && s.pc[u].Withdraw? && s.fate[u].Queued?
    && s' == Go(s, u, Out).(guard := None, waiters := Without(s.waiters, u), fate := s.fate[u := NoPlace],
                            result := s.result[u := false])
  }

  predicate DoServed(s: S, u: nat, s': S)
    requires Shape(s)
  {
    u < |s.pc| && s.pc[u].Withdraw? && !s.fate[u].Queued? && s' == Go(s, u, LastWait).(guard := None)
  }

  /** A post serves the oldest waiter, ... */
  predicate DoPostPop(s: S, u: nat, s': S)
    requires Shape(s)
  {
    && u < |s.pc| && s.pc[u].PostPop? && s.waiters != [] && s.waiters[0] < |s.pc|
    && var w := s.waiters[0];
       s' == Go(s, u, PostWake(w)).(guard := None, waiters := s.waiters[1..], fate := s.fate[w := Handed],
                                    waker := s.waker[w := Some(u)], posts := s.posts + 1)
  }

  /** ... or banks its token. */
  predicate DoPostBank(s: S, u: nat, s': S)
    requires Shape(s)
  {
    u < |s.pc| && s.pc[u].PostPop? && s.waiters == []
        && s' == Go(s, u, Out).(guard := None, count := s.count + 1, posts := s.posts + 1)
  }

  /** The timeout callback of a timed coroutine wait cancels it if it is still queued, ... */
  predicate DoFire(s: S, u: nat, s': S)
    requires Shape(s)
  {
    && u < |s.pc| && s.pc[u].Fire? && s.pc[u].waiter < |s.pc|
    && var w := s.pc[u].waiter;
       && s.fate[w].Queued? && s.epoch[w] == s.pc[u].epoch
       && s' == Go(s, u, FireWake(w)).(guard := None, waiters := Without(s.waiters, w), fate := s.fate[w := Cancelled],
                                       waker := s.waker[w := Some(u)])
  }

  /** ... and does nothing if it comes too late. */
  predicate DoFireLate(s: S, u: nat, s': S)
    requires Shape(s)
  {
    && u < |s.pc| && s.pc[u].Fire? && s.pc[u].waiter < |s.pc|
    && !(s.fate[s.pc[u].waiter].Queued? && s.epoch[s.pc[u].waiter] == s.pc[u].epoch)
    && s' == Go(s, u, Out).(guard := None)
  }

  /** Waking: a thread gets a token; a coroutine is made ready, which aborts unless it is parked, and its wait is
      over. */
  predicate DoWakeThread(s: S, u: nat, s': S)
    requires Shape(s)
  {
    && u < |s.pc| && s.pc[u].PostWake? && s.pc[u].target < |s.pc|
    && var w := s.pc[u].target;
       !s.pc[w].Parked? && s' == Go(s, u, Out).(tokens := s.tokens[w := s.tokens[w] + 1], waker := s.waker[w := None])
  }

  predicate DoWakeCoro(s: S, u: nat, s': S)
    requires Shape(s)
  {
    && u < |s.pc| && (s.pc[u].PostWake? || s.pc[u].FireWake?) && s.pc[u].target < |s.pc|
    && var w := s.pc[u].target; var ok := s.pc[u].PostWake?;
       && (s.pc[w].Parked? || !ok)
       && s' == s.(pc := s.pc[u := Out][w := Out], waker := s.waker[w := None], fate := s.fate[w := NoPlace],
                   result := s.result[w := ok],
                   granted := if ok then s.granted + 1 else s.granted, aborted := s.aborted || !s.pc[w].Parked?)
  }

  predicate WaitStep(s: S, u: nat, s': S)
    requires Shape(s)
  {
    || DoTake(s, u, s') || DoMiss(s, u, s') || DoGuard(s, u, s') || DoToken(s, u, s') || DoTimeout(s, u, s')
    || DoServed(s, u, s') || DoFireLate(s, u, s')
  }

  predicate QueueStep(s: S, u: nat, s': S)
    requires Shape(s)
  {
    || DoPush(s, u, s') || DoWithdraw(s, u, s') || DoPostPop(s, u, s') || DoPostBank(s, u, s') || DoFire(s, u, s')
    || DoWakeThread(s, u, s') || DoWakeCoro(s, u, s')
  }

  predicate Next(s: S, a: Action, s': S) {
    && Shape(s) && !s.aborted
    && match a
       case Wait(u, mode, coro) => u < |s.pc| && s.pc[u].Out?
           && s' == Go(s, u, Try(mode, coro)).(epoch := s.epoch[u := s.epoch[u] + 1])
       case Post(u) => u < |s.pc| && s.pc[u].Out? && s' == Go(s, u, PostGuard)
       // armed when a timed coroutine queued up
       case Timer(u, w) => u < |s.pc| && w < |s.pc| && s.pc[u].Out? && s.pc[w] == Parked(true)
           && s' == Go(s, u, FireGuard(w, s.epoch[w]))
       case Step(u) => WaitStep(s, u, s') || QueueStep(s, u, s')
  }

  // ---- the invariant ----------------------------------------------------------------------------------------------

  predicate HoldsGuard(pc: Pc) { pc.TryGuarded? || pc.Push? || pc.Withdraw? || pc.PostPop? || pc.Fire? }
  predicate ThreadWaits(pc: Pc) { pc.TokenWait? || pc.WithdrawGuard? || pc.Withdraw? || pc.LastWait? }

  /** In a wait that cannot have armed a timer yet, or never will. */
  predicate BeforeParking(pc: Pc) { pc.Try? || pc.Guard? || pc.TryGuarded? || pc.Push? || ThreadWaits(pc) }

  /** A waiter is queued, or has been served and has exactly one wake coming, or was cancelled and is about to be
      told. */
  predicate ClientOk(s: S, u: nat)
    requires Shape(s) && u < |s.pc|
  {
    && (s.guard == Some(u) <==> HoldsGuard(s.pc[u]))
    && (u in s.waiters <==> s.fate[u].Queued?)
    && (s.fate[u].NoPlace? <==> !s.pc[u].Parked? && !ThreadWaits(s.pc[u]))
    && s.tokens[u] + One(s.waker[u].Some?) == One(s.fate[u].Handed? || s.fate[u].Cancelled?)
    && (s.pc[u].Parked? ==> s.tokens[u] == 0) && (s.fate[u].Cancelled? ==> s.pc[u].Parked?)
    && (s.pc[u].LastWait? ==> s.fate[u].Handed?)
    && (s.waker[u].Some? ==>
          && s.waker[u].value < |s.pc|
          && s.pc[s.waker[u].value] == (if s.fate[u].Cancelled? then FireWake(u) else PostWake(u)))
    && (s.pc[u].PostWake? || s.pc[u].FireWake? ==> s.pc[u].target < |s.pc| && s.waker[s.pc[u].target] == Some(u))
    && (s.pc[u].Push? ==> s.count == 0)
    && (s.pc[u].FireGuard? || s.pc[u].Fire? ==> s.pc[u].waiter < |s.pc|)
    && (s.pc[u].FireGuard? || s.pc[u].Fire? ==> s.pc[u].epoch <= s.epoch[s.pc[u].waiter])
    && ((s.pc[u].FireGuard? || s.pc[u].Fire?) && s.epoch[s.pc[u].waiter] == s.pc[u].epoch ==>
          !BeforeParking(s.pc[s.pc[u].waiter]))
  }

  function HandedSet(fate: seq<Fate>): set<int> { set u | 0 <= u < |fate| && fate[u].Handed? }

  /** Tickets rise along the queue, and are no later than the clock. */
  predicate InOrder(xs: seq<nat>, ticket: seq<nat>, clock: nat) {
    && (forall i :: 0 <= i < |xs| ==> xs[i] < |ticket| && ticket[xs[i]] < clock)
    && (forall i, j :: 0 <= i < j < |xs| ==> ticket[xs[i]] < ticket[xs[j]])
  }

  predicate QueueOk(s: S)
    requires Shape(s)
  {
    InOrder(s.waiters, s.ticket, s.clock) && (s.waiters != [] ==> s.count == 0) && s.count >= 0
  }

  /** Tokens put in are banked, granted, or handed over and on their way. */
  predicate LedgerOk(s: S)
    requires Shape(s)
  {
    s.initial + s.posts == s.count + s.granted + |HandedSet(s.fate)|
  }

  predicate Inv(s: S) {
    && Shape(s) && !s.aborted && QueueOk(s) && LedgerOk(s) && (s.guard.Some? ==> s.guard.value < |s.pc|)
    && forall u :: 0 <= u < |s.pc| ==> ClientOk(s, u)
  }

  lemma TailInOrder(xs: seq<nat>, ticket: seq<nat>, clock: nat)
    requires InOrder(xs, ticket, clock) && xs != []
    ensures InOrder(xs[1..], ticket, clock) && xs[0] !in xs[1..]
    ensures forall y :: y in xs[1..] ==> y < |ticket| && ticket[xs[0]] < ticket[y]
  {
  }

  lemma ConsInOrder(x: nat, xs: seq<nat>, ticket: seq<nat>, clock: nat)
    requires InOrder(xs, ticket, clock) && x < |ticket| && ticket[x] < clock
    requires forall y :: y in xs ==> y < |ticket| && ticket[x] < ticket[y]
    ensures InOrder([x] + xs, ticket, clock)
  {
  }

  lemma {:induction false} WithoutIs(xs: seq<nat>, x: nat, ticket: seq<nat>, clock: nat)
    requires InOrder(xs, ticket, clock)
    ensures InOrder(Without(xs, x), ticket, clock) && forall y :: y in Without(xs, x) <==> y in xs && y != x
  {
    if xs != [] {
      assert xs == [xs[0]] + xs[1..];
      TailInOrder(xs, ticket, clock);
      WithoutIs(xs[1..], x, ticket, clock);
      if xs[0] != x { ConsInOrder(xs[0], Without(xs[1..], x), ticket, clock); }
    }
  }

  lemma HandedUpdate(fate: seq<Fate>, u: nat, f: Fate)
    requires u < |fate|
    ensures |HandedSet(fate[u := f])| == |HandedSet(fate)| - One(fate[u].Handed?) + One(f.Handed?)
  {
    var rest := HandedSet(fate) - {u};
    assert HandedSet(fate) == if fate[u].Handed? then rest + {u} else rest;
    assert HandedSet(fate[u := f]) == if f.Handed? then rest + {u} else rest;
  }

  lemma TakeKeeps(s: S, u: nat, s': S)
    requires Inv(s) && DoTake(s, u, s')
    ensures Inv(s')
  {
    assert ClientOk(s, u);
    forall v | 0 <= v < |s'.pc| ensures ClientOk(s', v) {
      assert ClientOk(s, v);
    }
  }

  lemma MissKeeps(s: S, u: nat, s': S)
    requires Inv(s) && DoMiss(s, u, s')
    ensures Inv(s')
  {
    assert ClientOk(s, u);
    forall v | 0 <= v < |s'.pc| ensures ClientOk(s', v) {
      assert ClientOk(s, v);
    }
  }

  lemma GuardKeeps(s: S, u: nat, s': S)
    requires Inv(s) && DoGuard(s, u, s')
    ensures Inv(s')
  {
    assert ClientOk(s, u);
    forall v | 0 <= v < |s'.pc| ensures ClientOk(s', v) {
      assert ClientOk(s, v);
    }
  }

  lemma TokenKeeps(s: S, u: nat, s': S)
    requires Inv(s) && (DoToken(s, u, s') || DoTimeout(s, u, s'))
    ensures Inv(s')
  {
    assert ClientOk(s, u);
    HandedUpdate(s.fate, u, NoPlace);
    forall v | 0 <= v < |s'.pc| ensures ClientOk(s', v) {
      assert ClientOk(s, v);
    }
  }

  lemma PushKeeps(s: S, u: nat, s': S)
    requires Inv(s) && DoPush(s, u, s')
    ensures Inv(s')
  {
    assert ClientOk(s, u);
    HandedUpdate(s.fate, u, Queued);
    forall i | 0 <= i < |s.waiters| ensures s.waiters[i] != u { assert s.waiters[i] in s.waiters; }
    forall v | 0 <= v < |s'.pc| ensures ClientOk(s', v) {
      assert ClientOk(s, v);
    }
  }

  lemma WithdrawKeeps(s: S, u: nat, s': S)
    requires Inv(s) && DoWithdraw(s, u, s')
    ensures Inv(s')
  {
    assert ClientOk(s, u);
    WithoutIs(s.waiters, u, s.ticket, s.clock);
    HandedUpdate(s.fate, u, NoPlace);
    forall v | 0 <= v < |s'.pc| ensures ClientOk(s', v) {
      assert ClientOk(s, v);
    }
  }

  lemma FireKeeps(s: S, u: nat, s': S)
    requires Inv(s) && DoFire(s, u, s')
    ensures Inv(s')
  {
    assert ClientOk(s, u);
    var w := s.pc[u].waiter;
    assert ClientOk(s, w);
    WithoutIs(s.waiters, w, s.ticket, s.clock);
    HandedUpdate(s.fate, w, Cancelled);
    forall v | 0 <= v < |s'.pc| ensures ClientOk(s', v) {
      assert ClientOk(s, v);
    }
  }

  lemma LateKeeps(s: S, u: nat, s': S)
    requires Inv(s) && (DoServed(s, u, s') || DoFireLate(s, u, s'))
    ensures Inv(s')
  {
    assert ClientOk(s, u);
    forall v | 0 <= v < |s'.pc| ensures ClientOk(s', v) {
      assert ClientOk(s, v);
    }
  }

  lemma PopKeeps(s: S, u: nat, s': S)
    requires Inv(s) && DoPostPop(s, u, s')
    ensures Inv(s')
  {
    var w := s.waiters[0];
    assert w in s.waiters && ClientOk(s, u) && ClientOk(s, w);
    TailInOrder(s.waiters, s.ticket, s.clock);
    assert s.waiters == [w] + s.waiters[1..];
    HandedUpdate(s.fate, w, Handed);
    forall v | 0 <= v < |s'.pc| ensures ClientOk(s', v) {
      assert ClientOk(s, v);
      PopClient(s, u, s', v);
    }
  }

  lemma PopClient(s: S, u: nat, s': S, v: nat)
    requires Shape(s) && DoPostPop(s, u, s') && v < |s.pc| && ClientOk(s, u) && ClientOk(s, v)
    requires ClientOk(s, s.waiters[0]) && s.waiters[0] in s.waiters && s.waiters[0] !in s.waiters[1..]
    requires v in s.waiters <==> v == s.waiters[0] || v in s.waiters[1..]
    ensures ClientOk(s', v)
  {
  }

  lemma BankKeeps(s: S, u: nat, s': S)
    requires Inv(s) && DoPostBank(s, u, s')
    ensures Inv(s')
  {
    assert ClientOk(s, u);
    forall v | 0 <= v < |s'.pc| ensures ClientOk(s', v) {
      assert ClientOk(s, v);
    }
  }

  lemma WakeThreadKeeps(s: S, u: nat, s': S)
    requires Inv(s) && DoWakeThread(s, u, s')
    ensures Inv(s')
  {
    assert ClientOk(s, u) && ClientOk(s, s.pc[u].target);
    forall v | 0 <= v < |s'.pc| ensures ClientOk(s', v) {
      assert ClientOk(s, v);
    }
  }

  lemma WakeCoroKeeps(s: S, u: nat, s': S)
    requires Inv(s) && DoWakeCoro(s, u, s')
    ensures Inv(s')
  {
    var w := s.pc[u].target;
    assert ClientOk(s, u) && ClientOk(s, w);
    HandedUpdate(s.fate, w, NoPlace);
    forall v | 0 <= v < |s'.pc| ensures ClientOk(s', v) {
      assert ClientOk(s, v);
    }
  }

  lemma StartWaitKeeps(s: S, a: Action, s': S)
    requires Inv(s) && Next(s, a, s') && a.Wait?
    ensures Inv(s')
  {
    assert ClientOk(s, a.u);
    forall v | 0 <= v < |s'.pc| ensures ClientOk(s', v) {
      assert ClientOk(s, v);
    }
  }

  lemma StartKeeps(s: S, u: nat, pc: Pc, s': S)
    requires Inv(s) && u < |s.pc| && s.pc[u].Out? && s' == Go(s, u, pc)
    requires pc.PostGuard?
        || (pc.FireGuard? && pc.waiter < |s.pc| && s.pc[pc.waiter].Parked? && pc.epoch == s.epoch[pc.waiter])
    ensures Inv(s')
  {
    assert ClientOk(s, u);
    forall v | 0 <= v < |s'.pc| ensures ClientOk(s', v) {
      assert ClientOk(s, v);
    }
  }

  lemma NextKeeps(s: S, a: Action, s': S)
    requires Inv(s) && Next(s, a, s')
    ensures Inv(s')
  {
    if a.Wait? { StartWaitKeeps(s, a, s'); }
    else if !a.Step? { StartKeeps(s, a.u, s'.pc[a.u], s'); }
    else if DoTake(s, a.u, s') { TakeKeeps(s, a.u, s'); }
    else if DoMiss(s, a.u, s') { MissKeeps(s, a.u, s'); }
    else if DoGuard(s, a.u, s') { GuardKeeps(s, a.u, s'); }
    else if DoToken(s, a.u, s') || DoTimeout(s, a.u, s') { TokenKeeps(s, a.u, s'); }
    else if DoPush(s, a.u, s') { PushKeeps(s, a.u, s'); }
    else if DoWithdraw(s, a.u, s') { WithdrawKeeps(s, a.u, s'); }
    else if DoFire(s, a.u, s') { FireKeeps(s, a.u, s'); }
    else if DoServed(s, a.u, s') || DoFireLate(s, a.u, s') { LateKeeps(s, a.u, s'); }
    else if DoPostPop(s, a.u, s') { PopKeeps(s, a.u, s'); }
    else if DoPostBank(s, a.u, s') { BankKeeps(s, a.u, s'); }
    else if DoWakeThread(s, a.u, s') { WakeThreadKeeps(s, a.u, s'); }
    else { WakeCoroKeeps(s, a.u, s'); }
  }

  // ---- what it means ----------------------------------------------------------------------------------------------

  lemma InvOverRuns(states: seq<S>, acts: seq<Action>, k: nat)
    requires Runs.IsRun(Init, Next, states, acts) && k < |states|
    ensures Inv(states[k])
  {
    forall s | Init(s) ensures Inv(s) { assert HandedSet(s.fate) == {}; }
    forall s, a, s' | Inv(s) && Next(s, a, s') ensures Inv(s') { NextKeeps(s, a, s'); }
    Runs.Invariance(Init, Next, Inv, states, acts, k);
  }

  /** Tokens are conserved in every state: those put in are banked, granted, or handed to a waiter that has not returned
      yet. Nobody is queued while a token is banked, and each served waiter has exactly one wake coming. */
  lemma TokensConserved(states: seq<S>, acts: seq<Action>, k: nat)
    requires Runs.IsRun(Init, Next, states, acts) && k < |states|
    ensures var s := states[k];
            && Shape(s) && !s.aborted
            && s.initial + s.posts == s.count + s.granted + |set u | 0 <= u < |s.fate| && s.fate[u].Handed?|
            && (s.waiters != [] ==> s.count == 0)
            && (forall u :: 0 <= u < |s.pc| && s.fate[u].Handed? ==>
                  s.tokens[u] + (if s.waker[u].Some? then 1 else 0) == 1)
  {
    InvOverRuns(states, acts, k);
    var s := states[k];
    forall u | 0 <= u < |s.pc| && s.fate[u].Handed? ensures s.tokens[u] + (if s.waker[u].Some? then 1 else 0) == 1 {
      assert ClientOk(s, u);
    }
  }

  /** How a queued wait ends. Served: by a post, and only the longest waiting one is; it will return true. Cancelled: by
      its own timeout; it returns false. Never both, and a wait returns true exactly when it takes a token. */
  predicate EndsOk(s: S, a: Action, s': S) {
    Shape(s) && Shape(s') && |s'.pc| == |s.pc| && forall u :: 0 <= u < |s.pc| ==> EndOk(s, s', u)
  }

  predicate EndOk(s: S, s': S, u: nat)
    requires Shape(s) && Shape(s') && u < |s.pc| == |s'.pc|
  {
    && (s.fate[u].Queued? && !s'.fate[u].Queued? ==>
          ServedNext(s, s', u) || (s'.posts == s.posts && (s'.fate[u].Cancelled? || (s'.pc[u].Out? && !s'.result[u]))))
    && (s.fate[u].Handed? && !s'.fate[u].Handed? ==> s'.pc[u].Out? && s'.result[u] && s'.granted == s.granted + 1)
    && (s.fate[u].Cancelled? && !s'.fate[u].Cancelled? ==> s'.pc[u].Out? && !s'.result[u] && s'.granted == s.granted)
    && (s'.fate[u].Queued? && !s.fate[u].Queued? ==> s'.waiters == s.waiters + [u])
  }

  predicate ServedNext(s: S, s': S, u: nat)
    requires Shape(s) && Shape(s') && u < |s.pc| == |s'.pc|
  {
    && s'.fate[u].Handed? && s'.posts == s.posts + 1 && s.waiters != [] && s.waiters[0] == u
    && forall v :: v in s.waiters && v != u ==> v < |s.ticket| && s.ticket[u] < s.ticket[v]
  }

  lemma FatesKept(s: S, a: Action, s': S)
    requires Shape(s) && Next(s, a, s') && (a.Step? ==> !QueueStep(s, a.u, s') && !DoToken(s, a.u, s'))
    ensures s'.fate == s.fate && Shape(s') && |s'.pc| == |s.pc|
  {
  }

  lemma SameFates(s: S, a: Action, s': S)
    requires Inv(s) && Next(s, a, s') && (a.Step? ==> !QueueStep(s, a.u, s') && !DoToken(s, a.u, s'))
    ensures EndsOk(s, a, s')
  {
    FatesKept(s, a, s');
  }

  lemma PopEnds(s: S, u: nat, s': S)
    requires Inv(s) && DoPostPop(s, u, s')
    ensures EndsOk(s, Step(u), s')
  {
    var w := s.waiters[0];
    assert w in s.waiters && ClientOk(s, w);
    TailInOrder(s.waiters, s.ticket, s.clock);
    assert s.waiters == [w] + s.waiters[1..];
  }

  lemma OtherEnds(s: S, u: nat, s': S)
    requires Inv(s) && (DoPush(s, u, s') || DoWithdraw(s, u, s') || DoPostBank(s, u, s') || DoFire(s, u, s'))
    ensures EndsOk(s, Step(u), s')
  {
    assert ClientOk(s, u);
  }

  lemma WakeEnds(s: S, u: nat, s': S)
    requires Inv(s) && (DoWakeThread(s, u, s') || DoWakeCoro(s, u, s') || DoToken(s, u, s'))
    ensures EndsOk(s, Step(u), s')
  {
    assert ClientOk(s, u);
    if !DoToken(s, u, s') { assert ClientOk(s, s.pc[u].target); }
  }

  lemma NextEnds(s: S, a: Action, s': S)
    requires Inv(s) && Next(s, a, s')
    ensures EndsOk(s, a, s')
  {
    if a.Step? && (QueueStep(s, a.u, s') || DoToken(s, a.u, s')) {
      if DoPostPop(s, a.u, s') { PopEnds(s, a.u, s'); }
      else if DoWakeThread(s, a.u, s') || DoWakeCoro(s, a.u, s') || DoToken(s, a.u, s') { WakeEnds(s, a.u, s'); }
      else { OtherEnds(s, a.u, s'); }
    } else {
      SameFates(s, a, s');
    }
  }

  lemma EndsOverRuns(states: seq<S>, acts: seq<Action>, k: nat)
    requires Runs.IsRun(Init, Next, states, acts) && k < |acts|
    ensures EndsOk(states[k], acts[k], states[k + 1])
  {
    forall s | Init(s) ensures Inv(s) { assert HandedSet(s.fate) == {}; }
    forall s, a, s' | Inv(s) && Next(s, a, s')
      ensures Inv(s') && EndsOk(s, a, s')
    {
      NextKeeps(s, a, s');
      NextEnds(s, a, s');
    }
    Runs.StepInvariance(Init, Next, Inv, EndsOk, states, acts, k);
  }
}
