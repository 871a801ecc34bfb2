/** Every step of the worker loop conserves coroutines. */
module SchedulerConservation {
  import opened Prelude
  import opened SchedulerModel
  import opened SchedulerPlaces

  /** The conservation invariant as it concerns thread `t`. */
  predicate Carrying(s: State, t: Tid)
    requires Shape(s)
  {
    t < |s.pc| && CarriesOk(s.pc[t], s.sub[t], s.cur[t], s.hand[t], s.claim[t])
  }

  /** The coroutine thread `t` holds changes state and the thread its program counter; nothing moves. */
  lemma CurRestated(s: State, s': State, t: Tid, to: CoState)
    requires Conserved(s) && t < s.n && Shape(s') && SameData(s, s') && s.cur[t].Some? && !s'.aborted
    requires s'.co == s.co[s.cur[t].value := to] && StateAt(s', InCur(t)) == to
    requires s'.sub == s.sub && forall u :: 0 <= u < |s.pc| && u != t ==> s'.pc[u] == s.pc[u]
    requires CarriesOk(s'.pc[t], s'.sub[t], s.cur[t], s.hand[t], s.claim[t])
    requires RoomOk(s'.pc[t], s.ring[t], s.hand[t])
    ensures Conserved(s')
  {
    CurStates(s, s', t, to);
    SamePlaces(s, s');
    CarryThreads(s, s', t);
    CarryStates(s, s', t, [s.cur[t].value]);
  }

  lemma CurStates(s: State, s': State, t: Tid, to: CoState)
    requires Shape(s) && PlacesOk(s) && StatesFit(s) && t < s.n && Shape(s') && s'.place == s.place && s.cur[t].Some?
    requires |s'.pc| == |s.pc| && s'.co == s.co[s.cur[t].value := to] && StateAt(s', InCur(t)) == to
    requires StateAt(s', InClaim(t)) == StateAt(s, InClaim(t))
    ensures s'.co.Keys == s.co.Keys && StatesLocal(s, s', t, [s.cur[t].value])
  {
    OnlyCur(s, t);
    assert s.cur[t].value in s.co;
  }

  lemma OnlyCur(s: State, t: Tid)
    requires Shape(s) && PlacesOk(s) && t < s.n && s.cur[t].Some?
    ensures s.cur[t].value in s.place && s.place[s.cur[t].value] == InCur(t)
    ensures forall d :: d in s.place && d != s.cur[t].value ==> s.place[d] != InCur(t)
  {
    assert Has(s, InCur(t), s.cur[t].value);
    forall d | d in s.place && d != s.cur[t].value ensures s.place[d] != InCur(t) {
      assert !Has(s, InCur(t), d);
    }
  }

  lemma StateOf(s: State, p: Place, c: Coro)
    requires Conserved(s) && Has(s, p, c)
    ensures c in s.co && s.co[c] == StateAt(s, p)
  {
  }

  // ---- taking ----------------------------------------------------------------------------------------------------

  lemma RemovedRunq(s: State, k: nat)
    requires Shape(s) && NoDups(s) && k <= |s.runq|
    ensures Removed(s, s.(runq := s.runq[k..]), s.runq[..k], InRunq)
  {
    Cut(s.runq, k);
  }

  lemma RemovedRing(s: State, v: nat, k: nat)
    requires Shape(s) && NoDups(s) && v < s.n && k <= |s.ring[v]|
    ensures Removed(s, s.(ring := s.ring[v := s.ring[v][k..]]), s.ring[v][..k], InRing(v))
  {
    assert NoDup(s.ring[v]);
    Cut(s.ring[v], k);
  }

  lemma Cut(xs: seq<Coro>, k: nat)
    requires NoDup(xs) && k <= |xs|
    ensures NoDup(xs[..k]) && NoDup(xs[k..]) && forall c :: c in xs[k..] <==> c in xs && c !in xs[..k]
  {
    assert xs == xs[..k] + xs[k..];
  }

  lemma RemovedNext(s: State, v: nat)
    requires Shape(s) && NoDups(s) && v < s.n && s.runnext[v].Some?
    ensures Removed(s, s.(runnext := s.runnext[v := None]), [s.runnext[v].value], InRunnext(v))
  {
  }

  lemma FairPopConserves(s: State, t: Tid, s': State)
    requires Conserved(s) && DoFairPop(s, t, s')
    ensures Conserved(s')
  {
    assert Carrying(s, t);
    RemovedRunq(s, 1);
    assert s.runq[..1] == [s.runq[0]];
    BatchKeeps(s, s.(runq := s.runq[1..]), t, s.runq[..1], InRunq, Found);
  }

  lemma TakeRunqConserves(s: State, t: Tid, s': State)
    requires Conserved(s) && DoTakeRunq(s, t, s')
    ensures Conserved(s')
  {
    var k := TakeCount(s, t);
    assert Carrying(s, t) && RoomOk(s.pc[t], s.ring[t], s.hand[t]);
    RemovedRunq(s, k);
    BatchKeeps(s, s.(runq := s.runq[k..]), t, s.runq[..k], InRunq, TakePush(s.pc[t].site));
  }

  lemma TakeRingConserves(s: State, t: Tid, s': State)
    requires Conserved(s) && DoTakeRing(s, t, s')
    ensures Conserved(s')
  {
    assert Carrying(s, t);
    RemovedRing(s, t, 1);
    assert s.ring[t][..1] == [s.ring[t][0]];
    BatchKeeps(s, s.(ring := s.ring[t := s.ring[t][1..]]), t, s.ring[t][..1], InRing(t), Hit(s.pc[t].site));
  }

  lemma StealRingConserves(s: State, t: Tid, grab: nat, s': State)
    requires Conserved(s) && DoStealRing(s, t, grab, s')
    ensures Conserved(s')
  {
    var v := Victim(s, t);
    assert Carrying(s, t) && RoomOk(s.pc[t], s.ring[t], s.hand[t]);
    RemovedRing(s, v, grab);
    BatchKeeps(s, s.(ring := s.ring[v := s.ring[v][grab..]]), t, s.ring[v][..grab], InRing(v),
               StealPush(s.pc[t].quest));
  }

  lemma TakeNextConserves(s: State, t: Tid, s': State)
    requires Conserved(s) && DoTakeNext(s, t, s')
    ensures Conserved(s')
  {
    assert Carrying(s, t);
    RemovedNext(s, t);
    BatchKeeps(s, s.(runnext := s.runnext[t := None]), t, [s.runnext[t].value], InRunnext(t), Hit(s.pc[t].site));
  }

  lemma StealNextConserves(s: State, t: Tid, s': State)
    requires Conserved(s) && DoStealNext(s, t, s')
    ensures Conserved(s')
  {
    var v := Victim(s, t);
    assert Carrying(s, t);
    RemovedNext(s, v);
    BatchKeeps(s, s.(runnext := s.runnext[v := None]), t, [s.runnext[v].value], InRunnext(v), StealWon(s.pc[t].quest));
  }

  // ---- moving on -------------------------------------------------------------------------------------------------

  lemma PushRestConserves(s: State, t: Tid, s': State)
    requires Conserved(s) && DoPushRest(s, t, s')
    ensures Conserved(s')
  {
    assert Carrying(s, t) && RoomOk(s.pc[t], s.ring[t], s.hand[t]);
    var cs := [s.hand[t][0]];
    assert Has(s, InHand(t), cs[0]);
    Relay(s, s', t, cs, InHand(t), InRing(t));
  }

  lemma EnqPushConserves(s: State, t: Tid, s': State)
    requires Conserved(s) && DoEnqPush(s, t, s')
    ensures Conserved(s')
  {
    assert Carrying(s, t) && RoomOk(s.pc[t], s.ring[t], s.hand[t]);
    var cs := s.hand[t];
    assert cs == [cs[0]] && cs[1..] == [] && Has(s, InHand(t), cs[0]);
    if |s.ring[t]| < RING_CAP {
      Relay(s, s', t, cs, InHand(t), InRing(t));
    } else {
      assert [] + cs == cs;
      Relay(s, s', t, cs, InHand(t), InHand(t));
    }
  }

  lemma LocalEnqConserves(s: State, t: Tid, s': State)
    requires Conserved(s) && DoLocalEnq(s, t, s')
    ensures Conserved(s')
  {
    assert Carrying(s, t) && RoomOk(s.pc[t], s.ring[t], s.hand[t]);
    var cs := [s.cur[t].value];
    assert Has(s, InCur(t), cs[0]);
    Relay(s, s', t, cs, InCur(t), if |s.ring[t]| < RING_CAP then InRing(t) else InRunq);
  }

  lemma EndDispatchConserves(s: State, t: Tid, s': State)
    requires Conserved(s) && DoEndDispatch(s, t, s')
    ensures Conserved(s')
  {
    assert Carrying(s, t) && NoDup(s.hand[t]) && s.hand[t][|s.hand[t]|..] == [];
    Relay(s, s', t, s.hand[t], InHand(t), InRunq);
  }

  lemma FlushRunqConserves(s: State, t: Tid, s': State)
    requires Conserved(s) && DoFlushRunq(s, t, s')
    ensures Conserved(s')
  {
    assert Carrying(s, t) && NoDup(s.hand[t]) && s.hand[t][|s.hand[t]|..] == [];
    Relay(s, s', t, s.hand[t], InHand(t), InRunq);
  }

  lemma FlushBatchConserves(s: State, t: Tid, s': State)
    requires Conserved(s) && DoFlushBatch(s, t, s')
    ensures Conserved(s')
  {
    assert Carrying(s, t) && NoDup(s.hand[t]) && s.hand[t][|s.hand[t]|..] == [];
    Relay(s, s', t, s.hand[t], InHand(t), InRunq);
  }

  lemma ClaimEventConserves(s: State, t: Tid, c: Coro, s': State)
    requires Conserved(s) && DoClaimEvent(s, t, c, s')
    ensures Conserved(s')
  {
    assert Carrying(s, t);
    var cs := [c];
    assert Has(s, InSlot, cs[0]);
    Relay(s, s', t, cs, InSlot, InClaim(t));
  }

  lemma ClaimConserves(s: State, t: Tid, c: Coro, s': State)
    requires Conserved(s) && DoClaim(s, t, c, s')
    ensures Conserved(s')
  {
    assert Carrying(s, t);
    var cs := [c];
    assert Has(s, InSlot, cs[0]);
    Relay(s, s', t, cs, InSlot, InClaim(t));
  }

  lemma ClaimForBatchConserves(s: State, t: Tid, c: Coro, s': State)
    requires Conserved(s) && DoClaimForBatch(s, t, c, s')
    ensures Conserved(s')
  {
    assert Carrying(s, t);
    var cs := [c];
    assert Has(s, InSlot, cs[0]);
    Relay(s, s', t, cs, InSlot, InClaim(t));
  }

  lemma DispatchFirstData(s: State, t: Tid, s': State)
    requires Shape(s) && Carrying(s, t) && DoDispatchFirst(s, t, s')
    ensures var cs := [s.claim[t].value];
            && OthersCarry(s, s', t) && SameData(In(Out(s, InClaim(t), cs), InCur(t), cs), s')
            && CarriesOk(s'.pc[t], s'.sub[t], s'.cur[t], s'.hand[t], s'.claim[t]) && !BatchPc(s'.pc[t])
            && StateAt(s', InCur(t)) == Runnable && s'.claim[t].None?
  {
  }

  lemma DispatchFirstConserves(s: State, t: Tid, s': State)
    requires Conserved(s) && DoDispatchFirst(s, t, s')
    ensures Conserved(s')
  {
    assert Carrying(s, t) && RoomOk(s.pc[t], s.ring[t], s.hand[t]);
    var cs := [s.claim[t].value];
    StateOf(s, InClaim(t), cs[0]);
    DispatchFirstData(s, t, s');
    assert s'.co == s.co[cs[0] := Runnable] && !s'.aborted;
    Relay(s, s', t, cs, InClaim(t), InCur(t));
  }

  lemma DispatchMoreData(s: State, t: Tid, s': State)
    requires Shape(s) && Carrying(s, t) && DoDispatchMore(s, t, s') && RoomOk(s.pc[t], s.ring[t], s.hand[t])
    ensures var cs := [s.claim[t].value]; var to := if |s.ring[t]| < RING_CAP then InRing(t) else InHand(t);
            Shape(s') && SameData(In(Out(s, InClaim(t), cs), to, cs), s')
  {
  }

  lemma DispatchMoreCarries(s: State, t: Tid, s': State)
    requires Shape(s) && Carrying(s, t) && DoDispatchMore(s, t, s') && RoomOk(s.pc[t], s.ring[t], s.hand[t])
    ensures var to := if |s.ring[t]| < RING_CAP then InRing(t) else InHand(t);
            && OthersCarry(s, s', t) && CarriesOk(s'.pc[t], s'.sub[t], s'.cur[t], s'.hand[t], s'.claim[t])
            && RoomOk(s'.pc[t], s'.ring[t], s'.hand[t])
            && StateAt(s', to) == Runnable && s'.claim[t].None? && StateAt(s', InCur(t)) == StateAt(s, InCur(t))
  {
  }

  lemma DispatchMoreRestates(s: State, t: Tid, s': State)
    requires Conserved(s) && DoDispatchMore(s, t, s')
    ensures s'.co == s.co[s.claim[t].value := Runnable] && !s'.aborted
  {
    StateOf(s, InClaim(t), s.claim[t].value);
  }

  lemma DispatchMoreConserves(s: State, t: Tid, s': State)
    requires Conserved(s) && DoDispatchMore(s, t, s')
    ensures Conserved(s')
  {
    assert Carrying(s, t) && RoomOk(s.pc[t], s.ring[t], s.hand[t]);
    var cs := [s.claim[t].value];
    DispatchMoreRestates(s, t, s');
    DispatchMoreData(s, t, s');
    DispatchMoreCarries(s, t, s');
    assert Has(s, InClaim(t), cs[0]);
    if |s.ring[t]| < RING_CAP {
      Relay(s, s', t, cs, InClaim(t), InRing(t));
    } else {
      Relay(s, s', t, cs, InClaim(t), InHand(t));
    }
  }

  lemma ReadyData(s: State, t: Tid, s': State)
    requires Shape(s) && Carrying(s, t) && DoReady(s, t, s') && (t < s.n ==> RoomOk(s.pc[t], s.ring[t], s.hand[t]))
    ensures var cs := [s.claim[t].value];
            && OthersCarry(s, s', t) && SameData(In(Out(s, InClaim(t), cs), InHand(t), cs), s')
            && CarriesOk(s'.pc[t], s'.sub[t], s'.cur[t], s'.hand[t], s'.claim[t])
            && (t < s.n ==> RoomOk(s'.pc[t], s'.ring[t], s'.hand[t]))
            && StateAt(s', InHand(t)) == Runnable && s'.claim[t].None? && StateAt(s', InCur(t)) == StateAt(s, InCur(t))
  {
    assert s.hand[t] == [] && [] + [s.claim[t].value] == [s.claim[t].value];
  }

  lemma ReadyConserves(s: State, t: Tid, s': State)
    requires Conserved(s) && DoReady(s, t, s')
    ensures Conserved(s')
  {
    assert Carrying(s, t) && (t < s.n ==> RoomOk(s.pc[t], s.ring[t], s.hand[t]));
    var cs := [s.claim[t].value];
    StateOf(s, InClaim(t), cs[0]);
    ReadyData(s, t, s');
    assert s'.co == s.co[cs[0] := Runnable] && !s'.aborted;
    Relay(s, s', t, cs, InClaim(t), InHand(t));
  }

  lemma BatchReadyConserves(s: State, t: Tid, s': State)
    requires Conserved(s) && DoBatchReady(s, t, s')
    ensures Conserved(s')
  {
    assert Carrying(s, t);
    var cs := [s.claim[t].value];
    StateOf(s, InClaim(t), cs[0]);
    assert s'.co == s.co[cs[0] := Runnable] && !s'.aborted;
    Relay(s, s', t, cs, InClaim(t), InHand(t));
  }

  lemma ExitConserves(s: State, t: Tid, s': State)
    requires Conserved(s) && DoExit(s, t, s')
    ensures Conserved(s')
  {
    assert Carrying(s, t);
    var cs := [s.cur[t].value];
    StateOf(s, InCur(t), cs[0]);
    assert s'.co == s.co[cs[0] := Dead] && !s'.aborted;
    Relay(s, s', t, cs, InCur(t), Gone);
  }

  lemma AcceptConserves(s: State, t: Tid, s': State)
    requires Conserved(s) && DoAccept(s, t, s')
    ensures Conserved(s')
  {
    assert Carrying(s, t);
    var cs := [s.cur[t].value];
    assert Has(s, InCur(t), cs[0]);
    Relay(s, s', t, cs, InCur(t), InSlot);
  }

  lemma ExecConserves(s: State, t: Tid, s': State)
    requires Conserved(s) && DoExec(s, t, s')
    ensures Conserved(s')
  {
    StateOf(s, InCur(t), s.cur[t].value);
    assert Carrying(s, t) && RoomOk(s.pc[t], s.ring[t], s.hand[t]);
    CurRestated(s, s', t, Executing);
  }

  lemma YieldConserves(s: State, t: Tid, s': State)
    requires Conserved(s) && DoYield(s, t, s')
    ensures Conserved(s')
  {
    StateOf(s, InCur(t), s.cur[t].value);
    assert Carrying(s, t) && RoomOk(s.pc[t], s.ring[t], s.hand[t]);
    CurRestated(s, s', t, Runnable);
  }

  lemma ParkConserves(s: State, t: Tid, s': State)
    requires Conserved(s) && DoPark(s, t, s')
    ensures Conserved(s')
  {
    StateOf(s, InCur(t), s.cur[t].value);
    assert Carrying(s, t) && RoomOk(s.pc[t], s.ring[t], s.hand[t]);
    CurRestated(s, s', t, Parked);
  }

  lemma RefuseConserves(s: State, t: Tid, s': State)
    requires Conserved(s) && DoRefuse(s, t, s')
    ensures Conserved(s')
  {
    StateOf(s, InCur(t), s.cur[t].value);
    assert Carrying(s, t) && RoomOk(s.pc[t], s.ring[t], s.hand[t]);
    CurRestated(s, s', t, Runnable);
  }

  lemma EnqNextMoves(s: State, t: Tid, s': State)
    requires Shape(s) && PlacesOk(s) && NoDups(s) && ThreadsOk(s) && DoEnqNext(s, t, s')
    ensures PlacesOk(s') && NoDups(s')
  {
    var c := s.hand[t][0];
    assert s.hand[t] == [c] && Has(s, InHand(t), c);
    var was := s'.hand[t];
    forall d | d in was ensures Has(s, InRunnext(t), d) { }
    forall p, d ensures Has(s', p, d) <==>
      if d in [c] then p == InRunnext(t) else if d in was then p == InHand(t) else Has(s, p, d) {
      assert Has(s, p, d) <==> d in s.place && s.place[d] == p;
      assert d in was ==> Has(s, InRunnext(t), d);
    }
    MovedKeeps(s, s', [c], InRunnext(t), was, InHand(t));
  }

  lemma EnqNextStates(s: State, t: Tid, s': State)
    requires Shape(s) && PlacesOk(s) && StatesFit(s) && DoEnqNext(s, t, s')
    ensures StatesFit(s')
  {
    forall d | d in s'.place ensures d in s'.co && s'.co[d] == StateAt(s', s'.place[d]) {
      assert Has(s, s.place[d], d);
      assert d in s'.hand[t] ==> Has(s, InRunnext(t), d);
      assert d in s.hand[t] ==> Has(s, InHand(t), d);
    }
  }

  lemma EnqNextConserves(s: State, t: Tid, s': State)
    requires Conserved(s) && DoEnqNext(s, t, s')
    ensures Conserved(s')
  {
    assert Carrying(s, t) && RoomOk(s.pc[t], s.ring[t], s.hand[t]);
    EnqNextMoves(s, t, s');
    CarryThreads(s, s', t);
    EnqNextStates(s, t, s');
  }

  lemma EnqHalfMoves(s: State, t: Tid, grab: nat, s': State)
    requires Shape(s) && PlacesOk(s) && NoDups(s) && ThreadsOk(s) && DoEnqHalf(s, t, grab, s')
    ensures Moves(s, s', s.ring[t][..grab], InRing(t), InHand(t)) && NoDups(s')
  {
    var ring, cs := s.ring[t], s.ring[t][..grab];
    assert NoDup(ring) && NoDup(s.hand[t]) && ring == cs + ring[grab..];
    assert forall d :: d in ring[grab..] <==> d in ring && d !in cs;
    forall d | d in s.hand[t] ensures d !in cs {
      assert Has(s, InHand(t), d) && !Has(s, InRing(t), d);
    }
    NoDupAppend(cs, s.hand[t]);
    forall p: Place, d | !p.Gone?
      ensures Has(s', p, d) <==> (Has(s, p, d) && !(p == InRing(t) && d in cs)) || (p == InHand(t) && d in cs) { }
  }

  lemma EnqHalfConserves(s: State, t: Tid, grab: nat, s': State)
    requires Conserved(s) && DoEnqHalf(s, t, grab, s')
    ensures Conserved(s')
  {
    assert Carrying(s, t) && RoomOk(s.pc[t], s.ring[t], s.hand[t]);
    EnqHalfMoves(s, t, grab, s');
    Transfer(s, s', t, s.ring[t][..grab], InRing(t), InHand(t));
  }

  lemma SpawnPlaces(s: State, t: Tid, c: Coro, s': State)
    requires Shape(s) && PlacesOk(s) && ThreadsOk(s) && DoSpawn(s, t, c, s')
    ensures PlacesOk(s')
  {
    assert Carrying(s, t);
    forall p, d ensures Has(s', p, d) <==> d in s'.place && s'.place[d] == p {
      assert Has(s, p, d) <==> d in s.place && s.place[d] == p;
    }
  }

  lemma SpawnThreads(s: State, t: Tid, c: Coro, s': State)
    requires Shape(s) && ThreadsOk(s) && NoDups(s) && DoSpawn(s, t, c, s')
    ensures Shape(s') && OthersCarry(s, s', t) && ThreadsOk(s') && NoDups(s')
  {
    assert Carrying(s, t);
    CarryThreads(s, s', t);
  }

  /** The new coroutine is in the state its place calls for, and no other changes. */
  lemma SpawnStates(s: State, t: Tid, c: Coro, s': State)
    requires Shape(s) && PlacesOk(s) && ThreadsOk(s) && StatesFit(s) && DoSpawn(s, t, c, s') && Shape(s')
    ensures |s'.pc| == |s.pc| && StatesLocal(s, s', t, [c])
  {
    NoClaim(s, t);
    CurStays(s, t, c, s');
  }

  lemma NoClaim(s: State, t: Tid)
    requires Shape(s) && PlacesOk(s) && ThreadsOk(s) && IsAgent(s, t)
    ensures forall d :: d in s.place ==> s.place[d] != InClaim(t)
  {
    assert Carrying(s, t);
    forall d | d in s.place ensures s.place[d] != InClaim(t) {
      assert !Has(s, InClaim(t), d);
    }
  }

  lemma CurStays(s: State, t: Tid, c: Coro, s': State)
    requires Shape(s) && DoSpawn(s, t, c, s') && Shape(s')
    ensures StateAt(s', InCur(t)) == StateAt(s, InCur(t)) && StateAt(s', InClaim(t)) == New
  {
  }

  lemma SpawnConserves(s: State, t: Tid, c: Coro, s': State)
    requires Conserved(s) && DoSpawn(s, t, c, s')
    ensures Conserved(s')
  {
    SpawnPlaces(s, t, c, s');
    SpawnThreads(s, t, c, s');
    SpawnStates(s, t, c, s');
    CarryStates(s, s', t, [c]);
  }

  // ---- steps that carry nothing ----------------------------------------------------------------------------------

  /** Only thread `t`'s program counter, and no coroutine, moved. */
  lemma StillConserves(s: State, s': State, t: Tid)
    requires Conserved(s) && t < |s.pc| && Shape(s') && SameData(s, s') && s'.co == s.co && !s'.aborted
    requires forall u :: 0 <= u < |s.pc| && u != t ==> s'.pc[u] == s.pc[u] && s'.sub[u] == s.sub[u]
    requires CarriesOk(s'.pc[t], s'.sub[t], s.cur[t], s.hand[t], s.claim[t])
    requires t < s.n ==> RoomOk(s'.pc[t], s.ring[t], s.hand[t])
    requires s.cur[t].Some? ==> StateAt(s', InCur(t)) == StateAt(s, InCur(t))
    requires s.claim[t].Some? ==> StateAt(s', InClaim(t)) == StateAt(s, InClaim(t))
    ensures Conserved(s')
  {
    SamePlaces(s, s');
    CarryThreads(s, s', t);
    forall c | c in s.place ensures s.place[c] == InCur(t) ==> s.cur[t].Some?
                            ensures s.place[c] == InClaim(t) ==> s.claim[t].Some? {
      assert Has(s, s.place[c], c);
    }
    CarryStates(s, s', t, []);
  }

  lemma MoveConserves(s: State, t: Tid, fair: bool, s': State)
    requires Conserved(s) && DoMove(s, t, fair, s')
    ensures Conserved(s')
  {
    assert Carrying(s, t) && (t < s.n ==> RoomOk(s.pc[t], s.ring[t], s.hand[t]));
    StillConserves(s, s', t);
  }

  lemma NoSearchConserves(s: State, t: Tid, s': State)
    requires Conserved(s) && DoNoSearch(s, t, s')
    ensures Conserved(s')
  {
    assert Carrying(s, t) && (t < s.n ==> RoomOk(s.pc[t], s.ring[t], s.hand[t]));
    StillConserves(s, s', t);
  }

  lemma SearchConserves(s: State, t: Tid, s': State)
    requires Conserved(s) && DoSearch(s, t, s')
    ensures Conserved(s')
  {
    assert Carrying(s, t) && (t < s.n ==> RoomOk(s.pc[t], s.ring[t], s.hand[t]));
    StillConserves(s, s', t);
  }

  lemma PublishConserves(s: State, t: Tid, s': State)
    requires Conserved(s) && DoPublish(s, t, s')
    ensures Conserved(s')
  {
    assert Carrying(s, t) && (t < s.n ==> RoomOk(s.pc[t], s.ring[t], s.hand[t]));
    StillConserves(s, s', t);
  }

  lemma SemWaitConserves(s: State, t: Tid, timeout: bool, s': State)
    requires Conserved(s) && DoSemWait(s, t, timeout, s')
    ensures Conserved(s')
  {
    assert Carrying(s, t) && (t < s.n ==> RoomOk(s.pc[t], s.ring[t], s.hand[t]));
    StillConserves(s, s', t);
  }

  lemma PollerCasConserves(s: State, t: Tid, s': State)
    requires Conserved(s) && DoPollerCas(s, t, s')
    ensures Conserved(s')
  {
    assert Carrying(s, t) && (t < s.n ==> RoomOk(s.pc[t], s.ring[t], s.hand[t]));
    StillConserves(s, s', t);
  }

  lemma PollerReleaseConserves(s: State, t: Tid, s': State)
    requires Conserved(s) && DoPollerRelease(s, t, s')
    ensures Conserved(s')
  {
    assert Carrying(s, t) && (t < s.n ==> RoomOk(s.pc[t], s.ring[t], s.hand[t]));
    StillConserves(s, s', t);
  }

  lemma FlushWakeupConserves(s: State, t: Tid, s': State)
    requires Conserved(s) && DoFlushWakeup(s, t, s')
    ensures Conserved(s')
  {
    assert Carrying(s, t) && (t < s.n ==> RoomOk(s.pc[t], s.ring[t], s.hand[t]));
    StillConserves(s, s', t);
  }

  lemma NotifyTimerConserves(s: State, t: Tid, owner: nat, s': State)
    requires Conserved(s) && DoNotifyTimer(s, t, owner, s')
    ensures Conserved(s')
  {
    assert Carrying(s, t) && (t < s.n ==> RoomOk(s.pc[t], s.ring[t], s.hand[t]));
    StillConserves(s, s', t);
  }

  lemma StartBatchConserves(s: State, t: Tid, s': State)
    requires Conserved(s) && DoStartBatch(s, t, s')
    ensures Conserved(s')
  {
    assert Carrying(s, t) && (t < s.n ==> RoomOk(s.pc[t], s.ring[t], s.hand[t]));
    StillConserves(s, s', t);
  }

  lemma EndBatchConserves(s: State, t: Tid, s': State)
    requires Conserved(s) && DoEndBatch(s, t, s')
    ensures Conserved(s')
  {
    assert Carrying(s, t) && (t < s.n ==> RoomOk(s.pc[t], s.ring[t], s.hand[t]));
    StillConserves(s, s', t);
  }

  lemma UnlockConserves(s: State, t: Tid, s': State)
    requires Conserved(s) && DoUnlock(s, t, s')
    ensures Conserved(s')
  {
    assert Carrying(s, t) && (t < s.n ==> RoomOk(s.pc[t], s.ring[t], s.hand[t]));
    StillConserves(s, s', t);
  }

  lemma WakeReadConserves(s: State, t: Tid, s': State)
    requires Conserved(s) && DoWakeRead(s, t, s')
    ensures Conserved(s')
  {
    assert Carrying(s, t) && (t < s.n ==> RoomOk(s.pc[t], s.ring[t], s.hand[t]));
    StillConserves(s, s', t);
  }

  lemma ReserveConserves(s: State, t: Tid, target: nat, s': State)
    requires Conserved(s) && DoReserve(s, t, target, s')
    ensures Conserved(s')
  {
    assert Carrying(s, t) && (t < s.n ==> RoomOk(s.pc[t], s.ring[t], s.hand[t]));
    StillConserves(s, s', t);
  }

  lemma SkipReserveConserves(s: State, t: Tid, s': State)
    requires Conserved(s) && DoSkipReserve(s, t, s')
    ensures Conserved(s')
  {
    assert Carrying(s, t) && (t < s.n ==> RoomOk(s.pc[t], s.ring[t], s.hand[t]));
    StillConserves(s, s', t);
  }

  lemma NotifyConserves(s: State, t: Tid, s': State)
    requires Conserved(s) && DoNotify(s, t, s')
    ensures Conserved(s')
  {
    assert Carrying(s, t) && (t < s.n ==> RoomOk(s.pc[t], s.ring[t], s.hand[t]));
    StillConserves(s, s', t);
  }

  lemma SignalConserves(s: State, t: Tid, s': State)
    requires Conserved(s) && DoSignal(s, t, s')
    ensures Conserved(s')
  {
    assert Carrying(s, t) && (t < s.n ==> RoomOk(s.pc[t], s.ring[t], s.hand[t]));
    StillConserves(s, s', t);
  }

  /** Every step keeps every coroutine at exactly one place and in the state that place calls for. */
  lemma NextConserves(s: State, a: Action, s': State)
    requires Conserved(s) && Next(s, a, s')
    ensures Conserved(s')
  {
    match a.kind
    case AFairPop => FairPopConserves(s, a.t, s');
    case ATakeNext => TakeNextConserves(s, a.t, s');
    case ATakeRing => TakeRingConserves(s, a.t, s');
    case ATakeRunq => TakeRunqConserves(s, a.t, s');
    case APushRest => PushRestConserves(s, a.t, s');
    case AStealRing => StealRingConserves(s, a.t, a.x, s');
    case AStealNext => StealNextConserves(s, a.t, s');
    case AEndDispatch => EndDispatchConserves(s, a.t, s');
    case ADispatchFirst => DispatchFirstConserves(s, a.t, s');
    case ADispatchMore => DispatchMoreConserves(s, a.t, s');
    case AClaimEvent => ClaimEventConserves(s, a.t, a.x, s');
    case AExec => ExecConserves(s, a.t, s');
    case AExit => ExitConserves(s, a.t, s');
    case AYield => YieldConserves(s, a.t, s');
    case APark => ParkConserves(s, a.t, s');
    case AAccept => AcceptConserves(s, a.t, s');
    case ARefuse => RefuseConserves(s, a.t, s');
    case ALocalEnq => LocalEnqConserves(s, a.t, s');
    case AReady => ReadyConserves(s, a.t, s');
    case AEnqNext => EnqNextConserves(s, a.t, s');
    case AEnqPush => EnqPushConserves(s, a.t, s');
    case AEnqHalf => EnqHalfConserves(s, a.t, a.x, s');
    case AFlushRunq => FlushRunqConserves(s, a.t, s');
    case AClaim => ClaimConserves(s, a.t, a.x, s');
    case ASpawn => SpawnConserves(s, a.t, a.x, s');
    case AClaimForBatch => ClaimForBatchConserves(s, a.t, a.x, s');
    case ABatchReady => BatchReadyConserves(s, a.t, s');
    case AFlushBatch => FlushBatchConserves(s, a.t, s');
    case ANoSearch => NoSearchConserves(s, a.t, s');
    case AMove => MoveConserves(s, a.t, a.b, s');
    case ASemWait => SemWaitConserves(s, a.t, a.b, s');
    case APollerCas => PollerCasConserves(s, a.t, s');
    case APollerRelease => PollerReleaseConserves(s, a.t, s');
    case AFlushWakeup => FlushWakeupConserves(s, a.t, s');
    case ANotifyTimer => NotifyTimerConserves(s, a.t, a.x, s');
    case AStartBatch => StartBatchConserves(s, a.t, s');
    case AEndBatch => EndBatchConserves(s, a.t, s');
    case ASearch => SearchConserves(s, a.t, s');
    case APublish => PublishConserves(s, a.t, s');
    case AUnlock => UnlockConserves(s, a.t, s');
    case AWakeRead => WakeReadConserves(s, a.t, s');
    case AReserve => ReserveConserves(s, a.t, a.x, s');
    case ASkipReserve => SkipReserveConserves(s, a.t, s');
    case ANotify => NotifyConserves(s, a.t, s');
    case ASignal => SignalConserves(s, a.t, s');
  }
}
