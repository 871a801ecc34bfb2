/** Every step of the worker loop keeps the control invariant. */
module SchedulerSteps {
  import opened Prelude
  import opened SchedulerModel
  import opened SchedulerControl
  import opened SchedulerFrame

  lemma PlainFairPop(s: State, t: Tid, s': State)
    requires Here(s, t) && DoFairPop(s, t, s')
    ensures Plain(s, s', t)
  {
  }

  lemma PlainTakeNext(s: State, t: Tid, s': State)
    requires Here(s, t) && DoTakeNext(s, t, s')
    ensures Plain(s, s', t)
  {
  }

  lemma PlainTakeRing(s: State, t: Tid, s': State)
    requires Here(s, t) && DoTakeRing(s, t, s')
    ensures Plain(s, s', t)
  {
  }

  lemma PlainTakeRunq(s: State, t: Tid, s': State)
    requires Here(s, t) && DoTakeRunq(s, t, s')
    ensures Plain(s, s', t)
  {
  }

  lemma PlainPushRest(s: State, t: Tid, s': State)
    requires Here(s, t) && DoPushRest(s, t, s')
    ensures Plain(s, s', t)
  {
  }

  lemma PlainNoSearch(s: State, t: Tid, s': State)
    requires Here(s, t) && DoNoSearch(s, t, s')
    ensures Plain(s, s', t)
  {
  }

  lemma PlainStealNext(s: State, t: Tid, s': State)
    requires Here(s, t) && DoStealNext(s, t, s')
    ensures Plain(s, s', t)
  {
  }

  lemma PlainPollerCas(s: State, t: Tid, s': State)
    requires Here(s, t) && DoPollerCas(s, t, s')
    ensures Plain(s, s', t)
  {
  }

  lemma PlainPollerRelease(s: State, t: Tid, s': State)
    requires Here(s, t) && DoPollerRelease(s, t, s')
    ensures Plain(s, s', t)
  {
  }

  lemma PlainFlushWakeup(s: State, t: Tid, s': State)
    requires Here(s, t) && DoFlushWakeup(s, t, s')
    ensures Plain(s, s', t)
  {
  }

  lemma PlainEndDispatch(s: State, t: Tid, s': State)
    requires Here(s, t) && DoEndDispatch(s, t, s')
    ensures Plain(s, s', t)
  {
  }

  lemma PlainDispatchFirst(s: State, t: Tid, s': State)
    requires Here(s, t) && DoDispatchFirst(s, t, s')
    ensures Plain(s, s', t)
  {
  }

  lemma PlainDispatchMore(s: State, t: Tid, s': State)
    requires Here(s, t) && DoDispatchMore(s, t, s')
    ensures Plain(s, s', t)
  {
  }

  lemma PlainExec(s: State, t: Tid, s': State)
    requires Here(s, t) && DoExec(s, t, s')
    ensures Plain(s, s', t)
  {
  }

  lemma PlainExit(s: State, t: Tid, s': State)
    requires Here(s, t) && DoExit(s, t, s')
    ensures Plain(s, s', t)
  {
  }

  lemma PlainYield(s: State, t: Tid, s': State)
    requires Here(s, t) && DoYield(s, t, s')
    ensures Plain(s, s', t)
  {
  }

  lemma PlainPark(s: State, t: Tid, s': State)
    requires Here(s, t) && DoPark(s, t, s')
    ensures Plain(s, s', t)
  {
  }

  lemma PlainAccept(s: State, t: Tid, s': State)
    requires Here(s, t) && DoAccept(s, t, s')
    ensures Plain(s, s', t)
  {
  }

  lemma PlainRefuse(s: State, t: Tid, s': State)
    requires Here(s, t) && DoRefuse(s, t, s')
    ensures Plain(s, s', t)
  {
  }

  lemma PlainLocalEnq(s: State, t: Tid, s': State)
    requires Here(s, t) && DoLocalEnq(s, t, s')
    ensures Plain(s, s', t)
  {
  }

  lemma PlainReady(s: State, t: Tid, s': State)
    requires Here(s, t) && DoReady(s, t, s')
    ensures Plain(s, s', t)
  {
  }

  lemma PlainEnqNext(s: State, t: Tid, s': State)
    requires Here(s, t) && DoEnqNext(s, t, s')
    ensures Plain(s, s', t)
  {
  }

  lemma PlainEnqPush(s: State, t: Tid, s': State)
    requires Here(s, t) && DoEnqPush(s, t, s')
    ensures Plain(s, s', t)
  {
  }

  lemma PlainFlushRunq(s: State, t: Tid, s': State)
    requires Here(s, t) && DoFlushRunq(s, t, s')
    ensures Plain(s, s', t)
  {
  }

  lemma PlainStartBatch(s: State, t: Tid, s': State)
    requires Here(s, t) && DoStartBatch(s, t, s')
    ensures Plain(s, s', t)
  {
  }

  lemma PlainBatchReady(s: State, t: Tid, s': State)
    requires Here(s, t) && DoBatchReady(s, t, s')
    ensures Plain(s, s', t)
  {
  }

  lemma PlainFlushBatch(s: State, t: Tid, s': State)
    requires Here(s, t) && DoFlushBatch(s, t, s')
    ensures Plain(s, s', t)
  {
  }

  lemma PlainEndBatch(s: State, t: Tid, s': State)
    requires Here(s, t) && DoEndBatch(s, t, s')
    ensures Plain(s, s', t)
  {
  }

  /** The three moves that rest on having seen a queue empty. */
  lemma PlainMiss(s: State, t: Tid, fair: bool, s': State)
    requires Here(s, t) && DoMove(s, t, fair, s') && TakePc(s.pc[t])
    ensures Plain(s, s', t)
  {
  }

  predicate SearchPc(pc: Pc) { pc.TakePush? || pc.StealPush? || pc.Steal? }

  lemma SearchFlow(pc: Pc, fair: bool, last: bool, st: WState, cur: Option<Coro>)
    requires Wf(pc, NoCall) && SearchPc(pc) && Onward(pc, fair, last, cur).Some?
    ensures Flow(pc, Onward(pc, fair, last, cur).value, st, cur)
  {
  }

  lemma LoopFlow(pc: Pc, fair: bool, last: bool, st: WState, cur: Option<Coro>)
    requires Wf(pc, NoCall) && !TakePc(pc) && !SearchPc(pc) && Onward(pc, fair, last, cur).Some?
    ensures Flow(pc, Onward(pc, fair, last, cur).value, st, cur)
  {
  }

  lemma PlainMove(s: State, t: Tid, fair: bool, s': State)
    requires Here(s, t) && DoMove(s, t, fair, s')
    ensures Plain(s, s', t)
  {
    if TakePc(s.pc[t]) {
      PlainMiss(s, t, fair, s');
    } else {
      var last := s.pc[t].Steal? && s.pc[t].i >= 2 * (s.n - 1);
      if SearchPc(s.pc[t]) {
        SearchFlow(s.pc[t], fair, last, s.st[t], s.cur[t]);
      } else {
        LoopFlow(s.pc[t], fair, last, s.st[t], s.cur[t]);
      }
      FlowPlain(s, t, s'.pc[t]);
    }
  }

  lemma PlainStealRing(s: State, t: Tid, grab: nat, s': State)
    requires Here(s, t) && DoStealRing(s, t, grab, s')
    ensures Plain(s, s', t)
  {
  }

  lemma PlainSemWait(s: State, t: Tid, timeout: bool, s': State)
    requires Here(s, t) && DoSemWait(s, t, timeout, s')
    ensures Plain(s, s', t)
  {
  }

  lemma PlainClaimEvent(s: State, t: Tid, c: Coro, s': State)
    requires Here(s, t) && DoClaimEvent(s, t, c, s')
    ensures Plain(s, s', t)
  {
  }

  lemma PlainEnqHalf(s: State, t: Tid, grab: nat, s': State)
    requires Here(s, t) && DoEnqHalf(s, t, grab, s')
    ensures Plain(s, s', t)
  {
  }

  lemma PlainClaim(s: State, t: Tid, c: Coro, s': State)
    requires Here(s, t) && DoClaim(s, t, c, s')
    ensures Plain(s, s', t)
  {
  }

  lemma PlainSpawn(s: State, t: Tid, c: Coro, s': State)
    requires Here(s, t) && DoSpawn(s, t, c, s')
    ensures Plain(s, s', t)
  {
  }

  lemma PlainNotifyTimer(s: State, t: Tid, owner: nat, s': State)
    requires Here(s, t) && DoNotifyTimer(s, t, owner, s')
    ensures Plain(s, s', t)
  {
  }

  lemma PlainClaimForBatch(s: State, t: Tid, c: Coro, s': State)
    requires Here(s, t) && DoClaimForBatch(s, t, c, s')
    ensures Plain(s, s', t)
  {
  }

  // ---- the steps that move worker states, counters or signals ----------------------------------------------------

  lemma SearchKeeps(s: State, t: Tid, s': State)
    requires Inv(s) && Here(s, t) && DoSearch(s, t, s')
    ensures Inv(s')
  {
    AcquireKeeps(s, t, t, Searching, Steal(s.pc[t].quest, 0), Return);
  }

  lemma PublishLocal(s: State, t: Tid, s': State)
    requires Here(s, t) && DoPublish(s, t, s') && s'.st[t] != s.st[t]
    ensures var (to, pc, after) := Publication(s.pc[t], s.st[t]).value;
            to == s'.st[t] && AcquireLocal(s, t, t, to, pc, after)
  {
    if IdleState(s'.st[t]) { PublishIdle(s, t, s'); } else { PublishBusy(s, t, s'); }
  }

  lemma PublishIdle(s: State, t: Tid, s': State)
    requires Here(s, t) && DoPublish(s, t, s') && s'.st[t] != s.st[t] && IdleState(s'.st[t])
    ensures var (to, pc, after) := Publication(s.pc[t], s.st[t]).value;
            to == s'.st[t] && AcquireLocal(s, t, t, to, pc, after)
  {
  }

  lemma PublishBusy(s: State, t: Tid, s': State)
    requires Here(s, t) && DoPublish(s, t, s') && s'.st[t] != s.st[t] && !IdleState(s'.st[t])
    ensures var (to, pc, after) := Publication(s.pc[t], s.st[t]).value;
            to == s'.st[t] && AcquireLocal(s, t, t, to, pc, after)
  {
  }

  lemma PublishFlow(pc: Pc, st: WState, cur: Option<Coro>)
    requires Wf(pc, NoCall) && Publication(pc, st).Some? && Publication(pc, st).value.0 == st
    ensures Flow(pc, Publication(pc, st).value.1, st, cur) && Publication(pc, st).value.2.Return?
  {
  }

  lemma PlainPublish(s: State, t: Tid, s': State)
    requires Here(s, t) && DoPublish(s, t, s') && s'.st[t] == s.st[t]
    ensures Plain(s, s', t)
  {
    PublishFlow(s.pc[t], s.st[t], s.cur[t]);
    FlowPlain(s, t, s'.pc[t]);
    assert s'.st == s.st && s'.sub == s.sub;
    assert s' == Go(s, t, s'.pc[t]);
  }

  lemma PublishKeeps(s: State, t: Tid, s': State)
    requires Inv(s) && Here(s, t) && DoPublish(s, t, s')
    ensures Inv(s')
  {
    if s'.st[t] == s.st[t] {
      PlainPublish(s, t, s');
      PlainKeeps(s, s', t);
    } else {
      PublishLocal(s, t, s');
      var (to, pc, after) := Publication(s.pc[t], s.st[t]).value;
      AcquireKeeps(s, t, t, to, pc, after);
    }
  }

  lemma SomeSearcher(s: State, t: Tid, s': State)
    requires Shape(s) && LockOk(s) && CounterOk(s, false) && s.numSearching != 0 && Shape(s') && s'.n == s.n
    requires s'.st == s.st
    ensures WorkCared(s')
  {
    if s.lock.Some? && s.lock.value.to.Searching? {
      assert Hot(s', s.lock.value.worker);
    } else {
      assert |Those(s.st, false)| != 0;
      var w :| w in Those(s.st, false);
      assert Hot(s', w);
    }
  }

  lemma NobodyIdle(s: State, t: Tid, s': State)
    requires Shape(s) && LockOk(s) && CounterOk(s, true) && s.numIdle == 0
    requires Shape(s') && s'.n == s.n && s'.st == s.st && s'.pc == s.pc
    ensures WorkCared(s')
  {
    if w :| w in Those(s.st, true) {
      var h := s.lock.value.holder;
      assert Those(s.st, true) == {h} by {
        assert h in Those(s.st, true) && |Those(s.st, true) - {h}| == 0;
      }
      assert Hot(s', h);
    } else {
      assert forall w :: 0 <= w < s.n && IdleState(s.st[w]) ==> w in Those(s.st, true);
    }
  }

  lemma WakeReadKeeps(s: State, t: Tid, s': State)
    requires Inv(s) && Here(s, t) && DoWakeRead(s, t, s')
    ensures Inv(s')
  {
    assert Calm(s, s', t);
    if s'.sub[t].NoCall? {
      if s.sub[t].Wake0? { SomeSearcher(s, t, s'); } else { NobodyIdle(s, t, s'); }
      CalmKeeps(s, s', t);
    } else {
      PlainKeeps(s, s', t);
    }
  }

  lemma ReserveLocal(s: State, t: Tid, target: nat, s': State)
    requires Here(s, t) && DoReserve(s, t, target, s')
    ensures AcquireLocal(s, t, target, Searching, s.pc[t], ThenSignal(target, s.st[target], false))
  {
  }

  lemma ReserveKeeps(s: State, t: Tid, target: nat, s': State)
    requires Inv(s) && Here(s, t) && DoReserve(s, t, target, s')
    ensures Inv(s')
  {
    ReserveLocal(s, t, target, s');
    AcquireKeeps(s, t, target, Searching, s.pc[t], ThenSignal(target, s.st[target], false));
  }

  lemma CalmSkipReserve(s: State, t: Tid, s': State)
    requires Here(s, t) && DoSkipReserve(s, t, s')
    ensures Calm(s, s', t)
  {
  }

  lemma SkipReserveKeeps(s: State, t: Tid, s': State)
    requires Inv(s) && Here(s, t) && DoSkipReserve(s, t, s')
    ensures Inv(s')
  {
    CalmSkipReserve(s, t, s');
    if s.numSearching != 0 { SomeSearcher(s, t, s'); } else if s.numIdle == 0 { NobodyIdle(s, t, s'); }
    CalmKeeps(s, s', t);
  }

  lemma NotifyLocal(s: State, t: Tid, s': State)
    requires Here(s, t) && DoNotify(s, t, s') && IdleState(s.st[s.sub[t].owner])
    ensures AcquireLocal(s, t, s.sub[t].owner, Searching, s.pc[t], NotifyPlan(s, s.sub[t].owner))
  {
  }

  lemma PlainNotify(s: State, t: Tid, s': State)
    requires Here(s, t) && DoNotify(s, t, s') && !IdleState(s.st[s.sub[t].owner])
    ensures Plain(s, s', t)
  {
  }

  lemma NotifyKeeps(s: State, t: Tid, s': State)
    requires Inv(s) && Here(s, t) && DoNotify(s, t, s')
    ensures Inv(s')
  {
    if IdleState(s.st[s.sub[t].owner]) {
      NotifyLocal(s, t, s');
      AcquireKeeps(s, t, s.sub[t].owner, Searching, s.pc[t], NotifyPlan(s, s.sub[t].owner));
    } else {
      PlainNotify(s, t, s');
      PlainKeeps(s, s', t);
    }
  }

  lemma SignalLocal(s: State, t: Tid, s': State)
    requires Here(s, t) && DoSignal(s, t, s')
    ensures Frame(s, s', t) && SameStates(s, s') && PcLocal(s, s', t) && PollerLocal(s, s', t)
    ensures RegionLocal(s, s', t) && QuietLocal(s', t) && CareLocal(s, s', t)
    ensures forall w, kind :: 0 <= w < s.n && IdleState(kind) && WillSignal(s.sub[t], w, kind) ==>
              Signalled(s', w, kind)
  {
    forall w, kind | 0 <= w < s.n && IdleState(kind) && WillSignal(s.sub[t], w, kind) ensures Signalled(s', w, kind) {
      assert WillSignal(s'.sub[t], w, kind) || s'.sem[w] > 0 || s'.wakeBytes > 0;
    }
  }

  lemma SignalKeeps(s: State, t: Tid, s': State)
    requires Inv(s) && Here(s, t) && DoSignal(s, t, s')
    ensures Inv(s')
  {
    SignalLocal(s, t, s');
    CarrySignals(s, s', t);
    PlainOrderly(s, s', t);
    CarryCare(s, s', t);
  }

  lemma HereFrom(s: State, t: Tid)
    requires Orderly(s) && t < |s.pc|
    ensures Here(s, t)
  {
  }

  lemma QueueStepPlain(s: State, a: Action, s': State)
    requires Shape(s) && QueueStep(s, a, s')
    ensures a.t < |s.pc|
    ensures Here(s, a.t) ==> Plain(s, s', a.t)
  {
    if a.t < |s.pc| && Here(s, a.t) {
      match a.kind
      case AFairPop => PlainFairPop(s, a.t, s');
      case ATakeNext => PlainTakeNext(s, a.t, s');
      case ATakeRing => PlainTakeRing(s, a.t, s');
      case ATakeRunq => PlainTakeRunq(s, a.t, s');
      case APushRest => PlainPushRest(s, a.t, s');
      case ANoSearch => PlainNoSearch(s, a.t, s');
      case AStealNext => PlainStealNext(s, a.t, s');
      case APollerCas => PlainPollerCas(s, a.t, s');
      case APollerRelease => PlainPollerRelease(s, a.t, s');
      case AFlushWakeup => PlainFlushWakeup(s, a.t, s');
      case AEndDispatch => PlainEndDispatch(s, a.t, s');
      case ADispatchFirst => PlainDispatchFirst(s, a.t, s');
      case ADispatchMore => PlainDispatchMore(s, a.t, s');
      case AExec => PlainExec(s, a.t, s');
      case AExit => PlainExit(s, a.t, s');
      case AYield => PlainYield(s, a.t, s');
      case APark => PlainPark(s, a.t, s');
      case AAccept => PlainAccept(s, a.t, s');
      case ARefuse => PlainRefuse(s, a.t, s');
      case ALocalEnq => PlainLocalEnq(s, a.t, s');
      case AReady => PlainReady(s, a.t, s');
      case AEnqNext => PlainEnqNext(s, a.t, s');
      case AEnqPush => PlainEnqPush(s, a.t, s');
      case AFlushRunq => PlainFlushRunq(s, a.t, s');
      case AStartBatch => PlainStartBatch(s, a.t, s');
      case ABatchReady => PlainBatchReady(s, a.t, s');
      case AFlushBatch => PlainFlushBatch(s, a.t, s');
      case AEndBatch => PlainEndBatch(s, a.t, s');
      case AMove => PlainMove(s, a.t, a.b, s');
      case AStealRing => PlainStealRing(s, a.t, a.x, s');
      case ASemWait => PlainSemWait(s, a.t, a.b, s');
      case AClaimEvent => PlainClaimEvent(s, a.t, a.x, s');
      case AEnqHalf => PlainEnqHalf(s, a.t, a.x, s');
      case AClaim => PlainClaim(s, a.t, a.x, s');
      case ASpawn => PlainSpawn(s, a.t, a.x, s');
      case ANotifyTimer => PlainNotifyTimer(s, a.t, a.x, s');
      case AClaimForBatch => PlainClaimForBatch(s, a.t, a.x, s');
    }
  }

  lemma WakeProtocolStepKeeps(s: State, a: Action, s': State)
    requires Inv(s) && WakeProtocolStep(s, a, s')
    ensures Inv(s')
  {
    HereFrom(s, a.t);
    match a.kind
    case ASearch => SearchKeeps(s, a.t, s');
    case APublish => PublishKeeps(s, a.t, s');
    case AUnlock => UnlockKeeps(s, a.t);
    case AWakeRead => WakeReadKeeps(s, a.t, s');
    case AReserve => ReserveKeeps(s, a.t, a.x, s');
    case ASkipReserve => SkipReserveKeeps(s, a.t, s');
    case ANotify => NotifyKeeps(s, a.t, s');
    case ASignal => SignalKeeps(s, a.t, s');
    case _ =>
  }

  /** The control invariant is kept by every step. */
  lemma NextKeeps(s: State, a: Action, s': State)
    requires Inv(s) && Next(s, a, s')
    ensures Inv(s')
  {
    if QueueStep(s, a, s') {
      QueueStepPlain(s, a, s');
      HereFrom(s, a.t);
      PlainKeeps(s, s', a.t);
    } else {
      WakeProtocolStepKeeps(s, a, s');
    }
  }
}
