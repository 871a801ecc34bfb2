/** What one step of thread `t` has to show locally for the control invariant to survive. */
module SchedulerFrame {
  import opened Prelude
  import opened SchedulerModel
  import opened SchedulerControl

  /** Nothing outside thread `t` moves, except that queues of other workers may be robbed. */
  predicate Frame(s: State, s': State, t: Tid)
    requires Shape(s) && t < |s.pc|
  {
    && Shape(s') && s'.n == s.n && |s'.pc| == |s.pc|
    && (forall u :: 0 <= u < |s.pc| && u != t ==> s'.pc[u] == s.pc[u] && s'.sub[u] == s.sub[u] && s'.cur[u] == s.cur[u])
    && (forall w :: 0 <= w < s.n && w != t ==>
          && (s'.runnext[w] == s.runnext[w] || s'.runnext[w].None?)
          && (s.ring[w] == [] ==> s'.ring[w] == [])
          && s'.sem[w] >= s.sem[w])
  }

  predicate SameStates(s: State, s': State) {
    s'.st == s.st && s'.lock == s.lock && s'.numSearching == s.numSearching && s'.numIdle == s.numIdle
  }

  predicate PcLocal(s: State, s': State, t: Tid)
    requires Shape(s) && t < |s.pc| && Shape(s') && |s'.pc| == |s.pc|
  {
    && Wf(s'.pc[t], s'.sub[t]) && !s.sub[t].Unlocking? && !s'.sub[t].Unlocking?
    && (s'.pc[t].Outside? <==> t >= s.n)
  }

  predicate PollerLocal(s: State, s': State, t: Tid)
    requires Shape(s) && t < |s.pc| && Shape(s') && |s'.pc| == |s.pc|
  {
    || (&& s'.pollerRunning == s.pollerRunning && s'.pollerBy == s.pollerBy
        && (InPoller(s'.pc[t]) <==> InPoller(s.pc[t]))
        && (s'.pc[t].SemWait? ==> s.pollerRunning || s.pc[t].SemWait?))
    || (!s.pollerRunning && s'.pollerRunning && s'.pollerBy == t < s.n && InPoller(s'.pc[t]))
    || (&& InPoller(s.pc[t]) && !s'.pollerRunning && s'.pollerBy == s.pollerBy
        && !InPoller(s'.pc[t]) && !s'.pc[t].SemWait?)
  }

  predicate RegionLocal(s: State, s': State, t: Tid)
    requires Shape(s) && t < |s.pc| && Shape(s') && |s'.pc| == |s.pc| && s'.n == s.n
  {
    && (s'.wakeBytes >= s.wakeBytes || (InPoller(s.pc[t]) && !PollRegion(s'.pc[t])))
    && (t < s.n && WaitRegion(s'.pc[t]) ==> (WaitRegion(s.pc[t]) && s'.sem[t] >= s.sem[t]) || s'.st[t].Waiting?)
    && (t < s.n && PollRegion(s'.pc[t]) ==> PollRegion(s.pc[t]) || s'.st[t].Polling?)
  }

  predicate QuietLocal(s': State, t: Tid)
    requires Shape(s') && t < |s'.pc|
  {
    t < s'.n ==>
      && (NextTaken(s'.pc[t], s'.cur[t]) ==> s'.runnext[t].None?)
      && (Quiet(s'.pc[t], s'.cur[t]) ==> s'.ring[t] == [])
  }

  /** New global work comes with a wake duty, a duty is kept, and a worker stops being on the look-out only with the
      queue empty or a duty to wake another. */
  predicate CareLocal(s: State, s': State, t: Tid)
    requires Shape(s) && t < |s.pc| && Shape(s') && |s'.pc| == |s.pc| && s'.n == s.n
  {
    && (s'.runq == [] || s.runq != [] || Pending(s'.pc[t], s'.sub[t]) || (s.n == 1 && t == 0 && !Settled(s'.pc[t])))
    && (Pending(s.pc[t], s.sub[t]) ==> Pending(s'.pc[t], s'.sub[t]))
    && (t < s.n && Hot(s, t) ==> Hot(s', t) || Pending(s'.pc[t], s'.sub[t]) || s'.runq == [])
    && (t < s.n && IdleState(s'.st[t]) ==> IdleState(s.st[t]) || Hot(s', t))
    && (Final(s'.pc[t]) ==> Final(s.pc[t]) || s.runq == [])
  }

  /** Other workers keep their state or are reserved as SEARCHING. */
  predicate OthersKept(s: State, s': State, t: Tid)
    requires Shape(s) && Shape(s') && s'.n == s.n
  {
    forall w :: 0 <= w < s.n && w != t ==> s'.st[w] == s.st[w] || (IdleState(s.st[w]) && s'.st[w].Searching?)
  }

  lemma CarryCare(s: State, s': State, t: Tid)
    requires Shape(s) && t < |s.pc| && Frame(s, s', t) && OthersKept(s, s', t) && WorkCared(s) && CareLocal(s, s', t)
    ensures WorkCared(s')
  {
    if s'.runq != [] && !Pending(s'.pc[t], s'.sub[t]) {
      if u :| 0 <= u < |s.pc| && Pending(s.pc[u], s.sub[u]) {
        assert Pending(s'.pc[u], s'.sub[u]);
      } else if w :| 0 <= w < s.n && Hot(s, w) {
        assert Hot(s', w);
      } else if t < s.n && IdleState(s'.st[t]) {
        assert Hot(s', t);
      }
    }
  }

  lemma CarrySignal(s: State, s': State, t: Tid, w: nat, kind: WState)
    requires Shape(s) && t < |s.pc| && Frame(s, s', t) && w < s.n && Signalled(s, w, kind)
    requires kind.Waiting? ==> s'.sem[w] >= s.sem[w]
    requires kind.Polling? ==> s'.wakeBytes >= s.wakeBytes
    requires WillSignal(s.sub[t], w, kind) ==> Signalled(s', w, kind)
    ensures Signalled(s', w, kind)
  {
    if u :| 0 <= u < |s.pc| && WillSignal(s.sub[u], w, kind) {
      assert u != t ==> WillSignal(s'.sub[u], w, kind);
    }
  }

  lemma CarrySignals(s: State, s': State, t: Tid)
    requires Orderly(s) && SignalsOk(s) && t < |s.pc| && Frame(s, s', t) && s'.st == s.st && RegionLocal(s, s', t)
    requires forall w, kind :: 0 <= w < s.n && IdleState(kind) && WillSignal(s.sub[t], w, kind) ==>
               Signalled(s', w, kind)
    ensures SignalsOk(s')
  {
    forall w | 0 <= w < s.n && s'.st[w].Searching?
      ensures WaitRegion(s'.pc[w]) ==> Signalled(s', w, Waiting)
      ensures PollRegion(s'.pc[w]) ==> Signalled(s', w, Polling)
    {
      if WaitRegion(s'.pc[w]) { CarrySignal(s, s', t, w, Waiting); }
      if PollRegion(s'.pc[w]) {
        assert InPoller(s.pc[w]);
        CarrySignal(s, s', t, w, Polling);
      }
    }
  }

  /** The invariant as it concerns thread `t` alone. */
  predicate Here(s: State, t: Tid) {
    && Shape(s) && t < |s.pc|
    && Wf(s.pc[t], s.sub[t]) && (s.pc[t].Outside? <==> t >= s.n)
    && (InPoller(s.pc[t]) <==> s.pollerRunning && s.pollerBy == t)
    && QuietLocal(s, t)
  }

  /** A step that touches neither worker states nor the lock, and sends no signal. */
  predicate Calm(s: State, s': State, t: Tid)
    requires Shape(s) && t < |s.pc|
  {
    && Frame(s, s', t) && SameStates(s, s') && !s.sub[t].Signal?
    && PcLocal(s, s', t) && PollerLocal(s, s', t) && RegionLocal(s, s', t) && QuietLocal(s', t)
  }

  predicate Plain(s: State, s': State, t: Tid)
    requires Shape(s) && t < |s.pc|
  {
    Calm(s, s', t) && CareLocal(s, s', t)
  }

  /** A jump that changes nothing but the program counter: what the two program points have to agree on. */
  predicate Flow(pc: Pc, pc': Pc, st: WState, cur: Option<Coro>) {
    && Wf(pc', NoCall) && (pc'.Outside? <==> pc.Outside?) && (InPoller(pc') <==> InPoller(pc)) && !pc'.SemWait?
    && (WaitRegion(pc') ==> WaitRegion(pc) || st.Waiting?) && (PollRegion(pc') ==> PollRegion(pc) || st.Polling?)
    && (NextTaken(pc', cur) ==> NextTaken(pc, cur)) && (Quiet(pc', cur) ==> Quiet(pc, cur))
    && !pc.Handoff? && (Settled(pc') ==> Settled(pc)) && (Final(pc') ==> Final(pc))
  }

  lemma FlowPlain(s: State, t: Tid, pc': Pc)
    requires Here(s, t) && AtLoop(s, t) && Flow(s.pc[t], pc', s.st[t], s.cur[t])
    ensures Plain(s, Go(s, t, pc'), t)
  {
  }

  lemma PlainOrderly(s: State, s': State, t: Tid)
    requires Orderly(s) && t < |s.pc| && Frame(s, s', t) && SameStates(s, s')
    requires PcLocal(s, s', t) && PollerLocal(s, s', t) && RegionLocal(s, s', t) && QuietLocal(s', t)
    ensures Orderly(s')
  {
  }

  lemma CalmKeeps(s: State, s': State, t: Tid)
    requires Inv(s) && t < |s.pc| && Calm(s, s', t) && WorkCared(s')
    ensures Inv(s')
  {
    CarrySignals(s, s', t);
    PlainOrderly(s, s', t);
  }

  lemma PlainKeeps(s: State, s': State, t: Tid)
    requires Inv(s) && t < |s.pc| && Plain(s, s', t)
    ensures Inv(s')
  {
    CarryCare(s, s', t);
    CalmKeeps(s, s', t);
  }

  /** Moving the worker's own state, or reserving an idle worker that will then be signalled. */
  predicate AcquireLocal(s: State, t: Tid, w: nat, to: WState, pc: Pc, after: After)
    requires Shape(s) && t < |s.pc| && w < s.n
  {
    && !s.sub[t].Signal? && !s.sub[t].Unlocking?
    && Wf(pc, Unlocking(after)) && (pc.Outside? <==> t >= s.n)
    && (InPoller(pc) <==> InPoller(s.pc[t]))
    && (t < s.n ==> NextTaken(pc, s.cur[t]) ==> NextTaken(s.pc[t], s.cur[t]))
    && (t < s.n ==> Quiet(pc, s.cur[t]) ==> Quiet(s.pc[t], s.cur[t]))
    && (Pending(s.pc[t], s.sub[t]) ==> Pending(pc, Unlocking(after)) || to.Searching?)
    && if to.Searching? && IdleState(s.st[w]) && WillSignal(Unlocking(after), w, s.st[w])
       then !WaitRegion(pc) && !PollRegion(pc)
       else
         && w == t
         && (WaitRegion(pc) ==> to.Waiting?) && (PollRegion(pc) ==> to.Polling?)
         && (IdleState(to) ==> TakePc(pc))
         && (to.Running? && Hot(s, t) ==> Pending(pc, Unlocking(after)))
  }

  lemma AcquireSignals(s: State, t: Tid, w: nat, to: WState, pc: Pc, after: After)
    requires Shape(s) && StatesOk(s) && SignalsOk(s) && t < |s.pc| && w < s.n && s.st[w] != to
    requires AcquireLocal(s, t, w, to, pc, after)
    ensures SignalsOk(Transition(s, t, w, to, pc, after))
  {
    var s' := Transition(s, t, w, to, pc, after);
    forall v | 0 <= v < s.n && s'.st[v].Searching?
      ensures WaitRegion(s'.pc[v]) ==> Signalled(s', v, Waiting)
      ensures PollRegion(s'.pc[v]) ==> Signalled(s', v, Polling)
    {
      assert v == t ==> !WaitRegion(s'.pc[t]) && !PollRegion(s'.pc[t]);
      if v == w {
        assert v != t ==> WillSignal(s'.sub[t], w, s.st[w]);
      } else {
        if WaitRegion(s'.pc[v]) { CarrySignal(s, s', t, v, Waiting); }
        if PollRegion(s'.pc[v]) { CarrySignal(s, s', t, v, Polling); }
      }
    }
  }

  lemma AcquireOrderly(s: State, t: Tid, w: nat, to: WState, pc: Pc, after: After)
    requires Orderly(s) && t < |s.pc| && w < s.n && s.lock.None? && s.st[w] != to
    requires AcquireLocal(s, t, w, to, pc, after)
    ensures Orderly(Transition(s, t, w, to, pc, after))
  {
  }

  lemma AcquireCare(s: State, t: Tid, w: nat, to: WState, pc: Pc, after: After)
    requires Shape(s) && WorkCared(s) && t < |s.pc| && w < s.n && s.st[w] != to && AcquireLocal(s, t, w, to, pc, after)
    ensures WorkCared(Transition(s, t, w, to, pc, after))
  {
    var s' := Transition(s, t, w, to, pc, after);
    if to.Searching? {
      assert Hot(s', w);
    } else {
      CarryCare(s, s', t);
    }
  }

  lemma AcquireKeeps(s: State, t: Tid, w: nat, to: WState, pc: Pc, after: After)
    requires Inv(s) && t < |s.pc| && w < s.n && s.lock.None? && s.st[w] != to && AcquireLocal(s, t, w, to, pc, after)
    ensures Inv(Transition(s, t, w, to, pc, after))
  {
    TransitionCount(s, t, w, to, pc, after, false);
    TransitionCount(s, t, w, to, pc, after, true);
    AcquireSignals(s, t, w, to, pc, after);
    AcquireOrderly(s, t, w, to, pc, after);
    AcquireCare(s, t, w, to, pc, after);
  }

  lemma UnlockSignals(s: State, t: Tid)
    requires Orderly(s) && SignalsOk(s) && t < |s.pc| && s.sub[t].Unlocking? && s.lock.Some?
    ensures SignalsOk(Unlock(s, t))
  {
    var s' := Unlock(s, t);
    forall w, kind | 0 <= w < s.n && WillSignal(s.sub[t], w, kind) ensures Signalled(s', w, kind) {
      assert WillSignal(s'.sub[t], w, kind);
    }
    CarrySignals(s, s', t);
  }

  lemma UnlockOrderly(s: State, t: Tid)
    requires Orderly(s) && t < |s.pc| && s.sub[t].Unlocking? && s.lock.Some?
    ensures Orderly(Unlock(s, t))
  {
  }

  lemma UnlockKeeps(s: State, t: Tid)
    requires Inv(s) && t < |s.pc| && s.sub[t].Unlocking? && s.lock.Some?
    ensures Inv(Unlock(s, t))
  {
    UnlockSignals(s, t);
    UnlockOrderly(s, t);
    assert Wf(s.pc[t], s.sub[t]);
    CarryCare(s, Unlock(s, t), t);
  }
}
