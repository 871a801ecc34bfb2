/** What every run of a worker's timers keeps: heap and state agree, one fire at a time, a safe hint, and a ledger in
    which every arm is accounted for. */
module TimerProofs {
  import opened Prelude
  import opened TimerModel
  import Runs

  /** No pending flag outside FIRING; in FIRING the flags tell the calls made since the fire began. */
  predicate FlagsOk(t: Timer) {
    && (t.state.Firing? || (!t.stopPending && !t.resetPending && t.calls == [] && !t.ledger.running))
    && (t.stopPending <==> Cancel in t.calls)
    && (t.resetPending <==> t.calls != [] && t.calls[|t.calls| - 1].Rearm?)
  }

  /** Every arm fired, was reported cancelled, was replaced or dropped, or is outstanding. */
  predicate LedgerOk(t: Timer) {
    var l := t.ledger;
    && l.arms + l.autoArms == l.fires + l.cancelled + l.replaced + l.dropped + One(Outstanding(t))
    && l.held + l.autoArms == l.replaced + l.dropped + One(Outstanding(t)) + One(l.running)
  }

  predicate TimerOk(t: Timer) { FlagsOk(t) && LedgerOk(t) }

  predicate HeapOk(w: Wheel) {
    && (forall i :: i in w.heap ==> i < |w.timers| && w.timers[i].state.Queued? && w.heap[i] == w.timers[i].timeout)
    && (forall i :: 0 <= i < |w.timers| && w.timers[i].state.Queued? ==> i in w.heap)
  }

  predicate FiresOk(w: Wheel) {
    && NoDup(w.fires)
    && (forall i :: i in w.fires ==> i < |w.timers| && w.timers[i].state.Firing?)
    && (forall i :: 0 <= i < |w.timers| && w.timers[i].state.Firing? ==> i in w.fires)
  }

  predicate HintOk(w: Wheel) {
    && (forall j :: j in w.heap ==> w.hint <= w.heap[j])
    && (!w.midway ==> Earliest(w.heap, w.hint))
  }

  predicate Inv(w: Wheel) {
    (forall i :: 0 <= i < |w.timers| ==> TimerOk(w.timers[i])) && HeapOk(w) && FiresOk(w) && HintOk(w)
  }

  // ---- one timer --------------------------------------------------------------------------------------------------

  lemma RearmedKeeps(t: Timer, timeout: nat, repeat: nat, now: nat)
    requires TimerOk(t)
    ensures TimerOk(Started(t, timeout, repeat, now)) && TimerOk(WasReset(t, timeout, now))
  {
  }

  lemma StoppedKeeps(t: Timer)
    requires TimerOk(t)
    ensures TimerOk(Stopped(t))
  {
  }

  lemma FiredKeeps(t: Timer, now: nat)
    requires TimerOk(t)
    ensures t.state.Queued? ==> TimerOk(Popped(t))
    ensures t.state.Firing? && !t.ledger.running ==> TimerOk(Finished(t, now))
    ensures t.state.Firing? && t.ledger.running ==>
              TimerOk(t.(ledger := t.ledger.(running := false, held := t.ledger.held - 1)))
  {
  }

  // ---- the wheel --------------------------------------------------------------------------------------------------

  lemma {:induction false} DropFireIs(fires: seq<nat>, i: nat)
    requires NoDup(fires)
    ensures NoDup(DropFire(fires, i)) && forall j :: j in DropFire(fires, i) <==> j in fires && j != i
  {
    if fires != [] && fires[0] != i {
      DropFireIs(fires[1..], i);
      assert fires == [fires[0]] + fires[1..];
      assert fires[0] !in fires[1..];
    } else if fires != [] {
      assert fires == [fires[0]] + fires[1..];
    }
  }

  /** A start or reset of timer `i` that leaves it as `t`. */
  lemma RearmKeeps(w: Wheel, i: nat, t: Timer, w': Wheel)
    requires Inv(w) && i < |w.timers| && TimerOk(t) && Earliest(w'.heap, w'.hint)
    requires t.state == (if w.timers[i].state.Firing? then Firing else Queued)
    requires w' == w.(timers := w.timers[i := t], heap := Reheap(w, i, t), hint := w'.hint)
    ensures Inv(w')
  {
  }

  lemma StopKeeps(w: Wheel, i: nat, w': Wheel)
    requires Inv(w) && DoStop(w, i, w')
    ensures Inv(w')
  {
    assert TimerOk(w.timers[i]);
    StoppedKeeps(w.timers[i]);
  }

  lemma PopKeeps(w: Wheel, i: nat, now: nat, w': Wheel)
    requires Inv(w) && DoPopDue(w, i, now, w')
    ensures Inv(w')
  {
    assert TimerOk(w.timers[i]);
    FiredKeeps(w.timers[i], now);
    assert i !in w.fires;
  }

  lemma CompleteKeeps(w: Wheel, i: nat, now: nat, w': Wheel)
    requires Inv(w) && DoComplete(w, i, now, w')
    ensures Inv(w')
  {
    assert TimerOk(w.timers[i]);
    FiredKeeps(w.timers[i], now);
    DropFireIs(w.fires, i);
  }

  lemma NextKeeps(w: Wheel, a: Action, w': Wheel)
    requires Inv(w) && Next(w, a, w')
    ensures Inv(w')
  {
    match a
    case PopDue(i, now) => PopKeeps(w, i, now, w');
    case Complete(i, now) => CompleteKeeps(w, i, now, w');
    case EndPass =>
    case CallbackDone(i) =>
      assert TimerOk(w.timers[i]);
      FiredKeeps(w.timers[i], 0);
    case Start(i, timeout, repeat, now) =>
      assert TimerOk(w.timers[i]);
      RearmedKeeps(w.timers[i], timeout, repeat, now);
      RearmKeeps(w, i, Started(w.timers[i], timeout, repeat, now), w');
    case Reset(i, timeout, now) =>
      assert TimerOk(w.timers[i]);
      RearmedKeeps(w.timers[i], timeout, 0, now);
      RearmKeeps(w, i, WasReset(w.timers[i], timeout, now), w');
    case Stop(i) => StopKeeps(w, i, w');
  }

  lemma InvOverRuns(states: seq<Wheel>, acts: seq<Action>, k: nat)
    requires Runs.IsRun(Init, Next, states, acts) && k < |states|
    ensures Inv(states[k])
  {
    forall w, a, w' | Inv(w) && Next(w, a, w') ensures Inv(w') { NextKeeps(w, a, w'); }
    Runs.Invariance(Init, Next, Inv, states, acts, k);
  }

  // ---- what it means ----------------------------------------------------------------------------------------------

  /** A timer is in the heap iff QUEUED, under its current deadline; it has an outstanding fire iff FIRING, and then
      one; no flag is pending outside FIRING; and the hint never lies too late, nor at all between passes. */
  lemma MachineOverRuns(states: seq<Wheel>, acts: seq<Action>, k: nat, i: nat)
    requires Runs.IsRun(Init, Next, states, acts) && k < |states| && i < |states[k].timers|
    ensures var w := states[k]; var t := w.timers[i];
            && (i in w.heap <==> t.state.Queued?) && (t.state.Queued? ==> w.heap[i] == t.timeout)
            && multiset(w.fires)[i] == One(t.state.Firing?)
            && (t.stopPending || t.resetPending ==> t.state.Firing?)
            && (t.state.Queued? ==> w.hint <= t.timeout)
            && (!w.midway ==> Earliest(w.heap, w.hint))
  {
    InvOverRuns(states, acts, k);
    var w := states[k];
    assert TimerOk(w.timers[i]);
    FireCount(w.fires, i);
  }

  lemma {:induction false} FireCount(fires: seq<nat>, i: nat)
    requires NoDup(fires)
    ensures multiset(fires)[i] == One(i in fires)
  {
    if fires != [] {
      FireCount(fires[1..], i);
      assert fires == [fires[0]] + fires[1..];
    }
  }

  /** The lock-free guard of `_sched_timer_process_due` skips a pass only when no queued timer is due. */
  lemma FastPathSkipsNothing(states: seq<Wheel>, acts: seq<Action>, k: nat, now: nat, i: nat)
    requires Runs.IsRun(Init, Next, states, acts) && k < |states| && i < |states[k].timers|
    requires now < states[k].hint && states[k].timers[i].state.Queued?
    ensures now < states[k].timers[i].timeout
  {
    InvOverRuns(states, acts, k);
  }

  /** Every arm is accounted for, and so is every reference a caller takes per arm. */
  lemma LedgerOverRuns(states: seq<Wheel>, acts: seq<Action>, k: nat, i: nat)
    requires Runs.IsRun(Init, Next, states, acts) && k < |states| && i < |states[k].timers|
    ensures var t := states[k].timers[i]; var l := t.ledger;
            && l.arms + l.autoArms == l.fires + l.cancelled + l.replaced + l.dropped + One(Outstanding(t))
            && l.held + l.autoArms == l.replaced + l.dropped + One(Outstanding(t)) + One(l.running)
            && (t.state.Idle? && l.replaced == 0 && l.autoArms == 0 ==> (l.held == 0 <==> l.dropped == 0))
  {
    InvOverRuns(states, acts, k);
    assert TimerOk(states[k].timers[i]);
  }

  /** The end of a fire drops an arm exactly when, among the calls made during that fire, the last re-arms the timer and
      an earlier one stopped it. */
  predicate DropsOk(w: Wheel, a: Action, w': Wheel) {
    && |w'.timers| == |w.timers|
    && forall i :: 0 <= i < |w.timers| ==>
         var t := w.timers[i];
         w'.timers[i].ledger.dropped == t.ledger.dropped +
           One(a.Complete? && a.i == i && Cancel in t.calls && t.calls[|t.calls| - 1].Rearm?)
  }

  lemma DropsOverRuns(states: seq<Wheel>, acts: seq<Action>, k: nat)
    requires Runs.IsRun(Init, Next, states, acts) && k < |acts|
    ensures DropsOk(states[k], acts[k], states[k + 1])
  {
    forall w, a, w' | Inv(w) && Next(w, a, w') ensures Inv(w') && DropsOk(w, a, w') {
      NextKeeps(w, a, w');
      NextDrops(w, a, w');
    }
    Runs.StepInvariance(Init, Next, Inv, DropsOk, states, acts, k);
  }

  lemma NextDrops(w: Wheel, a: Action, w': Wheel)
    requires Inv(w) && Next(w, a, w')
    ensures DropsOk(w, a, w')
  {
    if a.Complete? {
      assert TimerOk(w.timers[a.i]);
    }
  }

  /** The six steps of a fire during which the timer is stopped and then re-armed. */
  function LeakTimers(): seq<Timer> {
    [Timer(Idle, false, false, 0, 0, Ledger(0, 0, 0, 0, 0, 0, 0, false), []),
     Timer(Queued, false, false, 5, 0, Ledger(1, 0, 0, 0, 0, 0, 1, false), []),
     Timer(Firing, false, false, 5, 0, Ledger(1, 0, 1, 0, 0, 0, 1, true), []),
     Timer(Firing, true, false, 5, 0, Ledger(1, 0, 1, 0, 0, 0, 1, true), [Cancel]),
     Timer(Firing, true, true, 7, 0, Ledger(2, 0, 1, 0, 0, 0, 2, true), [Cancel, Rearm]),
     Timer(Firing, true, true, 7, 0, Ledger(2, 0, 1, 0, 0, 0, 1, false), [Cancel, Rearm]),
     Timer(Idle, false, false, 7, 0, Ledger(2, 0, 1, 0, 0, 1, 1, false), [])]
  }

  function LeakWheel(k: nat): Wheel
    requires k < 7
  {
    Wheel([LeakTimers()[k]], if k == 1 then map[0 := 5] else map[], if k == 1 || k == 2 then 5 else NEVER,
          if 2 <= k < 6 then [0] else [], k >= 2)
  }

  lemma LeakBegins()
    ensures Init(LeakWheel(0)) && Next(LeakWheel(0), Start(0, 5, 0, 0), LeakWheel(1))
    ensures Next(LeakWheel(1), PopDue(0, 5), LeakWheel(2))
  {
    assert LeakWheel(1).heap[0] == 5;
  }

  lemma LeakCalls()
    ensures Next(LeakWheel(2), Stop(0), LeakWheel(3)) && Next(LeakWheel(3), Reset(0, 7, 5), LeakWheel(4))
  {
    assert LeakTimers()[2].calls + [Cancel] == [Cancel] && [Cancel] + [Rearm] == [Cancel, Rearm];
  }

  lemma LeakEnds()
    ensures Next(LeakWheel(4), CallbackDone(0), LeakWheel(5)) && Next(LeakWheel(5), Complete(0, 6), LeakWheel(6))
  {
  }

  /** So a reference can be lost: stopping and re-arming during one fire leaves the timer idle with one still held. */
  lemma StopThenResetLeaks() returns (states: seq<Wheel>, acts: seq<Action>)
    ensures Runs.IsRun(Init, Next, states, acts)
    ensures states[|acts|].fires == [] && |states[|acts|].timers| == 1 && states[|acts|].timers[0].state.Idle?
    ensures states[|acts|].timers[0].ledger == Ledger(2, 0, 1, 0, 0, 1, 1, false)
  {
    LeakBegins();
    LeakCalls();
    LeakEnds();
    states := seq(7, k requires 0 <= k < 7 => LeakWheel(k));
    acts := [Start(0, 5, 0, 0), PopDue(0, 5), Stop(0), Reset(0, 7, 5), CallbackDone(0), Complete(0, 6)];
  }
}
