/** One worker's timers (src/runtime/scheduler.c): the IDLE / QUEUED / FIRING machine with deferred stop and reset, the
    heap, and the deadline hint read without the lock. Every step is one section under the worker's timer_lock. */
module TimerModel {
  const NEVER: nat := 0xFFFF_FFFF_FFFF_FFFF

  datatype TState = Idle | Queued | Firing

  /** The public calls a fire can be interrupted by. */
  datatype Call = Rearm | Cancel

  /** A timer, and below its fields the ledger of its arms and the calls made since its current fire began. */
  datatype Timer = Timer(
    state: TState, stopPending: bool, resetPending: bool, timeout: nat, repeat: nat,
    ledger: Ledger, calls: seq<Call>)

  /** Arms made by start and reset, by a repeating timer itself, and what became of them: fired, reported cancelled by
      the result of stop or reset, silently replaced by a second start, or dropped at the end of a fire. `held` counts
      the references a caller that takes one per arm still holds. */
  datatype Ledger = Ledger(arms: nat, autoArms: nat, fires: nat, cancelled: nat, replaced: nat, dropped: nat,
                           held: int, running: bool)

  /** `heap` maps each queued timer to the key it was inserted under; `fires` are the fires taken off the heap and not
      completed; `midway` says that a pass over the due timers has dequeued and not yet republished the hint. */
  datatype Wheel = Wheel(timers: seq<Timer>, heap: map<nat, nat>, hint: nat, fires: seq<nat>, midway: bool)

  datatype Action =
    | Start(i: nat, timeout: nat, repeat: nat, now: nat) | Stop(i: nat) | Reset(i: nat, timeout: nat, now: nat)
    | PopDue(i: nat, now: nat) | EndPass | CallbackDone(i: nat) | Complete(i: nat, now: nat)

  function Later(now: nat, timeout: nat): nat { if timeout > NEVER - now then NEVER else now + timeout }

  function Remove(heap: map<nat, nat>, i: nat): map<nat, nat> { map j | j in heap && j != i :: heap[j] }

  /** What `_sched_timer_publish_next_deadline` stores: the root's key, or UINT64_MAX. */
  predicate Earliest(heap: map<nat, nat>, hint: nat) {
    && (forall j :: j in heap ==> hint <= heap[j])
    && (if heap == map[] then hint == NEVER else exists j :: j in heap && heap[j] == hint)
  }

  predicate Init(w: Wheel) {
    && (forall i :: 0 <= i < |w.timers| ==>
          && w.timers[i].state.Idle? && !w.timers[i].stopPending && !w.timers[i].resetPending && w.timers[i].calls == []
          && w.timers[i].ledger == Ledger(0, 0, 0, 0, 0, 0, 0, false))
    && w.heap == map[] && w.hint == NEVER && w.fires == [] && !w.midway
  }

  // ---- one timer --------------------------------------------------------------------------------------------------

  function Bump(n: nat, yes: bool): nat { if yes then n + 1 else n }

  /** `scheduler_timer_start` and the common half of `scheduler_timer_reset`. */
  function Rearmed(t: Timer, timeout: nat, now: nat): Timer {
    if t.state.Firing? then t.(resetPending := true, timeout := timeout, calls := t.calls + [Rearm])
    else t.(state := Queued, resetPending := false, timeout := Later(now, timeout))
  }

  /** An arm exists that has not fired: queued, or deferred to the end of the fire. Stop and reset report that they
      cancelled it. */
  predicate Outstanding(t: Timer) { t.state.Queued? || (t.state.Firing? && t.resetPending) }

  function Started(t: Timer, timeout: nat, repeat: nat, now: nat): Timer {
    Rearmed(t.(repeat := repeat), timeout, now).(
      ledger := t.ledger.(arms := t.ledger.arms + 1, held := t.ledger.held + 1,
                          replaced := Bump(t.ledger.replaced, Outstanding(t))))
  }

  function WasReset(t: Timer, timeout: nat, now: nat): Timer {
    var c := Outstanding(t);
    Rearmed(t.(repeat := if t.repeat != 0 then timeout else 0), timeout, now).(
      ledger := t.ledger.(arms := t.ledger.arms + 1, cancelled := Bump(t.ledger.cancelled, c),
                          held := if c then t.ledger.held else t.ledger.held + 1))
  }

  function Stopped(t: Timer): Timer {
    var c := Outstanding(t);
    var l := t.ledger.(cancelled := Bump(t.ledger.cancelled, c),
                       held := if c then t.ledger.held - 1 else t.ledger.held);
    if t.state.Firing? then t.(stopPending := true, resetPending := false, calls := t.calls + [Cancel], ledger := l)
    else if t.state.Queued? then t.(state := Idle, stopPending := false, resetPending := false, ledger := l)
    else t
  }

  function Popped(t: Timer): Timer {
    t.(state := Firing, calls := [], ledger := t.ledger.(fires := t.ledger.fires + 1, running := true))
  }

  /** `_sched_timer_finish_fire`: a stop wins over a reset, a reset over a repeat. */
  function Finished(t: Timer, now: nat): Timer {
    if t.stopPending then
      t.(stopPending := false, resetPending := false, state := Idle, calls := [],
         ledger := t.ledger.(dropped := Bump(t.ledger.dropped, t.resetPending)))
    else if t.resetPending then
      t.(timeout := Later(now, t.timeout), resetPending := false, state := Queued, calls := [])
    else if t.repeat > 0 then
      t.(timeout := Later(now, t.repeat), state := Queued, calls := [],
         ledger := t.ledger.(autoArms := t.ledger.autoArms + 1))
    else t.(state := Idle, calls := [])
  }

  // ---- the wheel --------------------------------------------------------------------------------------------------

  /** The heap after a start or reset: taken out if queued, and put in unless firing. */
  function Reheap(w: Wheel, i: nat, t: Timer): map<nat, nat>
    requires i < |w.timers|
  {
    if w.timers[i].state.Firing? then w.heap
    else (if w.timers[i].state.Queued? then Remove(w.heap, i) else w.heap)[i := t.timeout]
  }

  predicate DoStart(w: Wheel, i: nat, timeout: nat, repeat: nat, now: nat, w': Wheel) {
    && i < |w.timers|
    && var t := Started(w.timers[i], timeout, repeat, now);
       w' == w.(timers := w.timers[i := t], heap := Reheap(w, i, t), hint := w'.hint) && Earliest(w'.heap, w'.hint)
  }

  predicate DoReset(w: Wheel, i: nat, timeout: nat, now: nat, w': Wheel) {
    && i < |w.timers|
    && var t := WasReset(w.timers[i], timeout, now);
       w' == w.(timers := w.timers[i := t], heap := Reheap(w, i, t), hint := w'.hint) && Earliest(w'.heap, w'.hint)
  }

  predicate DoStop(w: Wheel, i: nat, w': Wheel) {
    && i < |w.timers|
    && w' == w.(timers := w.timers[i := Stopped(w.timers[i])],
                heap := if w.timers[i].state.Queued? then Remove(w.heap, i) else w.heap, hint := w'.hint)
    && Earliest(w'.heap, w'.hint)
  }

  /** One turn of the loop in `_sched_timer_process_due`: the root is due. The hint is not republished here. */
  predicate DoPopDue(w: Wheel, i: nat, now: nat, w': Wheel) {
    && i < |w.timers| && i in w.heap && (forall j :: j in w.heap ==> w.heap[i] <= w.heap[j])
    && w.timers[i].timeout <= now
    && w' == w.(timers := w.timers[i := Popped(w.timers[i])], heap := Remove(w.heap, i), fires := w.fires + [i],
                midway := true)
  }

  predicate DoEndPass(w: Wheel, w': Wheel) {
    w' == w.(hint := w'.hint, midway := false) && Earliest(w'.heap, w'.hint)
  }

  /** The callback returns, releasing the reference its arm held. */
  predicate DoCallbackDone(w: Wheel, i: nat, w': Wheel) {
    && i in w.fires && i < |w.timers| && w.timers[i].ledger.running
    && var t := w.timers[i];
       w' == w.(timers := w.timers[i := t.(ledger := t.ledger.(running := false, held := t.ledger.held - 1))])
  }

  function DropFire(fires: seq<nat>, i: nat): seq<nat> {
    if fires == [] then [] else if fires[0] == i then fires[1..] else [fires[0]] + DropFire(fires[1..], i)
  }

  /** `_sched_timer_complete`, which tolerates finding the timer in any state. */
  predicate DoComplete(w: Wheel, i: nat, now: nat, w': Wheel) {
    && i in w.fires && i < |w.timers| && !w.timers[i].ledger.running
    && if !w.timers[i].state.Firing? then w' == w.(fires := DropFire(w.fires, i))
       else
         var t := Finished(w.timers[i], now);
         && w' == w.(timers := w.timers[i := t], heap := if t.state.Queued? then w.heap[i := t.timeout] else w.heap,
                     hint := w'.hint, fires := DropFire(w.fires, i))
         && Earliest(w'.heap, w'.hint)
  }

  predicate Next(w: Wheel, a: Action, w': Wheel) {
    match a
    case Start(i, timeout, repeat, now) => DoStart(w, i, timeout, repeat, now, w')
    case Reset(i, timeout, now) => DoReset(w, i, timeout, now, w')
    case Stop(i) => DoStop(w, i, w')
    case PopDue(i, now) => DoPopDue(w, i, now, w')
    case EndPass => DoEndPass(w, w')
    case CallbackDone(i) => DoCallbackDone(w, i, w')
    case Complete(i, now) => DoComplete(w, i, now, w')
  }
}
