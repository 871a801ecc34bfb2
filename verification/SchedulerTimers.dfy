/** The worker loop together with the deadlines it must not sleep through (src/runtime/scheduler.c): each worker's
    queued timers and published hint, the bound a worker computes for its blocking wait, and the notification owed by
    whoever arms a timer. Deadlines and bounds are instants of one clock that does not run backwards. */
module SchedulerTimers {
  import opened Prelude
  import opened SchedulerModel
  import opened SchedulerControl
  import opened SchedulerFrame
  import opened SchedulerSteps
  import opened SchedulerConservation
  import opened SchedulerTheorems
  import Runs

  const NEVER: nat := 0xFFFF_FFFF_FFFF_FFFF

  /** How far a worker that is about to block has got with its bound: nothing read, the hints of the workers before `i`
      read by a poller, or blocked until `at` at the latest. */
  datatype Bound = Unread | Scanning(i: nat, best: nat) | Until(at: nat)

  /** `owes` is the worker whose earlier deadline a thread has published and not yet notified it of. */
  datatype Clocked = Clocked(s: State, queued: seq<set<nat>>, hint: seq<nat>, bound: seq<Bound>, owes: seq<Option<nat>>)

  datatype Step =
    | Sched(a: Action)
    | Arm(t: Tid, w: nat, queued: set<nat>, hint: nat)
    | Disarm(w: nat, queued: set<nat>, hint: nat)
    | ReadHint(w: nat, at: nat)

  ghost predicate Begins(c: Clocked) {
    && SchedulerModel.Init(c.s)
    && c.queued == seq(c.s.n, _ => {}) && c.hint == seq(c.s.n, _ => NEVER) && c.bound == seq(c.s.n, _ => Unread)
    && c.owes == seq(|c.s.pc|, _ => None)
  }

  /** The blocking call: until then the bound is being computed. */
  predicate Blocking(pc: Pc) { pc.SemWait? || pc.PollBlock? }

  ghost predicate DoSched(c: Clocked, a: Action, c': Clocked) {
    && SchedulerModel.Next(c.s, a, c'.s)
    // whoever published an earlier deadline notifies its owner next, and nobody blocks before the bound is known
    && (a.t < |c.owes| && c.owes[a.t].Some? ==> a.kind.ANotifyTimer? && a.x == c.owes[a.t].value)
    && (a.t < |c.bound| && a.t < |c.s.pc| && Blocking(c.s.pc[a.t]) ==> c.bound[a.t].Until?)
    && c' == c.(s := c'.s,
                owes := if a.t < |c.owes| then c.owes[a.t := None] else c.owes,
                bound := if a.t < |c.bound| then c.bound[a.t := Unread] else c.bound)
  }

  /** A section under worker `w`'s timer_lock: its queue changes and a hint no later than any queued deadline is
      published. One that arms a timer is made by code that may call the scheduler, which then owes a notification. */
  predicate DoTimers(c: Clocked, w: nat, queued: set<nat>, hint: nat, owes: seq<Option<nat>>, c': Clocked) {
    && w < |c.queued| && w < |c.hint| && (forall d :: d in queued ==> hint <= d)
    && c' == c.(queued := c.queued[w := queued], hint := c.hint[w := hint], owes := owes)
  }

  ghost predicate DoArm(c: Clocked, t: Tid, w: nat, queued: set<nat>, hint: nat, c': Clocked) {
    && Shape(c.s) && IsAgent(c.s, t) && t < |c.owes| && c.owes[t].None? && w < c.s.n
    && DoTimers(c, w, queued, hint, c.owes[t := Some(w)], c')
  }

  predicate DoDisarm(c: Clocked, w: nat, queued: set<nat>, hint: nat, c': Clocked) {
    w < |c.queued| && queued <= c.queued[w] && DoTimers(c, w, queued, hint, c.owes, c')
  }

  /** `_sched_timer_wait_timeout` reads the worker's own hint; `_sched_timer_poll_timeout` reads everybody's, one by
      one. A wait may be cut shorter than the hint allows. */
  ghost predicate DoReadHint(c: Clocked, w: nat, at: nat, c': Clocked) {
    && Shape(c.s) && w < c.s.n && |c.bound| == c.s.n && |c.hint| == c.s.n && !c.bound[w].Until?
    && if c.s.pc[w].SemWait? then at <= c.hint[w] && c' == c.(bound := c.bound[w := Until(at)])
       else
         && c.s.pc[w].PollBlock?
         && var i, best := if c.bound[w].Unread? then 0 else c.bound[w].i,
             if c.bound[w].Unread? then NEVER else c.bound[w].best;
            if i < c.s.n
            then c' == c.(bound := c.bound[w := Scanning(i + 1, if c.hint[i] < best then c.hint[i] else best)])
            else at <= best && c' == c.(bound := c.bound[w := Until(at)])
  }

  ghost predicate Next(c: Clocked, step: Step, c': Clocked) {
    match step
    case Sched(a) => DoSched(c, a, c')
    case Arm(t, w, queued, hint) => DoArm(c, t, w, queued, hint, c')
    case Disarm(w, queued, hint) => DoDisarm(c, w, queued, hint, c')
    case ReadHint(w, at) => DoReadHint(c, w, at, c')
  }

  // ---- the invariant ----------------------------------------------------------------------------------------------

  predicate Sized(c: Clocked) {
    && Shape(c.s) && |c.queued| == c.s.n && |c.hint| == c.s.n && |c.bound| == c.s.n && |c.owes| == |c.s.pc|
  }

  predicate HintsOk(c: Clocked)
    requires Sized(c)
  {
    forall w, d :: 0 <= w < c.s.n && d in c.queued[w] ==> c.hint[w] <= d
  }

  /** A notification of worker `w` is still to be made. */
  ghost predicate Due(c: Clocked, w: nat)
    requires Sized(c)
  {
    exists t :: 0 <= t < |c.owes| && (c.owes[t] == Some(w) || c.s.sub[t] == Notify(w))
  }

  /** A thread is about to write to the poller's wake-up socket. */
  predicate WillPoke(sub: Sub) {
    match sub
    case Signal(_, kind, poller) => kind.Polling? || poller
    case Unlocking(ThenSignal(_, kind, poller)) => kind.Polling? || poller
    case _ => false
  }

  ghost predicate Poked(s: State, p: nat)
    requires Shape(s) && p < s.n
  {
    s.st[p].Searching? || s.wakeBytes > 0 || exists t :: 0 <= t < |s.sub| && WillPoke(s.sub[t])
  }

  /** The deadline is not lost on a worker: its bound is not settled, or early enough. */
  predicate InTime(b: Bound, w: nat, d: nat) {
    match b
    case Unread => true
    case Scanning(i, best) => w < i ==> best <= d
    case Until(at) => at <= d
  }

  predicate AllInTime(c: Clocked, u: nat, w: nat)
    requires Sized(c) && u < c.s.n && w < c.s.n
  {
    forall d :: d in c.queued[w] ==> InTime(c.bound[u], w, d)
  }

  /** A worker at its semaphore has regard to its own timers, unless it is being woken or about to be notified. */
  ghost predicate SleeperOk(c: Clocked, w: nat)
    requires Sized(c) && w < c.s.n
  {
    c.s.pc[w].SemWait? ==> c.s.st[w].Searching? || Due(c, w) || AllInTime(c, w, w)
  }

  /** The poller has regard to everybody's. */
  ghost predicate PollerSees(c: Clocked, p: nat, w: nat)
    requires Sized(c) && p < c.s.n && w < c.s.n
  {
    c.s.pc[p].PollBlock? ==> Poked(c.s, p) || Due(c, w) || AllInTime(c, p, w)
  }

  predicate BoundsOk(c: Clocked)
    requires Sized(c)
  {
    forall w :: 0 <= w < c.s.n ==>
      c.bound[w].Unread? || c.s.pc[w].PollBlock? || (c.s.pc[w].SemWait? && c.bound[w].Until?)
  }

  ghost predicate Covered(c: Clocked)
    requires Sized(c)
  {
    && (forall w :: 0 <= w < c.s.n ==> SleeperOk(c, w))
    && (forall p, w :: 0 <= p < c.s.n && 0 <= w < c.s.n ==> PollerSees(c, p, w))
  }

  ghost predicate TimersInv(c: Clocked) { Safe(c.s) && Sized(c) && HintsOk(c) && BoundsOk(c) && Covered(c) }

  // ---- what a step of the worker loop does to blocked workers -----------------------------------------------------

  /** A thread in the middle of a notification does nothing else. */
  lemma QueueStepSub(s: State, a: Action, s': State)
    requires Shape(s) && QueueStep(s, a, s')
    ensures a.t < |s.sub| && !s.sub[a.t].Notify?
    ensures a.kind.ANotifyTimer? ==> a.x < s.n && s'.sub == s.sub[a.t := Notify(a.x)]
  {
  }

  /** A blocked worker once reserved stays so, and a poke on its way arrives. */
  ghost predicate Stays(s: State, s': State, u: nat)
    requires Shape(s) && Shape(s') && s'.n == s.n && u < s.n
  {
    && (Blocking(s.pc[u]) && s'.pc[u] == s.pc[u] && s.st[u].Searching? ==> s'.st[u].Searching?)
    && (s.pc[u].PollBlock? && s'.pc[u].PollBlock? && Poked(s, u) ==> Poked(s', u))
  }

  lemma PlainStays(s: State, s': State, t: Tid, u: nat)
    requires Orderly(s) && t < |s.pc| && Plain(s, s', t) && u < s.n
    ensures Shape(s') && s'.n == s.n && Stays(s, s', u)
  {
    if v :| 0 <= v < |s.sub| && WillPoke(s.sub[v]) {
      assert WillPoke(s'.sub[v]);
    }
  }

  predicate OthersSame(s: State, s': State, t: Tid) {
    && |s'.pc| == |s.pc| && |s'.sub| == |s.sub|
    && (forall v :: 0 <= v < |s.pc| && v != t ==> s'.pc[v] == s.pc[v])
    && (forall v :: 0 <= v < |s.sub| && v != t ==> s'.sub[v] == s.sub[v])
  }

  /** A worker moves its own state only when it is not blocked, and others' only from idle to SEARCHING. */
  lemma TransitionStays(s: State, t: Tid, w: nat, to: WState, pc: Pc, after: After, u: nat)
    requires Shape(s) && t < |s.pc| && w < s.n && u < s.n && !WillPoke(s.sub[t])
    requires if w == t then !Blocking(s.pc[t]) else to == s.st[w] || to.Searching?
    requires pc == s.pc[t] || !Blocking(s.pc[t])
    ensures var s' := Transition(s, t, w, to, pc, after); Stays(s, s', u) && OthersSame(s, s', t)
  {
    var s' := Transition(s, t, w, to, pc, after);
    if v :| 0 <= v < |s.sub| && WillPoke(s.sub[v]) {
      assert WillPoke(s'.sub[v]);
    }
  }

  lemma SignalStays(s: State, t: Tid, s': State, u: nat)
    requires Shape(s) && u < s.n && (DoSignal(s, t, s') || DoUnlock(s, t, s'))
    ensures Shape(s') && s'.n == s.n && Stays(s, s', u) && OthersSame(s, s', t)
  {
    if v :| 0 <= v < |s.sub| && WillPoke(s.sub[v]) {
      assert WillPoke(s'.sub[v]) || s'.wakeBytes > 0;
    }
  }

  lemma CallStays(s: State, t: Tid, sub: Sub, u: nat)
    requires Shape(s) && t < |s.pc| && u < s.n && !WillPoke(s.sub[t])
    ensures var s' := Call(s, t, sub); Stays(s, s', u) && OthersSame(s, s', t)
  {
    if v :| 0 <= v < |s.sub| && WillPoke(s.sub[v]) {
      assert WillPoke(Call(s, t, sub).sub[v]);
    }
  }

  lemma PublishStays(s: State, t: Tid, s': State, u: nat)
    requires Shape(s) && u < s.n && (DoPublish(s, t, s') || DoSearch(s, t, s'))
    ensures Shape(s') && s'.n == s.n && Stays(s, s', u) && OthersSame(s, s', t)
  {
    if DoSearch(s, t, s') {
      TransitionStays(s, t, t, Searching, Steal(s.pc[t].quest, 0), Return, u);
    } else {
      var (to, pc, after) := Publication(s.pc[t], s.st[t]).value;
      TransitionStays(s, t, t, to, pc, after, u);
    }
  }

  lemma ReserveStays(s: State, t: Tid, target: nat, s': State, u: nat)
    requires Shape(s) && u < s.n && DoReserve(s, t, target, s') && (t < s.n && Blocking(s.pc[t]) ==> s.sub[t].NoCall?)
    ensures Shape(s') && s'.n == s.n && Stays(s, s', u) && OthersSame(s, s', t)
  {
    TransitionStays(s, t, target, Searching, s.pc[t], ThenSignal(target, s.st[target], false), u);
  }

  lemma NotifyStays(s: State, t: Tid, s': State, u: nat)
    requires Shape(s) && u < s.n && DoNotify(s, t, s') && (t < s.n && Blocking(s.pc[t]) ==> s.sub[t].NoCall?)
    ensures Shape(s') && s'.n == s.n && Stays(s, s', u) && OthersSame(s, s', t)
  {
    var owner := s.sub[t].owner;
    TransitionStays(s, t, owner, if IdleState(s.st[owner]) then Searching else s.st[owner], s.pc[t],
                    NotifyPlan(s, owner), u);
  }

  lemma ProtocolStays(s: State, a: Action, s': State, u: nat)
    requires Shape(s) && PcsOk(s) && WakeProtocolStep(s, a, s') && u < s.n
    ensures Shape(s') && s'.n == s.n && a.t < |s.pc| && Stays(s, s', u) && OthersSame(s, s', a.t)
    ensures s.sub[a.t].Notify? ==> a.kind.ANotify?
  {
    match a.kind
    case ASearch => PublishStays(s, a.t, s', u);
    case APublish => PublishStays(s, a.t, s', u);
    case AUnlock => SignalStays(s, a.t, s', u);
    case AWakeRead => CallStays(s, a.t, s'.sub[a.t], u);
    case AReserve => ReserveStays(s, a.t, a.x, s', u);
    case ASkipReserve => CallStays(s, a.t, NoCall, u);
    case ANotify => NotifyStays(s, a.t, s', u);
    case ASignal => SignalStays(s, a.t, s', u);
  }

  /** The notification reserves an owner at its semaphore, or finds it reserved, and reaches any poller. */
  lemma NotifyReaches(s: State, t: Tid, s': State, u: nat)
    requires Orderly(s) && DoNotify(s, t, s') && u < s.n
    ensures Shape(s') && s'.n == s.n
    ensures u == s.sub[t].owner && s.pc[u].SemWait? ==> s'.st[u].Searching?
    ensures s.pc[u].PollBlock? ==> Poked(s', u)
  {
    var owner := s.sub[t].owner;
    assert WaitRegion(s.pc[owner]) ==> s.st[owner].Waiting? || s.st[owner].Searching?;
    assert PollRegion(s.pc[u]) ==> s.st[u].Polling? || s.st[u].Searching?;
    if s.pc[u].PollBlock? && u != owner && s.st[u].Polling? {
      assert WillPoke(s'.sub[t]);
    }
  }

  /** What a step of the worker loop leaves alone. */
  lemma LoopStays(s: State, a: Action, s': State, u: nat)
    requires Inv(s) && SchedulerModel.Next(s, a, s') && u < s.n
    ensures Shape(s') && s'.n == s.n && a.t < |s.pc| && Stays(s, s', u) && OthersSame(s, s', a.t)
    ensures s.sub[a.t].Notify? ==> DoNotify(s, a.t, s')
    ensures a.kind.ANotifyTimer? ==> s'.sub == s.sub[a.t := Notify(a.x)]
  {
    if QueueStep(s, a, s') {
      QueueStepSub(s, a, s');
      QueueStepPlain(s, a, s');
      HereFrom(s, a.t);
      PlainStays(s, s', a.t, u);
    } else {
      ProtocolStays(s, a, s', u);
    }
  }

  // ---- every step keeps deadlines covered -------------------------------------------------------------------------

  /** A notification still to be made stays so until it is made. */
  lemma DueStays(c: Clocked, a: Action, c': Clocked, w: nat)
    requires Sized(c) && Sized(c') && DoSched(c, a, c') && OthersSame(c.s, c'.s, a.t) && a.t < |c.s.pc| && Due(c, w)
    requires a.kind.ANotifyTimer? ==> c'.s.sub == c.s.sub[a.t := Notify(a.x)]
    ensures Due(c', w) || c.s.sub[a.t] == Notify(w)
  {
    var t :| 0 <= t < |c.owes| && (c.owes[t] == Some(w) || c.s.sub[t] == Notify(w));
    if t != a.t {
      assert c'.owes[t] == c.owes[t] && c'.s.sub[t] == c.s.sub[t];
    } else if c.owes[t] == Some(w) {
      assert c'.s.sub[t] == Notify(w);
    }
  }

  lemma SleeperStays(c: Clocked, a: Action, c': Clocked, w: nat)
    requires TimersInv(c) && DoSched(c, a, c') && w < c.s.n
    ensures Sized(c') && SleeperOk(c', w)
  {
    LoopStays(c.s, a, c'.s, w);
    if c'.s.pc[w].SemWait? && w != a.t {
      assert SleeperOk(c, w);
      if Due(c, w) {
        DueStays(c, a, c', w);
        if c.s.sub[a.t] == Notify(w) { NotifyReaches(c.s, a.t, c'.s, w); }
      } else if AllInTime(c, w, w) {
        assert AllInTime(c', w, w);
      }
    }
  }

  lemma PollerStays(c: Clocked, a: Action, c': Clocked, p: nat, w: nat)
    requires TimersInv(c) && DoSched(c, a, c') && p < c.s.n && w < c.s.n
    ensures Sized(c') && PollerSees(c', p, w)
  {
    LoopStays(c.s, a, c'.s, p);
    if c'.s.pc[p].PollBlock? && p != a.t {
      assert PollerSees(c, p, w);
      if Due(c, w) {
        DueStays(c, a, c', w);
        if c.s.sub[a.t] == Notify(w) { NotifyReaches(c.s, a.t, c'.s, p); }
      } else if AllInTime(c, p, w) {
        assert AllInTime(c', p, w);
      }
    }
  }

  lemma SchedKeeps(c: Clocked, a: Action, c': Clocked)
    requires TimersInv(c) && DoSched(c, a, c')
    ensures TimersInv(c')
  {
    NextKeeps(c.s, a, c'.s);
    NextConserves(c.s, a, c'.s);
    LoopStays(c.s, a, c'.s, 0);
    forall w | 0 <= w < c.s.n ensures SleeperOk(c', w) { SleeperStays(c, a, c', w); }
    forall p, w | 0 <= p < c.s.n && 0 <= w < c.s.n ensures PollerSees(c', p, w) { PollerStays(c, a, c', p, w); }
  }

  /** A section that arms owes a notification, and one that does not leaves fewer deadlines. */
  lemma TimersKeep(c: Clocked, step: Step, c': Clocked)
    requires TimersInv(c) && Next(c, step, c') && (step.Arm? || step.Disarm?)
    ensures TimersInv(c')
  {
    if step.Arm? { assert c'.owes[step.t] == Some(step.w); }
    forall w | 0 <= w < c.s.n && Due(c, w) ensures Due(c', w) { DueKept(c, step, c', w); }
    forall w | 0 <= w < c.s.n ensures SleeperOk(c', w) {
      assert SleeperOk(c, w);
      assert AllInTime(c, w, w) && (w != step.w || step.Disarm?) ==> AllInTime(c', w, w);
    }
    forall p, w | 0 <= p < c.s.n && 0 <= w < c.s.n ensures PollerSees(c', p, w) {
      assert PollerSees(c, p, w);
      assert AllInTime(c, p, w) && (w != step.w || step.Disarm?) ==> AllInTime(c', p, w);
    }
  }

  lemma DueKept(c: Clocked, step: Step, c': Clocked, w: nat)
    requires Sized(c) && Sized(c') && Next(c, step, c') && (step.Arm? || step.Disarm? || step.ReadHint?) && Due(c, w)
    ensures Due(c', w)
  {
    var t :| 0 <= t < |c.owes| && (c.owes[t] == Some(w) || c.s.sub[t] == Notify(w));
    assert c'.owes[t] == Some(w) || c'.s.sub[t] == Notify(w);
  }

  /** Reading a hint leaves the worker in time for every deadline it was in time for, and its own. */
  lemma ReadInTime(c: Clocked, u: nat, at: nat, c': Clocked, w: nat)
    requires Sized(c) && HintsOk(c) && DoReadHint(c, u, at, c') && w < c.s.n
    ensures Sized(c') && (c.s.pc[u].SemWait? ==> AllInTime(c', u, u))
    ensures c.s.pc[u].PollBlock? && AllInTime(c, u, w) ==> AllInTime(c', u, w)
  {
    forall d | d in c.queued[w] && AllInTime(c, u, w) && c.s.pc[u].PollBlock? ensures InTime(c'.bound[u], w, d) {
      assert InTime(c.bound[u], w, d) && c.hint[w] <= d;
    }
    forall d | d in c.queued[u] && c.s.pc[u].SemWait? ensures InTime(c'.bound[u], u, d) {
      assert c.hint[u] <= d;
    }
  }

  lemma ReadKeeps(c: Clocked, u: nat, at: nat, c': Clocked)
    requires TimersInv(c) && DoReadHint(c, u, at, c')
    ensures TimersInv(c')
  {
    ReadInTime(c, u, at, c', u);
    forall w | 0 <= w < c.s.n && Due(c, w) ensures Due(c', w) { DueKept(c, ReadHint(u, at), c', w); }
    forall w | 0 <= w < c.s.n ensures SleeperOk(c', w) {
      assert SleeperOk(c, w);
      assert w != u && AllInTime(c, w, w) ==> AllInTime(c', w, w);
    }
    forall p, w | 0 <= p < c.s.n && 0 <= w < c.s.n ensures PollerSees(c', p, w) {
      ReadInTime(c, u, at, c', w);
      assert PollerSees(c, p, w);
      assert p != u && AllInTime(c, p, w) ==> AllInTime(c', p, w);
    }
  }

  lemma StepKeeps(c: Clocked, step: Step, c': Clocked)
    requires TimersInv(c) && Next(c, step, c')
    ensures TimersInv(c')
  {
    match step
    case Sched(a) => SchedKeeps(c, a, c');
    case ReadHint(w, at) => ReadKeeps(c, w, at, c');
    case _ => TimersKeep(c, step, c');
  }

  // ---- what it means ----------------------------------------------------------------------------------------------

  ghost predicate IsClockedRun(states: seq<Clocked>, steps: seq<Step>) {
    Runs.IsRun(c => Begins(c), (c, step, c') => Next(c, step, c'), states, steps)
  }

  lemma InvOverRuns(states: seq<Clocked>, steps: seq<Step>, k: nat)
    requires IsClockedRun(states, steps) && k < |states|
    ensures TimersInv(states[k])
  {
    forall c | Begins(c) ensures TimersInv(c) { InitSafe(c.s); }
    forall c, step, c' | TimersInv(c) && Next(c, step, c') ensures TimersInv(c') { StepKeeps(c, step, c'); }
    Runs.Invariance(c => Begins(c), (c, step, c') => Next(c, step, c'), c => TimersInv(c), states, steps, k);
  }

  /** No queued deadline is slept through. While timer `d` is queued on worker `w` and nobody has still to notify
      `w`: if `w` is blocked at its semaphore, it is blocked until `d` at the latest or its wake-up is sent or about
      to be; and so it is with any worker `p` blocked in the poller, for every worker's timers. */
  lemma NoDeadlineMissed(states: seq<Clocked>, steps: seq<Step>, k: nat, w: nat, d: nat, p: nat)
    requires IsClockedRun(states, steps) && k < |states| && Sized(states[k])
    requires w < states[k].s.n && d in states[k].queued[w] && !Due(states[k], w) && p < states[k].s.n
    ensures var c := states[k];
            c.s.pc[w].SemWait? && c.bound[w].Until? ==> c.bound[w].at <= d || Signalled(c.s, w, Waiting)
    ensures var c := states[k];
            c.s.pc[p].PollBlock? && c.bound[p].Until? ==>
              || c.bound[p].at <= d || Signalled(c.s, p, Polling)
              || c.s.wakeBytes > 0 || exists t :: 0 <= t < |c.s.sub| && WillPoke(c.s.sub[t])
  {
    InvOverRuns(states, steps, k);
    var c := states[k];
    assert SleeperOk(c, w) && PollerSees(c, p, w);
    assert AllInTime(c, w, w) && c.bound[w].Until? ==> InTime(c.bound[w], w, d);
    assert AllInTime(c, p, w) && c.bound[p].Until? ==> InTime(c.bound[p], w, d);
  }

  /** So when the pool comes to rest, the one worker in the poller wakes by the earliest deadline of all. */
  lemma RestEndsInTime(states: seq<Clocked>, steps: seq<Step>, k: nat) returns (p: nat)
    requires IsClockedRun(states, steps) && k < |states| && Sized(states[k]) && AllBlocked(states[k].s)
    requires forall t :: 0 <= t < |states[k].owes| ==> states[k].owes[t].None?
    requires forall w :: 0 <= w < states[k].s.n ==> states[k].bound[w].Until?
    ensures p < states[k].s.n && states[k].s.pc[p].PollBlock?
    ensures forall w, d :: 0 <= w < states[k].s.n && d in states[k].queued[w] ==> states[k].bound[p].at <= d
  {
    InvOverRuns(states, steps, k);
    var c := states[k];
    p := c.s.pollerBy;
    RestHasPoller(c.s);
    forall w, d | 0 <= w < c.s.n && d in c.queued[w] ensures c.bound[p].at <= d {
      NoDeadlineMissed(states, steps, k, w, d, p);
    }
  }

  lemma RestHasPoller(s: State)
    requires Safe(s) && AllBlocked(s)
    ensures s.pollerBy < s.n && s.pc[s.pollerBy].PollBlock?
    ensures !Signalled(s, s.pollerBy, Polling) && s.wakeBytes == 0
    ensures forall t :: 0 <= t < |s.sub| ==> !WillPoke(s.sub[t])
  {
  }
}
