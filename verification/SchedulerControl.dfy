/** Control invariants of the worker loop: counters, lock, poller role, signals in flight, and wake duties. */
module SchedulerControl {
  import opened Prelude
  import opened SchedulerModel

  predicate AgentPc(pc: Pc) { pc.Outside? || pc.Top? || pc.PollTimers? || pc.Run? }

  /** The calls made only by agents. */
  predicate AgentSub(sub: Sub) {
    sub.Ready? || sub.EnqNext? || sub.EnqPush? || sub.EnqHalf? || sub.FlushRunq? || sub.Batch? || sub.BatchReady?
        || sub.Notify?
  }

  predicate Wf(pc: Pc, sub: Sub) {
    && (pc.Relapse? ==> !pc.quest.FromTop?)
    && (AgentSub(sub) ==> AgentPc(pc))
    && (!sub.NoCall? && !sub.Unlocking? ==> AgentPc(pc) || pc.Exec? || pc.Found? || pc.Polled?)
    && (sub.Unlocking? && !sub.after.Return? ==> AgentPc(pc) || pc.Exec? || pc.Found? || pc.Polled?)
    // nobody is inside a call while about to sleep, or between the first two steps of a take
    && (!sub.NoCall? ==> !Settled(pc) && !pc.TakeRing?)
  }

  predicate TakePc(pc: Pc) { pc.TakeNext? || pc.TakeRing? || pc.TakeRunq? }
  predicate QuestPc(pc: Pc) { pc.Search? || pc.Steal? || pc.StealPush? || pc.Relapse? }
  predicate PollSite(site: Site) { site.AtPoll1? || site.AtPoll2? || site.AtPolled1? || site.AtPolled2? }
  predicate PollQuest(q: Quest) { q.FromPoll? || q.FromPolled? }

  /** Holding the poller role. */
  predicate InPoller(c: Pc) {
    || ((TakePc(c) || c.TakePush?) && PollSite(c.site))
    || (QuestPc(c) && PollQuest(c.quest))
    || c.PubPolling? || c.PollBlock? || c.Dispatch? || c.DispatchReady? || c.Polled? || c.PollTimers?
    || c.PollFound? || c.Handoff?
  }

  /** Between publishing WAITING and sleeping, outside the search. */
  predicate WaitRegion(c: Pc) {
    (TakePc(c) && (c.site.AtWait1? || c.site.AtWait2?)) || (c.Search? && c.quest.FromWait?) || c.PollCas2? || c.SemWait?
  }

  /** Between publishing POLLING and the blocking poll, outside the search. */
  predicate PollRegion(c: Pc) {
    (TakePc(c) && (c.site.AtPoll1? || c.site.AtPoll2?)) || (c.Search? && c.quest.FromPoll?) || c.PollBlock?
  }

  /** Past the last look at the queues: the worker blocks next, or is blocked. */
  predicate Final(pc: Pc) { pc.PollCas2? || pc.SemWait? || pc.PollBlock? }

  /** As Final, or just woken without having been reserved. */
  predicate Settled(pc: Pc) { Final(pc) || pc.SemWoke? }

  /** A wake is owed and not yet finished. */
  predicate Pending(pc: Pc, sub: Sub) {
    pc.Handoff? || sub.Wake0? || sub.Wake1? || sub.Wake2? || sub.Batch? || sub.BatchReady? || sub == Unlocking(ThenWake)
  }

  predicate WillSignal(sub: Sub, w: nat, kind: WState) {
    match sub
    case Signal(v, k, poller) => v == w && (k == kind || (poller && kind.Polling?))
    case Unlocking(ThenSignal(v, k, poller)) => v == w && (k == kind || (poller && kind.Polling?))
    case _ => false
  }

  /** Worker `w`'s wake-up of the given kind has been sent or is about to be. */
  ghost predicate Signalled(s: State, w: nat, kind: WState)
    requires Shape(s) && w < s.n
  {
    || (kind.Waiting? && s.sem[w] > 0)
    || (kind.Polling? && s.wakeBytes > 0)
    || exists u :: 0 <= u < |s.pc| && WillSignal(s.sub[u], w, kind)
  }

  // ---- the invariant ------------------------------------------------------------------------------------------

  predicate PcsOk(s: State)
    requires Shape(s)
  {
    forall t :: 0 <= t < |s.pc| ==> Wf(s.pc[t], s.sub[t]) && (s.pc[t].Outside? <==> t >= s.n)
  }

  predicate LockOk(s: State)
    requires Shape(s)
  {
    && (s.lock.Some? ==> s.lock.value.worker < s.n && s.st[s.lock.value.worker] == s.lock.value.to
                         && s.lock.value.holder < |s.pc| && s.sub[s.lock.value.holder].Unlocking?)
    && (forall t :: 0 <= t < |s.pc| && s.sub[t].Unlocking? ==> s.lock.Some? && s.lock.value.holder == t)
    // a worker locked in the middle of its own transition is the one being moved
    && (s.lock.Some? && IdleState(s.lock.value.to) ==>
          s.lock.value.worker == s.lock.value.holder && TakePc(s.pc[s.lock.value.holder]))
  }

  function Those(st: seq<WState>, idle: bool): set<int> {
    set w | 0 <= w < |st| && Counted(st[w], idle)
  }

  predicate Counted(w: WState, idle: bool) { if idle then IdleState(w) else w.Searching? }

  function Counter(s: State, idle: bool): int { if idle then s.numIdle else s.numSearching }

  /** A counter is exact, but for the worker in the middle of a locked transition. */
  predicate CounterOk(s: State, idle: bool) {
    Bump(Counter(s, idle), s.lock.Some? && Counted(s.lock.value.to, idle)) == |Those(s.st, idle)|
  }

  predicate CountersOk(s: State) { CounterOk(s, false) && CounterOk(s, true) }

  predicate PollerOk(s: State)
    requires Shape(s)
  {
    && s.pollerBy < s.n
    && (forall t :: 0 <= t < |s.pc| ==> (InPoller(s.pc[t]) <==> s.pollerRunning && s.pollerBy == t))
    && (!s.pollerRunning ==> !s.pc[s.pollerBy].SemWait?)
  }

  predicate StatesOk(s: State)
    requires Shape(s)
  {
    forall w :: 0 <= w < s.n ==>
      && (WaitRegion(s.pc[w]) ==> s.st[w].Waiting? || s.st[w].Searching?)
      && (PollRegion(s.pc[w]) ==> s.st[w].Polling? || s.st[w].Searching?)
  }

  /** A worker reserved as SEARCHING by someone else while going to sleep has its wake-up on the way. */
  ghost predicate SignalsOk(s: State)
    requires Shape(s)
  {
    forall w :: 0 <= w < s.n && s.st[w].Searching? ==>
      && (WaitRegion(s.pc[w]) ==> Signalled(s, w, Waiting))
      && (PollRegion(s.pc[w]) ==> Signalled(s, w, Polling))
  }

  /** Looking for work, or idle but still going to look at the queue again. */
  predicate Hot(s: State, w: nat)
    requires Shape(s) && w < s.n
  {
    s.st[w].Searching? || (IdleState(s.st[w]) && !Settled(s.pc[w]))
  }

  /** Queued global work is in somebody's care, or nobody is idle. */
  ghost predicate WorkCared(s: State)
    requires Shape(s)
  {
    || s.runq == []
    || (exists t :: 0 <= t < |s.pc| && Pending(s.pc[t], s.sub[t]))
    || (exists w :: 0 <= w < s.n && Hot(s, w))
    || (forall w :: 0 <= w < s.n ==> !IdleState(s.st[w]))
  }

  /** The worker's runnext slot, or both its queues, were seen empty and only it could have refilled them. */
  predicate NextTaken(c: Pc, cur: Option<Coro>) { c.TakeRing? || Quiet(c, cur) }

  predicate Quiet(c: Pc, cur: Option<Coro>) {
    || c.TakeRunq? || ((c.TakeNext? || c.TakeRing?) && !c.site.AtTop? && !c.site.AtPolled1?)
    || c.TryPoll? || c.Search? || c.Steal? || c.Relapse? || c.PollCas1? || c.PubWaiting? || c.PollCas2? || c.SemWait?
    || c.PubPolling? || c.PollBlock?
    || ((c.Dispatch? || c.DispatchReady? || (c.Polled? && !c.blocking)) && cur.None?)
  }

  predicate QuietOk(s: State)
    requires Shape(s)
  {
    forall w :: 0 <= w < s.n ==>
      && (NextTaken(s.pc[w], s.cur[w]) ==> s.runnext[w].None?)
      && (Quiet(s.pc[w], s.cur[w]) ==> s.ring[w] == [])
  }

  predicate Orderly(s: State) {
    Shape(s) && PcsOk(s) && LockOk(s) && PollerOk(s) && StatesOk(s) && QuietOk(s)
  }

  ghost predicate Inv(s: State) {
    Orderly(s) && CountersOk(s) && SignalsOk(s) && WorkCared(s)
  }

  // ---- counters -------------------------------------------------------------------------------------------------

  lemma ThoseUpdate(st: seq<WState>, w: nat, to: WState, idle: bool)
    requires w < |st|
    ensures |Those(st[w := to], idle)| == Bump(Drop(|Those(st, idle)|, Counted(st[w], idle)), Counted(to, idle))
  {
    ThoseBut(st, w, st[w], idle);
    ThoseBut(st, w, to, idle);
    assert st[w := st[w]] == st;
  }

  /** All counted workers but `w`, and `w` if its state counts. */
  lemma ThoseBut(st: seq<WState>, w: nat, to: WState, idle: bool)
    requires w < |st|
    ensures var rest := Those(st, idle) - {w};
            w !in rest && Those(st[w := to], idle) == if Counted(to, idle) then rest + {w} else rest
  {
  }

  lemma TransitionCount(s: State, t: Tid, w: nat, to: WState, pc: Pc, after: After, idle: bool)
    requires Shape(s) && t < |s.pc| && w < s.n && s.lock.None? && CounterOk(s, idle) && s.st[w] != to
    ensures CounterOk(Transition(s, t, w, to, pc, after), idle)
  {
    ThoseUpdate(s.st, w, to, idle);
  }
}
