/** The worker loop of src/runtime/scheduler.c as an interleaving of its atomic operations.
    Threads 0..n are workers; the others are threads outside the pool. Ring and global-queue operations are single
    steps (WorkStealingQueue and RunQueue show why); a section under worker_state_lock is two, because the idle and
    searching counters it moves are also read without the lock. */
module SchedulerModel {
  import opened Prelude

  type Coro = nat
  type Tid = nat

  const RING_CAP := 256
  const BATCH_CAP := 128

  datatype WState = Running | Searching | Waiting | Polling
  datatype CoState = New | Runnable | Executing | Parked | Dead

  /** The seven calls of `_sched_worker_take_runnable`, in source order within the two loops. */
  datatype Site = AtTop | AtWait1 | AtWait2 | AtPoll1 | AtPoll2 | AtPolled1 | AtPolled2

  /** The four calls of `_sched_worker_try_begin_search`. */
  datatype Quest = FromTop | FromWait | FromPoll | FromPolled

  /** Where a thread stands in its loop, or will stand once the subroutine it is in returns. */
  datatype Pc =
    | Outside
    | Top | FairPop
    | TakeNext(site: Site) | TakeRing(site: Site) | TakeRunq(site: Site) | TakePush(site: Site)
    | TryPoll | Search(quest: Quest) | Steal(quest: Quest, i: nat) | StealPush(quest: Quest) | Relapse(quest: Quest)
    | PollCas1 | PubWaiting | PollCas2 | SemWait | SemWoke
    | PubPolling | PollBlock | Dispatch(blocking: bool, local: bool) | DispatchReady(blocking: bool, local: bool)
    | Polled(blocking: bool) | PollTimers
    | Found | PollFound | Handoff(blocking: bool)
    | Exec | Run | Commit | LocalEnq

  /** What follows the release of worker_state_lock. */
  datatype After = Return | ThenWake | ThenSignal(target: nat, kind: WState, poller: bool)

  /** The subroutine a thread is inside. */
  datatype Sub =
    | NoCall
    | Ready(born: bool) | EnqNext | EnqPush | EnqHalf | FlushRunq | Batch | BatchReady
    | Notify(owner: nat)
    | Wake0 | Wake1 | Wake2 | Signal(target: nat, kind: WState, poller: bool)
    | Unlocking(after: After)

  /** A section under worker_state_lock between taking one counter down and the other up. */
  datatype Mid = Mid(holder: Tid, worker: nat, to: WState)

  /** The one place a coroutine is at. */
  datatype Place =
    | InRunnext(w: nat) | InRing(w: nat) | InRunq
    | InCur(t: Tid) | InHand(t: Tid) | InClaim(t: Tid) | InSlot | Gone | Lost

  /** `cur` is the coroutine a worker is about to run or runs, `hand` what it carries between queues, `claim` a
      waiter it has taken out of a wait slot. `slots` holds the coroutines published by a commit callback.
      `place` and `pollerBy`, the worker that last became poller, are bookkeeping that no step reads. */
  datatype State = State(
    n: nat,
    pc: seq<Pc>, sub: seq<Sub>, cur: seq<Option<Coro>>, hand: seq<seq<Coro>>, claim: seq<Option<Coro>>,
    st: seq<WState>, sem: seq<nat>, runnext: seq<Option<Coro>>, ring: seq<seq<Coro>>,
    runq: seq<Coro>, slots: set<Coro>, co: map<Coro, CoState>,
    numSearching: int, numIdle: int, lock: Option<Mid>, pollerRunning: bool, wakeBytes: nat,
    aborted: bool, place: map<Coro, Place>, pollerBy: Tid)

  predicate IdleState(w: WState) { w == Waiting || w == Polling }

  predicate Shape(s: State) {
    && 0 < s.n <= |s.pc|
    && |s.sub| == |s.pc| && |s.cur| == |s.pc| && |s.hand| == |s.pc| && |s.claim| == |s.pc|
    && |s.st| == s.n && |s.sem| == s.n && |s.runnext| == s.n && |s.ring| == s.n
  }

  predicate Init(s: State) {
    && Shape(s)
    && (forall t :: 0 <= t < |s.pc| ==>
          && s.pc[t] == (if t < s.n then Top else Outside)
          && s.sub[t] == NoCall && s.cur[t] == None && s.hand[t] == [] && s.claim[t] == None)
    && (forall w :: 0 <= w < s.n ==> s.st[w] == Running && s.sem[w] == 0 && s.runnext[w] == None && s.ring[w] == [])
    && s.runq == [] && s.slots == {} && s.co == map[] && s.place == map[]
    && s.numSearching == 0 && s.numIdle == 0 && s.lock == None && !s.pollerRunning && s.wakeBytes == 0 && !s.aborted
    && s.pollerBy == 0
  }

  // ---- control flow -------------------------------------------------------------------------------------------

  /** Where a take that produced a coroutine, or nothing, goes on. */
  function Hit(site: Site): Pc {
    if site.AtTop? || site.AtWait1? || site.AtWait2? then Found else PollFound
  }

  function Miss(site: Site): Pc {
    match site
    case AtTop => TryPoll
    case AtWait1 => Search(FromWait)
    case AtWait2 => PollCas2
    case AtPoll1 => Search(FromPoll)
    case AtPoll2 => PollBlock
    case AtPolled1 => Search(FromPolled)
    case AtPolled2 => PubPolling
  }

  function StealWon(q: Quest): Pc { if q.FromTop? || q.FromWait? then Found else PollFound }

  /** The next take after a search was refused, or failed and went back to its idle state. */
  function AfterSearch(q: Quest): Pc {
    match q
    case FromTop => PollCas1
    case FromWait => TakeNext(AtWait2)
    case FromPoll => TakeNext(AtPoll2)
    case FromPolled => TakeNext(AtPolled2)
  }

  function Jump(s: State, t: Tid, pc: Pc, sub: Sub): (s': State)
    requires t < |s.pc| == |s.sub|
    ensures Shape(s) ==> Shape(s')
  {
    s.(pc := s.pc[t := pc], sub := s.sub[t := sub])
  }

  function Go(s: State, t: Tid, pc: Pc): (s': State)
    requires t < |s.pc| == |s.sub|
    ensures Shape(s) ==> Shape(s')
  {
    s.(pc := s.pc[t := pc])
  }

  function Call(s: State, t: Tid, sub: Sub): (s': State)
    requires t < |s.pc| == |s.sub|
    ensures Shape(s) ==> Shape(s')
  {
    s.(sub := s.sub[t := sub])
  }

  // ---- worker_state_lock sections -----------------------------------------------------------------------------

  function Bump(x: int, yes: bool): int { if yes then x + 1 else x }
  function Drop(x: int, yes: bool): int { if yes then x - 1 else x }

  function Resume(after: After): Sub {
    match after
    case Return => NoCall
    case ThenWake => Wake0
    case ThenSignal(w, kind, poller) => Signal(w, kind, poller)
  }

  /** `_sched_worker_transition` of worker `w`, up to the point where the old state's counter has gone down. */
  function Transition(s: State, t: Tid, w: nat, to: WState, pc: Pc, after: After): (s': State)
    requires Shape(s) && t < |s.pc| && w < s.n
    ensures Shape(s')
  {
    var same := s.st[w] == to;
    Jump(s.(st := s.st[w := to],
            numSearching := Drop(s.numSearching, !same && s.st[w].Searching?),
            numIdle := Drop(s.numIdle, !same && IdleState(s.st[w])),
            lock := if same then s.lock else Some(Mid(t, w, to))),
         t, pc, if same then Resume(after) else Unlocking(after))
  }

  function Unlock(s: State, t: Tid): (s': State)
    requires Shape(s) && t < |s.pc| && s.sub[t].Unlocking? && s.lock.Some?
    ensures Shape(s')
  {
    Call(s.(numSearching := Bump(s.numSearching, s.lock.value.to.Searching?),
            numIdle := Bump(s.numIdle, IdleState(s.lock.value.to)),
            lock := None), t, Resume(s.sub[t].after))
  }

  function MaxSearchers(n: nat): nat { n / 2 + n % 2 }

  // ---- moving coroutines --------------------------------------------------------------------------------------

  function Put(place: map<Coro, Place>, cs: seq<Coro>, p: Place): map<Coro, Place> {
    map c | c in place :: if c in cs then p else place[c]
  }

  function Room(s: State, w: nat): int
    requires Shape(s) && w < s.n
  {
    var free := RING_CAP - |s.ring[w]|;
    if free > BATCH_CAP then BATCH_CAP else free
  }

  lemma {:induction false} AtLeastOnce(c: nat, d: nat)
    requires c > 0
    ensures c * d >= d
  {
    if c > 1 {
      AtLeastOnce(c - 1, d);
      assert c * d == (c - 1) * d + d;
    }
  }

  lemma QuotientAtMost(q: nat, c: nat)
    requires c > 0
    ensures 0 <= q / c <= q
  {
    var d := q / c;
    assert q == c * d + q % c;
    AtLeastOnce(c, d);
  }

  /** `runq_pop_fair`: a ceiling share of the queue, capped. */
  function FairShare(queued: nat, room: int, consumers: nat): (take: nat)
    requires consumers > 0
    ensures take <= queued
    ensures take == 0 <==> queued == 0 || room <= 0
    ensures room > 0 ==> take <= room
  {
    QuotientAtMost(queued, consumers);
    if room <= 0 then 0
    else
      var take := if queued / consumers < queued then queued / consumers + 1 else queued / consumers;
      if take > room then room else take
  }

  /** Appends to the worker's own ring; a full ring swallows the coroutine, as the unchecked calls would. */
  function PushRing(s: State, w: nat, c: Coro): State
    requires Shape(s) && w < s.n
  {
    var fits := |s.ring[w]| < RING_CAP;
    s.(ring := if fits then s.ring[w := s.ring[w] + [c]] else s.ring,
       place := Put(s.place, [c], if fits then InRing(w) else Lost))
  }

  /** `_sched_coro_transition`: anything but the expected state aborts. */
  function CoTransition(s: State, c: Coro, from: CoState, to: CoState): State {
    var ok := c in s.co && s.co[c] == from;
    s.(co := if ok then s.co[c := to] else s.co, aborted := s.aborted || !ok)
  }

  /** The first coroutine becomes `cur`, the rest are carried. */
  function TakeBatch(s: State, t: Tid, batch: seq<Coro>, pc: Pc): State
    requires Shape(s) && t < |s.pc| && |batch| > 0
  {
    Go(s.(cur := s.cur[t := Some(batch[0])], hand := s.hand[t := batch[1..]],
          place := Put(Put(s.place, batch[1..], InHand(t)), [batch[0]], InCur(t))), t, pc)
  }

  function FlushHand(s: State, t: Tid, pc: Pc, sub: Sub): State
    requires Shape(s) && t < |s.pc|
  {
    Jump(s.(runq := s.runq + s.hand[t], hand := s.hand[t := []], place := Put(s.place, s.hand[t], InRunq)), t, pc, sub)
  }

  // ---- taking from the queues: _sched_worker_take_runnable, and the fairness pop ---------------------------------

  /** Inside its own loop, not in a subroutine. */
  predicate AtLoop(s: State, t: Tid)
    requires Shape(s)
  {
    t < s.n && s.sub[t].NoCall?
  }

  predicate DoFairPop(s: State, t: Tid, s': State)
    requires Shape(s)
  {
    && AtLoop(s, t) && s.pc[t].FairPop? && s.runq != []
    && s' == TakeBatch(s.(runq := s.runq[1..]), t, [s.runq[0]], Found)
  }

  predicate DoTakeNext(s: State, t: Tid, s': State)
    requires Shape(s)
  {
    && AtLoop(s, t) && s.pc[t].TakeNext? && s.runnext[t].Some?
    && s' == TakeBatch(s.(runnext := s.runnext[t := None]), t, [s.runnext[t].value], Hit(s.pc[t].site))
  }

  predicate DoTakeRing(s: State, t: Tid, s': State)
    requires Shape(s)
  {
    && AtLoop(s, t) && s.pc[t].TakeRing? && s.ring[t] != []
    && s' == TakeBatch(s.(ring := s.ring[t := s.ring[t][1..]]), t, [s.ring[t][0]], Hit(s.pc[t].site))
  }

  /** How many the worker's share of the global queue is; the rest of the batch must fit its ring. */
  function TakeCount(s: State, t: Tid): nat
    requires Shape(s) && t < s.n
  {
    FairShare(|s.runq|, Room(s, t), s.n)
  }

  predicate DoTakeRunq(s: State, t: Tid, s': State)
    requires Shape(s)
  {
    && AtLoop(s, t) && s.pc[t].TakeRunq? && TakeCount(s, t) > 0
    && var k := TakeCount(s, t);
       s' == TakeBatch(s.(runq := s.runq[k..]), t, s.runq[..k], TakePush(s.pc[t].site))
  }

  /** One unchecked push of the rest of a batch into the worker's own ring. */
  predicate DoPushRest(s: State, t: Tid, s': State)
    requires Shape(s)
  {
    AtLoop(s, t) && (s.pc[t].TakePush? || s.pc[t].StealPush?) && s.hand[t] != [] && s' == PushOne(s, t)
  }

  function PushOne(s: State, t: Tid): State
    requires Shape(s) && t < s.n && s.hand[t] != []
  {
    PushRing(s, t, s.hand[t][0]).(hand := s.hand[t := s.hand[t][1..]])
  }

  // ---- searching: _sched_worker_try_begin_search and _sched_worker_steal_runnable --------------------------------

  predicate DoSearch(s: State, t: Tid, s': State)
    requires Shape(s)
  {
    && AtLoop(s, t) && s.pc[t].Search? && s.lock.None?
    && !s.st[t].Searching? && s.numSearching < MaxSearchers(s.n)
    && s' == Transition(s, t, t, Searching, Steal(s.pc[t].quest, 0), Return)
  }

  predicate DoNoSearch(s: State, t: Tid, s': State)
    requires Shape(s)
  {
    && AtLoop(s, t) && s.pc[t].Search? && s.lock.None?
    && (s.st[t].Searching? || s.numSearching >= MaxSearchers(s.n))
    && s' == Go(s, t, if s.st[t].Searching? then Steal(s.pc[t].quest, 0) else AfterSearch(s.pc[t].quest))
  }

  /** The victim of the i-th attempt: every other worker's ring once around, then every other runnext. */
  function Victim(s: State, t: Tid): nat
    requires Shape(s) && t < s.n && s.pc[t].Steal?
  {
    var i := s.pc[t].i;
    (t + 1 + (if i < s.n - 1 then i else i - (s.n - 1))) % s.n
  }

  predicate RobsRing(s: State, t: Tid)
    requires Shape(s) && t < s.n && s.pc[t].Steal?
  {
    s.pc[t].i < s.n - 1 && s.ring[Victim(s, t)] != []
  }

  predicate RobsNext(s: State, t: Tid)
    requires Shape(s) && t < s.n && s.pc[t].Steal?
  {
    s.n - 1 <= s.pc[t].i < 2 * (s.n - 1) && s.runnext[Victim(s, t)].Some?
  }

  predicate DoStealRing(s: State, t: Tid, grab: nat, s': State)
    requires Shape(s)
  {
    && AtLoop(s, t) && s.pc[t].Steal? && RobsRing(s, t)
    && var v := Victim(s, t);
       // the count was derived from an older tail, so any run from the head may be taken
       && 1 <= grab <= |s.ring[v]| && grab <= Room(s, t)
       && s' == TakeBatch(s.(ring := s.ring[v := s.ring[v][grab..]]), t, s.ring[v][..grab], StealPush(s.pc[t].quest))
  }

  predicate DoStealNext(s: State, t: Tid, s': State)
    requires Shape(s)
  {
    && AtLoop(s, t) && s.pc[t].Steal? && RobsNext(s, t)
    && var v := Victim(s, t);
       s' == TakeBatch(s.(runnext := s.runnext[v := None]), t, [s.runnext[v].value], StealWon(s.pc[t].quest))
  }

  // ---- moving on with nothing found, or with the batch stowed away -----------------------------------------------

  /** The next program point when a queue was empty, a batch is stowed, or a call has returned. */
  function Onward(pc: Pc, fair: bool, last: bool, cur: Option<Coro>): Option<Pc> {
    match pc
    case Top => Some(if fair then FairPop else TakeNext(AtTop))
    case FairPop => Some(TakeNext(AtTop))
    case TakeNext(site) => Some(TakeRing(site))
    case TakeRing(site) => Some(TakeRunq(site))
    case TakeRunq(site) => Some(Miss(site))
    case TakePush(site) => Some(Hit(site))
    case StealPush(q) => Some(StealWon(q))
    case Steal(q, i) => Some(if !last then Steal(q, i + 1) else if q.FromTop? then PollCas1 else Relapse(q))
    case PollBlock => Some(Dispatch(true, false))
    case Polled(blocking) => if blocking then Some(PollTimers) else if cur.Some? then Some(Handoff(false)) else None
    case PollTimers => Some(if cur.Some? then PollFound else TakeNext(AtPolled1))
    case _ => None
  }

  predicate NothingLeft(s: State, t: Tid)
    requires Shape(s) && t < s.n
  {
    match s.pc[t]
    case FairPop => s.runq == []
    case TakeNext(_) => s.runnext[t].None?
    case TakeRing(_) => s.ring[t] == []
    case TakeRunq(_) => TakeCount(s, t) == 0
    case TakePush(_) => s.hand[t] == []
    case StealPush(_) => s.hand[t] == []
    case Steal(_, _) => !RobsRing(s, t) && !RobsNext(s, t)
    case _ => true
  }

  predicate DoMove(s: State, t: Tid, fair: bool, s': State)
    requires Shape(s)
  {
    && AtLoop(s, t) && NothingLeft(s, t)
    && var last := s.pc[t].Steal? && s.pc[t].i >= 2 * (s.n - 1);
       var next := Onward(s.pc[t], fair, last, s.cur[t]);
       next.Some? && s' == Go(s, t, next.value)
  }

  // ---- going idle and coming back --------------------------------------------------------------------------------

  /** The worker states a worker publishes about itself, and where it goes on. */
  function Publication(pc: Pc, st: WState): Option<(WState, Pc, After)> {
    match pc
    case Relapse(q) => Some((if q.FromWait? then Waiting else Polling, AfterSearch(q), Return))
    case PubWaiting => Some((Waiting, TakeNext(AtWait1), Return))
    case PubPolling => Some((Polling, TakeNext(AtPoll1), Return))
    case SemWoke => Some((if st.Waiting? then Running else st, Top, Return))
    case Found => Some((Running, Exec, if st.Running? then Return else ThenWake))
    case PollFound => Some((Running, Handoff(true), Return))
    case _ => None
  }

  predicate DoPublish(s: State, t: Tid, s': State)
    requires Shape(s)
  {
    && AtLoop(s, t) && s.lock.None? && Publication(s.pc[t], s.st[t]).Some?
    && var (to, pc, after) := Publication(s.pc[t], s.st[t]).value;
       s' == Transition(s, t, t, to, pc, after)
  }

  predicate DoSemWait(s: State, t: Tid, timeout: bool, s': State)
    requires Shape(s)
  {
    && AtLoop(s, t) && s.pc[t].SemWait? && (timeout || s.sem[t] > 0)
    && s' == Go(s.(sem := s.sem[t := if timeout then s.sem[t] else s.sem[t] - 1]), t, SemWoke)
  }

  predicate DoUnlock(s: State, t: Tid, s': State)
    requires Shape(s)
  {
    t < |s.pc| && s.sub[t].Unlocking? && s.lock.Some? && s' == Unlock(s, t)
  }

  // ---- waking: _sched_wake_worker, _sched_timer_notify_deadline, _sched_worker_signal ----------------------------

  /** The two unlocked counter reads. */
  predicate DoWakeRead(s: State, t: Tid, s': State)
    requires Shape(s)
  {
    && t < |s.pc| && (s.sub[t].Wake0? || s.sub[t].Wake1?)
    && s' == Call(s, t, if s.sub[t].Wake0? then (if s.numSearching != 0 then NoCall else Wake1)
                        else (if s.numIdle == 0 then NoCall else Wake2))
  }

  /** The locked recheck: there is a searcher by now, or nobody idle to wake, ... */
  ghost predicate DoSkipReserve(s: State, t: Tid, s': State)
    requires Shape(s)
  {
    && t < |s.pc| && s.sub[t].Wake2? && s.lock.None?
    && (s.numSearching != 0 || s.numIdle == 0 || (forall w :: 0 <= w < s.n ==> !IdleState(s.st[w])))
    && s' == Call(s, t, NoCall)
  }

  /** ... or the scan reserves an idle worker. */
  predicate DoReserve(s: State, t: Tid, target: nat, s': State)
    requires Shape(s)
  {
    && t < |s.pc| && s.sub[t].Wake2? && s.lock.None? && s.numSearching == 0 && s.numIdle != 0
    && target < s.n && IdleState(s.st[target])
    && s' == Transition(s, t, target, Searching, s.pc[t], ThenSignal(target, s.st[target], false))
  }

  /** The owner of an earlier deadline, and a poller other than it, are to recompute their timeouts. */
  ghost function NotifyPlan(s: State, owner: nat): After
    requires Shape(s) && owner < s.n
  {
    var other := exists w :: 0 <= w < s.n && w != owner && s.st[w].Polling?;
    ThenSignal(owner, s.st[owner], other && !s.st[owner].Polling?)
  }

  ghost predicate DoNotify(s: State, t: Tid, s': State)
    requires Shape(s)
  {
    && t < |s.pc| && s.sub[t].Notify? && s.lock.None? && s.sub[t].owner < s.n
    && var owner := s.sub[t].owner;
       s' == Transition(s, t, owner, if IdleState(s.st[owner]) then Searching else s.st[owner], s.pc[t],
                        NotifyPlan(s, owner))
  }

  predicate DoSignal(s: State, t: Tid, s': State)
    requires Shape(s)
  {
    && t < |s.pc| && s.sub[t].Signal? && s.sub[t].target < s.n
    && var Signal(w, kind, poller) := s.sub[t];
       s' == Call(s.(sem := s.sem[w := if kind.Waiting? then s.sem[w] + 1 else s.sem[w]],
                     wakeBytes := if kind.Polling? then s.wakeBytes + 1 else s.wakeBytes),
                  t, if poller then Signal(w, Polling, false) else NoCall)
  }

  // ---- the poller role, and _sched_worker_dispatch_poller_runnables ----------------------------------------------

  /** The compare-exchanges of poller_running: on success the first pc, otherwise the second. */
  function PollerCas(pc: Pc): Option<(Pc, Pc)> {
    match pc
    case TryPoll => Some((Dispatch(false, false), Search(FromTop)))
    case PollCas1 => Some((PubPolling, PubWaiting))
    case PollCas2 => Some((PubPolling, SemWait))
    case _ => None
  }

  predicate DoPollerCas(s: State, t: Tid, s': State)
    requires Shape(s)
  {
    && AtLoop(s, t) && PollerCas(s.pc[t]).Some?
    && var (won, lost) := PollerCas(s.pc[t]).value;
       s' == Go(s.(pollerRunning := true, pollerBy := if s.pollerRunning then s.pollerBy else t), t,
                if s.pollerRunning then lost else won)
  }

  /** Giving the role up: after an empty non-blocking poll, or with work in hand and a wake for a successor. */
  predicate DoPollerRelease(s: State, t: Tid, s': State)
    requires Shape(s)
  {
    && AtLoop(s, t) && (s.pc[t].Handoff? || (s.pc[t] == Polled(false) && s.cur[t].None?))
    && s' == Jump(s.(pollerRunning := false), t,
                  if s.pc[t].Polled? then Search(FromTop) else if s.pc[t].blocking then Exec else Found,
                  if s.pc[t].Polled? then NoCall else Wake0)
  }

  predicate DoClaimEvent(s: State, t: Tid, c: Coro, s': State)
    requires Shape(s)
  {
    && AtLoop(s, t) && s.pc[t].Dispatch? && c in s.slots
    && s' == Go(TakeClaim(s, t, c), t, DispatchReady(s.pc[t].blocking, s.pc[t].local))
  }

  predicate DoFlushWakeup(s: State, t: Tid, s': State)
    requires Shape(s)
  {
    AtLoop(s, t) && s.pc[t].Dispatch? && s' == s.(wakeBytes := 0)
  }

  predicate DoEndDispatch(s: State, t: Tid, s': State)
    requires Shape(s)
  {
    && AtLoop(s, t) && s.pc[t].Dispatch?
    && var wake := s.n > 1 && (s.pc[t].local || s.hand[t] != []);
       s' == FlushHand(s, t, Polled(s.pc[t].blocking), if wake then Wake0 else NoCall)
  }

  /** The claimed waiter becomes runnable: the first one is run now, the others go to the ring or are carried. */
  predicate DoDispatchFirst(s: State, t: Tid, s': State)
    requires Shape(s)
  {
    && AtLoop(s, t) && s.pc[t].DispatchReady? && s.claim[t].Some? && s.cur[t].None?
    && var c := s.claim[t].value;
       s' == Go(CoTransition(s, c, Parked, Runnable).(claim := s.claim[t := None], cur := s.cur[t := Some(c)],
                place := Put(s.place, [c], InCur(t))), t, Dispatch(s.pc[t].blocking, s.pc[t].local))
  }

  predicate DoDispatchMore(s: State, t: Tid, s': State)
    requires Shape(s)
  {
    && AtLoop(s, t) && s.pc[t].DispatchReady? && s.claim[t].Some? && s.cur[t].Some?
    && var c := s.claim[t].value;
       var fits := |s.ring[t]| < RING_CAP;
       s' == Go(CoTransition(s, c, Parked, Runnable).(claim := s.claim[t := None],
                ring := if fits then s.ring[t := s.ring[t] + [c]] else s.ring,
                hand := if fits then s.hand else s.hand[t := s.hand[t] + [c]],
                place := Put(s.place, [c], if fits then InRing(t) else InHand(t))),
                t, Dispatch(s.pc[t].blocking, s.pc[t].local || fits))
  }

  function TakeClaim(s: State, t: Tid, c: Coro): State
    requires Shape(s) && t < |s.pc|
  {
    s.(slots := s.slots - {c}, claim := s.claim[t := Some(c)], place := Put(s.place, [c], InClaim(t)))
  }

  // ---- running a coroutine: _sched_worker_execute_runnable -------------------------------------------------------

  predicate Holding(s: State, t: Tid, pc: Pc)
    requires Shape(s)
  {
    AtLoop(s, t) && s.pc[t] == pc && s.cur[t].Some?
  }

  predicate DoExec(s: State, t: Tid, s': State)
    requires Shape(s)
  {
    Holding(s, t, Exec) && s' == Go(CoTransition(s, s.cur[t].value, Runnable, Executing), t, Run)
  }

  predicate DoExit(s: State, t: Tid, s': State)
    requires Shape(s)
  {
    && Holding(s, t, Run)
    && var c := s.cur[t].value;
       s' == Go(CoTransition(s, c, Executing, Dead).(cur := s.cur[t := None], place := Put(s.place, [c], Gone)), t, Top)
  }

  predicate DoYield(s: State, t: Tid, s': State)
    requires Shape(s)
  {
    Holding(s, t, Run) && s' == Go(CoTransition(s, s.cur[t].value, Executing, Runnable), t, LocalEnq)
  }

  predicate DoPark(s: State, t: Tid, s': State)
    requires Shape(s)
  {
    Holding(s, t, Run) && s' == Go(CoTransition(s, s.cur[t].value, Executing, Parked), t, Commit)
  }

  /** The commit callback publishes the waiter and returns true. */
  predicate DoAccept(s: State, t: Tid, s': State)
    requires Shape(s)
  {
    && Holding(s, t, Commit)
    && var c := s.cur[t].value;
       s' == Go(s.(slots := s.slots + {c}, cur := s.cur[t := None], place := Put(s.place, [c], InSlot)), t, Top)
  }

  /** The commit callback returns false and has published nothing. */
  predicate DoRefuse(s: State, t: Tid, s': State)
    requires Shape(s)
  {
    Holding(s, t, Commit) && s' == Go(CoTransition(s, s.cur[t].value, Parked, Runnable), t, LocalEnq)
  }

  /** `_sched_worker_enqueue_runnable`. */
  predicate DoLocalEnq(s: State, t: Tid, s': State)
    requires Shape(s)
  {
    && Holding(s, t, LocalEnq)
    && var c := s.cur[t].value;
       var fits := |s.ring[t]| < RING_CAP;
       s' == Jump(s.(cur := s.cur[t := None],
                     ring := if fits then s.ring[t := s.ring[t] + [c]] else s.ring,
                     runq := if fits then s.runq else s.runq + [c],
                     place := Put(s.place, [c], if fits then InRing(t) else InRunq)), t, Top,
                         if fits then NoCall else Wake0)
  }

  // ---- making coroutines runnable: scheduler_coro_ready, _sched_coro_start, _sched_enqueue_runnable --------------

  predicate DoReady(s: State, t: Tid, s': State)
    requires Shape(s)
  {
    && t < |s.pc| && s.sub[t].Ready? && s.claim[t].Some?
    && var c := s.claim[t].value;
       var r := CoTransition(s, c, if s.sub[t].born then New else Parked, Runnable);
       s' == Call(r.(claim := s.claim[t := None], hand := s.hand[t := [c]], place := Put(s.place, [c], InHand(t))), t,
                  if t < s.n then EnqNext else FlushRunq)
  }

  predicate DoEnqNext(s: State, t: Tid, s': State)
    requires Shape(s)
  {
    && t < s.n && s.sub[t].EnqNext? && |s.hand[t]| == 1
    && var c := s.hand[t][0];
       var r := s.(runnext := s.runnext[t := Some(c)]);
       var was := if s.runnext[t].None? then [] else [s.runnext[t].value];
       s' == Call(r.(hand := s.hand[t := was], place := Put(Put(s.place, was, InHand(t)), [c], InRunnext(t))), t,
                  if was == [] then NoCall else EnqPush)
  }

  predicate DoEnqPush(s: State, t: Tid, s': State)
    requires Shape(s)
  {
    && t < s.n && s.sub[t].EnqPush? && |s.hand[t]| == 1
    && var fits := |s.ring[t]| < RING_CAP;
       var c := s.hand[t][0];
       s' == Call(s.(ring := if fits then s.ring[t := s.ring[t] + [c]] else s.ring,
                     hand := s.hand[t := if fits then [] else [c]],
                     place := Put(s.place, [c], if fits then InRing(t) else InHand(t))), t,
                         if fits then Wake0 else EnqHalf)
  }

  predicate DoEnqHalf(s: State, t: Tid, grab: nat, s': State)
    requires Shape(s)
  {
    && t < s.n && s.sub[t].EnqHalf? && |s.hand[t]| == 1
    && grab <= |s.ring[t]| && grab <= BATCH_CAP && (grab == 0 ==> s.ring[t] == [])
    && s' == Call(s.(ring := s.ring[t := s.ring[t][grab..]], hand := s.hand[t := s.ring[t][..grab] + s.hand[t]],
                     place := Put(s.place, s.ring[t][..grab], InHand(t))), t, FlushRunq)
  }

  predicate DoFlushRunq(s: State, t: Tid, s': State)
    requires Shape(s)
  {
    t < |s.pc| && s.sub[t].FlushRunq? && s' == FlushHand(s, t, s.pc[t], Wake0)
  }

  /** Code that may make coroutines runnable or arm timers: threads outside the pool, running coroutines, and the
      timer callbacks a worker runs at the head of either loop. */
  predicate IsAgent(s: State, t: Tid)
    requires Shape(s)
  {
    && t < |s.pc| && s.sub[t].NoCall?
    && if t < s.n then s.pc[t].Top? || s.pc[t].PollTimers? || s.pc[t].Run? else s.pc[t].Outside?
  }

  predicate DoClaim(s: State, t: Tid, c: Coro, s': State)
    requires Shape(s)
  {
    IsAgent(s, t) && c in s.slots && s' == Call(TakeClaim(s, t, c), t, Ready(false))
  }

  predicate DoSpawn(s: State, t: Tid, c: Coro, s': State)
    requires Shape(s)
  {
    && IsAgent(s, t) && c !in s.co
    && s' == Call(s.(co := s.co[c := New], claim := s.claim[t := Some(c)], place := s.place[c := InClaim(t)]), t,
                  Ready(true))
  }

  predicate DoNotifyTimer(s: State, t: Tid, owner: nat, s': State)
    requires Shape(s)
  {
    IsAgent(s, t) && owner < s.n && s' == Call(s, t, Notify(owner))
  }

  /** `scheduler_coro_ready_batch`: claims are collected and flushed to the global queue, with one wake at the end. */
  predicate DoStartBatch(s: State, t: Tid, s': State)
    requires Shape(s)
  {
    IsAgent(s, t) && s' == Call(s, t, Batch)
  }

  predicate DoClaimForBatch(s: State, t: Tid, c: Coro, s': State)
    requires Shape(s)
  {
    t < |s.pc| && s.sub[t].Batch? && c in s.slots && s' == Call(TakeClaim(s, t, c), t, BatchReady)
  }

  predicate DoBatchReady(s: State, t: Tid, s': State)
    requires Shape(s)
  {
    && t < |s.pc| && s.sub[t].BatchReady? && s.claim[t].Some?
    && var c := s.claim[t].value;
       s' == Call(CoTransition(s, c, Parked, Runnable).(claim := s.claim[t := None],
                  hand := s.hand[t := s.hand[t] + [c]], place := Put(s.place, [c], InHand(t))), t, Batch)
  }

  predicate DoFlushBatch(s: State, t: Tid, s': State)
    requires Shape(s)
  {
    t < |s.pc| && s.sub[t].Batch? && s' == FlushHand(s, t, s.pc[t], Batch)
  }

  predicate DoEndBatch(s: State, t: Tid, s': State)
    requires Shape(s)
  {
    t < |s.pc| && s.sub[t].Batch? && s.hand[t] == [] && s' == Call(s, t, Wake0)
  }

  // ---- runs -------------------------------------------------------------------------------------------------------

  datatype Kind =
    | AFairPop | ATakeNext | ATakeRing | ATakeRunq | APushRest
    | ASearch | ANoSearch | AStealRing | AStealNext | AMove
    | APublish | ASemWait | AUnlock | AWakeRead | AReserve | ASkipReserve | ANotify | ASignal
    | APollerCas | APollerRelease | AClaimEvent | AFlushWakeup | AEndDispatch | ADispatchFirst | ADispatchMore
    | AExec | AExit | AYield | APark | AAccept | ARefuse | ALocalEnq
    | AReady | AEnqNext | AEnqPush | AEnqHalf | AFlushRunq | AClaim | ASpawn | ANotifyTimer
    | AStartBatch | AClaimForBatch | ABatchReady | AFlushBatch | AEndBatch

  /** Thread `t` takes a step of the given kind; `x` and `b` resolve what the code leaves open (how much a steal gets,
      which idle worker is reserved, which waiter an event names, whether a sleep times out). */
  datatype Action = Action(kind: Kind, t: Tid, x: nat, b: bool)

  /** The steps that move worker states, the counters, or signals. */
  ghost predicate WakeProtocolStep(s: State, a: Action, s': State)
    requires Shape(s)
  {
    match a.kind
    case ASearch => DoSearch(s, a.t, s')
    case APublish => DoPublish(s, a.t, s')
    case AUnlock => DoUnlock(s, a.t, s')
    case AWakeRead => DoWakeRead(s, a.t, s')
    case AReserve => DoReserve(s, a.t, a.x, s')
    case ASkipReserve => DoSkipReserve(s, a.t, s')
    case ANotify => DoNotify(s, a.t, s')
    case ASignal => DoSignal(s, a.t, s')
    case _ => false
  }

  /** The steps that move coroutines, or only the program counter. */
  predicate QueueStep(s: State, a: Action, s': State)
    requires Shape(s)
  {
    match a.kind
    case AFairPop => DoFairPop(s, a.t, s')
    case ATakeNext => DoTakeNext(s, a.t, s')
    case ATakeRing => DoTakeRing(s, a.t, s')
    case ATakeRunq => DoTakeRunq(s, a.t, s')
    case APushRest => DoPushRest(s, a.t, s')
    case ANoSearch => DoNoSearch(s, a.t, s')
    case AStealRing => DoStealRing(s, a.t, a.x, s')
    case AStealNext => DoStealNext(s, a.t, s')
    case AMove => DoMove(s, a.t, a.b, s')
    case ASemWait => DoSemWait(s, a.t, a.b, s')
    case APollerCas => DoPollerCas(s, a.t, s')
    case APollerRelease => DoPollerRelease(s, a.t, s')
    case AClaimEvent => DoClaimEvent(s, a.t, a.x, s')
    case AFlushWakeup => DoFlushWakeup(s, a.t, s')
    case AEndDispatch => DoEndDispatch(s, a.t, s')
    case ADispatchFirst => DoDispatchFirst(s, a.t, s')
    case ADispatchMore => DoDispatchMore(s, a.t, s')
    case AExec => DoExec(s, a.t, s')
    case AExit => DoExit(s, a.t, s')
    case AYield => DoYield(s, a.t, s')
    case APark => DoPark(s, a.t, s')
    case AAccept => DoAccept(s, a.t, s')
    case ARefuse => DoRefuse(s, a.t, s')
    case ALocalEnq => DoLocalEnq(s, a.t, s')
    case AReady => DoReady(s, a.t, s')
    case AEnqNext => DoEnqNext(s, a.t, s')
    case AEnqPush => DoEnqPush(s, a.t, s')
    case AEnqHalf => DoEnqHalf(s, a.t, a.x, s')
    case AFlushRunq => DoFlushRunq(s, a.t, s')
    case AClaim => DoClaim(s, a.t, a.x, s')
    case ASpawn => DoSpawn(s, a.t, a.x, s')
    case ANotifyTimer => DoNotifyTimer(s, a.t, a.x, s')
    case AStartBatch => DoStartBatch(s, a.t, s')
    case AClaimForBatch => DoClaimForBatch(s, a.t, a.x, s')
    case ABatchReady => DoBatchReady(s, a.t, s')
    case AFlushBatch => DoFlushBatch(s, a.t, s')
    case AEndBatch => DoEndBatch(s, a.t, s')
    case _ => false
  }

  ghost predicate Next(s: State, a: Action, s': State) {
    Shape(s) && !s.aborted && (WakeProtocolStep(s, a, s') || QueueStep(s, a, s'))
  }
}
