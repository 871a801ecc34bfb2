/** One direction of an iowait (src/runtime/iowait.c): the waiter word, and everything that races for it — the
    waiting coroutine, poller events, close, deadline setters and timer callbacks. One action is one access to shared
    state that a lock-free reader can see; lock acquisitions and releases are their own steps. IoWaitPair puts both
    directions under the one poll lock and closed flag. */
module IoWaitSlot {
  import opened Prelude
  import Runs

  datatype Word = Vacant | Reserved | Ready | Ptr(co: nat)

  /** The callers of `_iowait_transition_waiter` other than the waiting coroutine. */
  datatype Role = Event | Closer | Setter | Timer

  datatype Agent =
    | Idle | Wanting(role: Role) | Holding(role: Role) | Cleared(role: Role) | Marking(role: Role)
    | Entering(role: Role) | Loaded(role: Role, raw: Word) | Leaving(role: Role, got: Option<nat>)
    | Waking(co: nat)

  datatype Pc =
    | Away | Top
    | ClosedFirst | DeadlineFirst | ErrorFirst | Reserve
    | ClosedAgain | DeadlineAgain | ErrorAgain
    | Back | BackLoaded(raw: Word) | Commit | Parked

  datatype Outcome = NoOutcome | IsReady | IsClosed | IsTimeout | IsError

  /** `closer` is the agent between setting the closed flag and finishing its transition, `waker` the one that took the
      coroutine out of the word and has not made it ready yet. */
  datatype Slot = Slot(
    word: Word, closed: bool, expired: bool, failed: bool, pollLock: Option<nat>, deadlineLock: Option<nat>,
    agents: seq<Agent>, pc: Pc, co: nat, outcome: Outcome,
    closer: Option<nat>, waker: Option<nat>, aborted: bool)

  datatype Action =
    | Begin(u: nat, role: Role) | Lock(u: nat) | Decide(u: nat, go: bool)
    | Clear(u: nat) | Check(u: nat, go: bool) | Mark(u: nat, fail: bool)
    | Load(u: nat) | Exchange(u: nat) | FailExchange(u: nat) | Unlock(u: nat) | Wake(u: nat)
    | Query | Enter(who: nat) | Wait(b: bool)

  predicate Init(s: Slot) {
    && s.word == Vacant && !s.closed && s.pollLock == None && s.deadlineLock == None
    && (forall u :: 0 <= u < |s.agents| ==> s.agents[u] == Idle)
    && s.pc == Away && s.outcome == NoOutcome && s.closer == None && s.waker == None && !s.aborted
  }

  function Put(s: Slot, u: nat, a: Agent): Slot
    requires u < |s.agents|
  {
    s.(agents := s.agents[u := a])
  }

  predicate ByPoll(role: Role) { role.Event? || role.Closer? }

  // ---- events, close, deadlines -----------------------------------------------------------------------------------

  predicate DoLock(s: Slot, u: nat, s': Slot) {
    && u < |s.agents| && s.agents[u].Wanting?
    && var role := s.agents[u].role;
       && (if ByPoll(role) then s.pollLock.None? else s.deadlineLock.None?)
       && s' == Put(s, u, Holding(role)).(pollLock := if ByPoll(role) then Some(u) else s.pollLock,
                                          deadlineLock := if ByPoll(role) then s.deadlineLock else Some(u))
  }

  /** Under its lock, an event finds the closed flag or goes on, a close sets it or finds it set, and a timer callback
      finds the deadline passed and records it, or does not. */
  predicate DoDecide(s: Slot, u: nat, go: bool, s': Slot) {
    && u < |s.agents| && s.agents[u].Holding? && !s.agents[u].role.Setter?
    && var role := s.agents[u].role;
       && (ByPoll(role) && s.closed ==> !go) && (role.Closer? && !s.closed ==> go)
       && s' == Put(s, u, if go then Entering(role) else Leaving(role, None)).(
                    closed := s.closed || (role.Closer? && go),
                    closer := if role.Closer? && go then Some(u) else s.closer,
                    expired := s.expired || (role.Timer? && go))
  }

  /** A setter clears both masks, then looks at the closed flag and the clock, then records that the deadline has passed
      or that there is no timer for it. */
  predicate DoClear(s: Slot, u: nat, s': Slot) {
    && u < |s.agents| && s.agents[u].Holding? && s.agents[u].role.Setter?
    && s' == Put(s, u, Cleared(Setter)).(expired := false, failed := false)
  }

  predicate DoCheck(s: Slot, u: nat, go: bool, s': Slot) {
    && u < |s.agents| && s.agents[u].Cleared? && (s.closed ==> !go)
    && s' == Put(s, u, if go then Marking(Setter) else Leaving(Setter, None))
  }

  predicate DoMark(s: Slot, u: nat, fail: bool, s': Slot) {
    && u < |s.agents| && s.agents[u].Marking?
    && s' == Put(s, u, Entering(Setter)).(expired := s.expired || !fail, failed := s.failed || fail)
  }

  /** What the loop of `_iowait_transition_waiter` does with a freshly read word. */
  function Judge(role: Role, raw: Word): Agent {
    if raw.Ready? || (raw.Vacant? && !role.Event?) then Leaving(role, None) else Loaded(role, raw)
  }

  /** Re-reading the word, at first and whenever the exchange fails. */
  predicate DoLoad(s: Slot, u: nat, s': Slot) {
    && u < |s.agents| && (s.agents[u].Entering? || s.agents[u].Loaded?)
    && var role := s.agents[u].role;
       s' == Put(s, u, Judge(role, s.word)).(
                 closer := if role.Closer? && Judge(role, s.word).Leaving? then None else s.closer)
  }

  predicate DoExchange(s: Slot, u: nat, s': Slot) {
    && u < |s.agents| && s.agents[u].Loaded? && s.agents[u].raw == s.word
    && var role := s.agents[u].role;
       s' == Put(s, u, Leaving(role, if s.word.Ptr? then Some(s.word.co) else None)).(
                 word := if role.Event? then Ready else Vacant, waker := if s.word.Ptr? then Some(u) else s.waker,
                 closer := if role.Closer? then None else s.closer)
  }

  predicate DoUnlock(s: Slot, u: nat, s': Slot) {
    && u < |s.agents| && s.agents[u].Leaving?
    && var Leaving(role, got) := s.agents[u];
       s' == Put(s, u, if got.Some? then Waking(got.value) else Idle).(
                 pollLock := if ByPoll(role) then None else s.pollLock,
                     deadlineLock := if ByPoll(role) then s.deadlineLock else None)
  }

  /** Making a coroutine ready that is not parked would abort. */
  predicate DoWake(s: Slot, u: nat, s': Slot) {
    && u < |s.agents| && s.agents[u].Waking?
    && s' == Put(s, u, Idle).(waker := None, pc := Top, aborted := s.aborted || !s.pc.Parked? || s.agents[u].co != s.co)
  }

  predicate AgentStep(s: Slot, a: Action, s': Slot) {
    match a
    case Begin(u, role) => u < |s.agents| && s.agents[u].Idle? && s' == Put(s, u, Wanting(role))
    case Lock(u) => DoLock(s, u, s')
    case Decide(u, go) => DoDecide(s, u, go, s')
    case Clear(u) => DoClear(s, u, s')
    case Check(u, go) => DoCheck(s, u, go, s')
    case Mark(u, fail) => DoMark(s, u, fail, s')
    case Load(u) => u < |s.agents| && s.agents[u].Entering? && DoLoad(s, u, s')
    case FailExchange(u) => u < |s.agents| && s.agents[u].Loaded? && DoLoad(s, u, s')
    case Exchange(u) => DoExchange(s, u, s')
    case Unlock(u) => DoUnlock(s, u, s')
    case Wake(u) => DoWake(s, u, s')
    // anyone may ask whether the deadline has passed, which records that it has
    case Query => s.deadlineLock.None? && s' == s.(expired := true)
    case _ => false
  }

  // ---- _iowait_wait -----------------------------------------------------------------------------------------------

  predicate DoTakeReady(s: Slot, s': Slot) {
    && s.pc.Top?
    && s' == s.(word := if s.word.Ready? then Vacant else s.word, pc := if s.word.Ready? then Away else ClosedFirst,
                outcome := if s.word.Ready? then IsReady else s.outcome)
  }

  predicate DoCheckFirst(s: Slot, b: bool, s': Slot) {
    match s.pc
    case ClosedFirst => s' == s.(pc := if s.closed then Away else DeadlineFirst,
                                 outcome := if s.closed then IsClosed else s.outcome)
    case DeadlineFirst =>
      && (s.expired ==> b) && (b && !s.expired ==> s.deadlineLock.None?)
      && s' == s.(pc := if b then Away else ErrorFirst, expired := s.expired || b,
                  outcome := if b then IsTimeout else s.outcome)
    case ErrorFirst => s' == s.(pc := if s.failed then Away else Reserve,
                                outcome := if s.failed then IsError else s.outcome)
    case _ => false
  }

  predicate DoReserve(s: Slot, s': Slot) {
    && s.pc.Reserve?
    && s' == s.(word := if s.word.Vacant? then Reserved else s.word, pc := if s.word.Vacant? then ClosedAgain else Top,
                aborted := s.aborted || s.word.Reserved? || s.word.Ptr?)
  }

  predicate DoCheckAgain(s: Slot, b: bool, s': Slot) {
    match s.pc
    case ClosedAgain => s' == s.(pc := if s.closed then Back else DeadlineAgain)
    case DeadlineAgain =>
      && (s.expired ==> b) && (b && !s.expired ==> s.deadlineLock.None?)
      && s' == s.(pc := if b then Back else ErrorAgain, expired := s.expired || b)
    case ErrorAgain => s' == s.(pc := if s.failed then Back else Commit)
    case _ => false
  }

  /** Taking the reservation back with the same transition loop; it may already be gone. */
  predicate DoBack(s: Slot, spurious: bool, s': Slot) {
    match s.pc
    case Back => s' == s.(pc := if s.word.Vacant? || s.word.Ready? then Top else BackLoaded(s.word))
    case BackLoaded(raw) =>
      if raw == s.word && !spurious then s' == s.(word := Vacant, pc := Top)
      else s' == s.(pc := if s.word.Vacant? || s.word.Ready? then Top else BackLoaded(s.word))
    case _ => false
  }

  predicate DoCommit(s: Slot, s': Slot) {
    && s.pc.Commit?
    && s' == s.(word := if s.word.Reserved? then Ptr(s.co) else s.word, pc := if s.word.Reserved? then Parked else Top)
  }

  predicate WaitStep(s: Slot, a: Action, s': Slot) {
    match a
    case Enter(who) => s.pc.Away? && s' == s.(pc := Top, co := who)
    case Wait(b) => DoTakeReady(s, s') || DoCheckFirst(s, b, s') || DoReserve(s, s') || DoCheckAgain(s, b, s')
        || DoBack(s, b, s') || DoCommit(s, s')
    case _ => false
  }

  predicate Next(s: Slot, a: Action, s': Slot) { !s.aborted && (AgentStep(s, a, s') || WaitStep(s, a, s')) }

  // ---- the invariant ----------------------------------------------------------------------------------------------

  predicate Reserving(pc: Pc) {
    pc.ClosedAgain? || pc.DeadlineAgain? || pc.ErrorAgain? || pc.Back? || pc.BackLoaded? || pc.Commit?
  }

  /** Past the second look at the closed flag. */
  predicate Looked(pc: Pc) { pc.DeadlineAgain? || pc.ErrorAgain? || pc.Commit? || pc.Parked? }

  predicate Locked(a: Agent) { a.Holding? || a.Cleared? || a.Marking? || a.Entering? || a.Loaded? || a.Leaving? }
  predicate Carries(a: Agent) { a.Waking? || (a.Leaving? && a.got.Some?) }
  function Carried(a: Agent): nat
    requires Carries(a)
  {
    if a.Waking? then a.co else a.got.value
  }

  predicate WordOk(s: Slot) {
    && (s.word.Ptr? ==> s.pc.Parked? && s.word.co == s.co)
    && (s.word.Reserved? ==> Reserving(s.pc))
    && (s.pc.BackLoaded? ==> s.pc.raw.Reserved?)
    && (s.waker.Some? <==> s.pc.Parked? && !s.word.Ptr?)
    && (s.closed && Looked(s.pc) && (s.word.Reserved? || s.word.Ptr?) ==> s.closer.Some?)
  }

  predicate AgentOk(s: Slot, u: nat)
    requires u < |s.agents|
  {
    var a := s.agents[u];
    && (Carries(a) <==> s.waker == Some(u)) && (Carries(a) ==> Carried(a) == s.co)
    && (s.pollLock == Some(u) <==> Locked(a) && ByPoll(a.role))
    && (s.deadlineLock == Some(u) <==> Locked(a) && !ByPoll(a.role))
    && (s.closer == Some(u) <==> (a.Entering? || a.Loaded?) && a.role.Closer?)
    && ((a.Entering? || a.Loaded?) && a.role.Closer? ==> s.closed)
    && ((a.Entering? || a.Loaded?) && a.role.Event? ==> !s.closed)
    && (a.Cleared? || a.Marking? ==> a.role.Setter?)
    && (a.Loaded? ==> !a.raw.Ready? && (a.raw.Vacant? ==> a.role.Event?))
  }

  predicate Inv(s: Slot) {
    && !s.aborted && WordOk(s) && (forall u :: 0 <= u < |s.agents| ==> AgentOk(s, u))
    && (s.waker.Some? ==> s.waker.value < |s.agents|) && (s.closer.Some? ==> s.closer.value < |s.agents|)
  }

  /** The transition loop, for the agent itself and for the others. */
  lemma LoadOk(s: Slot, u: nat, s': Slot, v: nat)
    requires u < |s.agents| && AgentOk(s, u) && v < |s.agents| && AgentOk(s, v) && DoLoad(s, u, s')
    ensures AgentOk(s', v)
  {
  }

  lemma ExchangeOk(s: Slot, u: nat, s': Slot, v: nat)
    requires u < |s.agents| && AgentOk(s, u) && v < |s.agents| && AgentOk(s, v) && WordOk(s) && DoExchange(s, u, s')
    ensures AgentOk(s', v)
  {
  }

  lemma DecideOk(s: Slot, u: nat, go: bool, s': Slot, v: nat)
    requires u < |s.agents| && AgentOk(s, u) && v < |s.agents| && AgentOk(s, v) && DoDecide(s, u, go, s')
    ensures AgentOk(s', v)
  {
  }

  lemma SetterOk(s: Slot, u: nat, b: bool, s': Slot, v: nat)
    requires u < |s.agents| && AgentOk(s, u) && v < |s.agents| && AgentOk(s, v)
    requires DoClear(s, u, s') || DoCheck(s, u, b, s') || DoMark(s, u, b, s')
    ensures AgentOk(s', v)
  {
  }

  lemma RestOk(s: Slot, a: Action, s': Slot, v: nat)
    requires (a.Begin? || a.Lock? || a.Unlock? || a.Wake?) && a.u < |s.agents| && AgentOk(s, a.u)
    requires v < |s.agents| && AgentOk(s, v) && AgentStep(s, a, s')
    ensures AgentOk(s', v)
  {
  }

  lemma OthersOk(s: Slot, a: Action, s': Slot, v: nat)
    requires Inv(s) && AgentStep(s, a, s') && !a.Query? && v < |s'.agents|
    ensures AgentOk(s', v)
  {
    assert AgentOk(s, a.u) && AgentOk(s, v);
    match a
    case Load(u) => LoadOk(s, u, s', v);
    case FailExchange(u) => LoadOk(s, u, s', v);
    case Exchange(u) => ExchangeOk(s, u, s', v);
    case Decide(u, go) => DecideOk(s, u, go, s', v);
    case Clear(u) => SetterOk(s, u, false, s', v);
    case Check(u, go) => SetterOk(s, u, go, s', v);
    case Mark(u, fail) => SetterOk(s, u, fail, s', v);
    case _ => RestOk(s, a, s', v);
  }

  lemma AgentKeeps(s: Slot, a: Action, s': Slot)
    requires Inv(s) && AgentStep(s, a, s') && !a.Query?
    ensures Inv(s')
  {
    assert AgentOk(s, a.u);
    forall v | 0 <= v < |s'.agents| ensures AgentOk(s', v) {
      OthersOk(s, a, s', v);
    }
  }

  lemma SameAgents(s: Slot, s': Slot)
    requires Inv(s) && (s.waker.None? || s'.co == s.co)
    requires s' == s.(word := s'.word, expired := s'.expired, pc := s'.pc, co := s'.co, outcome := s'.outcome)
    requires WordOk(s')
    ensures Inv(s')
  {
    forall v | 0 <= v < |s'.agents| ensures AgentOk(s', v) {
      assert AgentOk(s, v);
    }
  }

  lemma ChecksKeep(s: Slot, b: bool, s': Slot)
    requires Inv(s) && (DoTakeReady(s, s') || DoCheckFirst(s, b, s') || DoCheckAgain(s, b, s'))
    ensures Inv(s')
  {
    SameAgents(s, s');
  }

  lemma WordStepsKeep(s: Slot, b: bool, s': Slot)
    requires Inv(s) && (DoReserve(s, s') || DoBack(s, b, s') || DoCommit(s, s'))
    ensures Inv(s')
  {
    SameAgents(s, s');
  }

  lemma NextKeeps(s: Slot, a: Action, s': Slot)
    requires Inv(s) && Next(s, a, s')
    ensures Inv(s')
  {
    match a
    case Enter(who) => SameAgents(s, s');
    case Query => SameAgents(s, s');
    case Wait(b) =>
      if DoReserve(s, s') || DoBack(s, b, s') || DoCommit(s, s') {
        WordStepsKeep(s, b, s');
      } else {
        ChecksKeep(s, b, s');
      }
    case _ => AgentKeeps(s, a, s');
  }

  // ---- what it means ----------------------------------------------------------------------------------------------

  lemma InvOverRuns(states: seq<Slot>, acts: seq<Action>, k: nat)
    requires Runs.IsRun(Init, Next, states, acts) && k < |states|
    ensures Inv(states[k])
  {
    forall s, a, s' | Inv(s) && Next(s, a, s') ensures Inv(s') { NextKeeps(s, a, s'); }
    Runs.Invariance(Init, Next, Inv, states, acts, k);
  }

  /** A committed coroutine stays in the word until exactly one agent takes it out, and that agent still carries it: the
      coroutine is parked meanwhile, nobody else carries it, and the abort on a second waiter is unreachable. Once the
      closed flag is up and its setter done with its transition, the word holds no coroutine. */
  ghost predicate OnceOk(s: Slot) {
    && !s.aborted
    && (s.word.Ptr? ==> s.pc.Parked? && s.word.co == s.co)
    && (s.pc.Parked? <==> s.word.Ptr? || exists u :: 0 <= u < |s.agents| && Carries(s.agents[u]))
    && (forall u :: 0 <= u < |s.agents| && Carries(s.agents[u]) ==> Carried(s.agents[u]) == s.co && !s.word.Ptr?)
    && (forall u, v :: 0 <= u < |s.agents| && 0 <= v < |s.agents| ==>
          Carries(s.agents[u]) && Carries(s.agents[v]) ==> u == v)
    && (s.closed && s.word.Ptr? ==> exists u :: 0 <= u < |s.agents| && Closing(s.agents[u]) && s.pollLock == Some(u))
  }

  predicate Closing(a: Agent) { (a.Entering? || a.Loaded?) && a.role.Closer? }

  lemma OnceFrom(s: Slot)
    requires Inv(s)
    ensures OnceOk(s)
  {
    forall u | 0 <= u < |s.agents| ensures Carries(s.agents[u]) <==> s.waker == Some(u) {
      assert AgentOk(s, u);
    }
    forall u | 0 <= u < |s.agents| && Carries(s.agents[u]) ensures Carried(s.agents[u]) == s.co {
      assert AgentOk(s, u);
    }
    if s.waker.Some? { assert Carries(s.agents[s.waker.value]); }
    if s.closer.Some? { assert AgentOk(s, s.closer.value) && Closing(s.agents[s.closer.value]); }
  }

  lemma ExactlyOnceWake(states: seq<Slot>, acts: seq<Action>, k: nat)
    requires Runs.IsRun(Init, Next, states, acts) && k < |states|
    ensures OnceOk(states[k])
  {
    InvOverRuns(states, acts, k);
    OnceFrom(states[k]);
  }

  /** The effects of one step on the word. Only the compare-exchange of a wait that returns READY takes a READY credit;
      only events give one, and only while the iowait is open; a coroutine enters the word only by its own commit, and
      leaves it only into the hands of the agent whose exchange replaced it; an agent makes ready what it carries. */
  predicate WordStepOk(s: Slot, a: Action, s': Slot) {
    && (s.word.Ready? && !s'.word.Ready? ==> a.Wait? && s.pc.Top? && s'.pc.Away? && s'.outcome.IsReady?)
    && (!s.pc.Away? && s'.pc.Away? && s'.outcome.IsReady? ==> s.word.Ready? && s'.word.Vacant?)
    && (!s.word.Ready? && s'.word.Ready? ==>
          a.Exchange? && a.u < |s.agents| && s.agents[a.u].Loaded? && s.agents[a.u].role.Event? && !s.closed)
    && (!s.word.Ptr? && s'.word.Ptr? ==>
          a.Wait? && s.pc.Commit? && s'.pc.Parked? && s'.word.co == s.co && (s.closed ==> s.closer.Some?))
    && (s.word.Ptr? && s'.word != s.word ==>
          a.Exchange? && a.u < |s.agents| == |s'.agents| && Carries(s'.agents[a.u])
              && Carried(s'.agents[a.u]) == s.word.co)
    && (s.pc.Parked? && !s'.pc.Parked? ==> a.Wake? && a.u < |s.agents| && s.agents[a.u] == Waking(s.co))
  }

  lemma AgentWordOk(s: Slot, a: Action, s': Slot)
    requires Inv(s) && AgentStep(s, a, s')
    ensures WordStepOk(s, a, s')
  {
    if !a.Query? {
      assert AgentOk(s, a.u);
    }
  }

  lemma CheckWordOk(s: Slot, b: bool, s': Slot)
    requires WordOk(s) && (DoTakeReady(s, s') || DoCheckFirst(s, b, s') || DoCheckAgain(s, b, s'))
    ensures WordStepOk(s, Wait(b), s')
  {
  }

  lemma WaitWordOk(s: Slot, a: Action, s': Slot)
    requires WordOk(s) && WaitStep(s, a, s')
    ensures WordStepOk(s, a, s')
  {
    if a.Wait? && (DoTakeReady(s, s') || DoCheckFirst(s, a.b, s') || DoCheckAgain(s, a.b, s')) {
      CheckWordOk(s, a.b, s');
    }
  }

  lemma StepWordOk(s: Slot, a: Action, s': Slot)
    requires Inv(s) && Next(s, a, s')
    ensures WordStepOk(s, a, s')
  {
    if AgentStep(s, a, s') { AgentWordOk(s, a, s'); } else { WaitWordOk(s, a, s'); }
  }

  lemma WordOverRuns(states: seq<Slot>, acts: seq<Action>, k: nat)
    requires Runs.IsRun(Init, Next, states, acts) && k < |acts|
    ensures WordStepOk(states[k], acts[k], states[k + 1])
  {
    forall s, a, s' | Inv(s) && Next(s, a, s') ensures Inv(s') && WordStepOk(s, a, s') {
      NextKeeps(s, a, s');
      StepWordOk(s, a, s');
    }
    Runs.StepInvariance(Init, Next, Inv, WordStepOk, states, acts, k);
  }
}
