/** The single-receiver channel of src/sync/xylem-channel.c. One action is one atomic operation on the waiter word, the
    message count, a timer flag or a wake token; the message queue answers as MpscQueue proves it does. */
module ChannelModel {
  import opened Prelude

  /** The waiter word: a sentinel state, or a pointer to a published waiter. */
  datatype Word = Vacant | Reserved | Closed | Ptr(waiter: nat)

  /** Which of the three callers of `_channel_transition_waiter` an agent is. */
  datatype Role = Sender | Closer | Timeout

  datatype Msg = Msg(agent: nat, id: nat)

  /** A thread sending or closing, or a timeout callback. */
  datatype Agent =
    | Idle
    | Passed(msg: Msg) | Counted(msg: Msg) | Claimed(msg: Msg)
    | Armed(receive: nat)
    | Entering(role: Role) | Loaded(role: Role, raw: Word) | Waking(waiter: nat)

  /** `recv`, `recv_timeout`, and `recv_timeout` with zero. */
  datatype Mode = Forever | Timed | Poll

  datatype Pc =
    | Away | Top | CheckFired | CheckClosed | CheckCount | Tally
    // coroutine receivers
    | Reserve | PeekReserved | ClosedReserved | FiredReserved | Unreserve | Commit | Parked
    // thread receivers
    | Publish | ClosedPublished | PeekPublished | Withdraw | TokenWait | TimedTokenWait | TimeoutWithdraw

  /** What the last finished receive returned. */
  datatype Outcome = NoOutcome | Got(msg: Msg) | NullClosed | NullTimeout | NullPoll

  /** `claimed`, `received` and `waker` are histories and bookkeeping; `receive` numbers the receive calls. */
  datatype Chan = Chan(
    word: Word, count: int, queue: seq<Msg>, agents: seq<Agent>,
    pc: Pc, mode: Mode, coro: bool, id: nat, receive: nat, fired: bool, tokens: nat, outcome: Outcome,
    closing: Option<nat>, waker: Option<nat>, claimed: seq<Msg>, received: seq<Msg>, aborted: bool)

  datatype Action =
    | Send(u: nat, id: nat) | Announce(u: nat) | Claim(u: nat) | Link(u: nat)
    | Close(u: nat) | Fire(u: nat) | Load(u: nat) | Exchange(u: nat, spurious: bool) | Wake(u: nat)
    | Enter(mode: Mode, coro: bool, waiter: nat, u: nat) | Receive(b: bool)

  predicate Init(s: Chan) {
    && s.word == Vacant && s.count == 0 && s.queue == [] && (forall u :: 0 <= u < |s.agents| ==> s.agents[u] == Idle)
    && s.pc == Away && s.tokens == 0 && s.receive == 0 && s.outcome == NoOutcome && !s.fired
    && s.closing == None && s.waker == None && s.claimed == [] && s.received == [] && !s.aborted
  }

  function Put(s: Chan, u: nat, a: Agent): Chan
    requires u < |s.agents|
  {
    s.(agents := s.agents[u := a])
  }

  // ---- senders, the closer, and timeout callbacks -----------------------------------------------------------------

  /** Past the closed check. Sending on a closed channel is the caller's error and aborts there. */
  predicate DoSend(s: Chan, u: nat, id: nat, s': Chan) {
    u < |s.agents| && s.agents[u].Idle? && !s.word.Closed? && s' == Put(s, u, Passed(Msg(u, id)))
  }

  predicate DoAnnounce(s: Chan, u: nat, s': Chan) {
    u < |s.agents| && s.agents[u].Passed? && s' == Put(s, u, Counted(s.agents[u].msg)).(count := s.count + 1)
  }

  /** The tail exchange of the message queue. */
  predicate DoClaim(s: Chan, u: nat, s': Chan) {
    && u < |s.agents| && s.agents[u].Counted?
    && var m := s.agents[u].msg;
       s' == Put(s, u, Claimed(m)).(queue := s.queue + [m], claimed := s.claimed + [m])
  }

  /** The link store, after which the message can be popped. */
  predicate DoLink(s: Chan, u: nat, s': Chan) {
    u < |s.agents| && s.agents[u].Claimed? && s' == Put(s, u, Entering(Sender))
  }

  /** A channel is closed at most once. */
  predicate DoClose(s: Chan, u: nat, s': Chan) {
    u < |s.agents| && s.agents[u].Idle? && s.closing.None? && s' == Put(s, u, Entering(Closer)).(closing := Some(u))
  }

  /** The callback marks its own waiter as fired; it may outlive the receive that armed it. */
  predicate DoFire(s: Chan, u: nat, s': Chan) {
    && u < |s.agents| && s.agents[u].Armed?
    && s' == Put(s, u, Entering(Timeout)).(fired := s.fired || s.agents[u].receive == s.receive)
  }

  /** What the loop of `_channel_transition_waiter` does with a freshly read word. */
  function Judge(role: Role, raw: Word): Agent {
    if !role.Closer? && (raw.Vacant? || raw.Closed?) then Idle else Loaded(role, raw)
  }

  predicate DoLoad(s: Chan, u: nat, s': Chan) {
    && u < |s.agents| && s.agents[u].Entering?
    && s' == Put(s, u, Judge(s.agents[u].role, s.word)).(
                   aborted := s.aborted || (s.agents[u].role.Closer? && s.word.Closed?))
  }

  predicate DoExchange(s: Chan, u: nat, s': Chan) {
    && u < |s.agents| && s.agents[u].Loaded? && s.agents[u].raw == s.word
    && s' == Put(s, u, if s.word.Ptr? then Waking(s.word.waiter) else Idle).(
                 word := if s.agents[u].role.Closer? then Closed else Vacant,
                 waker := if s.word.Ptr? then Some(u) else s.waker)
  }

  predicate DoFailExchange(s: Chan, u: nat, s': Chan) {
    && u < |s.agents| && s.agents[u].Loaded?
    && s' == Put(s, u, Judge(s.agents[u].role, s.word)).(
                   aborted := s.aborted || (s.agents[u].role.Closer? && s.word.Closed?))
  }

  /** `_channel_wake`: making a coroutine ready that is not parked would abort; a thread gets a token. */
  predicate DoWake(s: Chan, u: nat, s': Chan) {
    && u < |s.agents| && s.agents[u].Waking?
    && s' == Put(s, u, Idle).(waker := None,
                              pc := if s.coro then Top else s.pc,
                              tokens := if s.coro then s.tokens else s.tokens + 1,
                              aborted := s.aborted || s.agents[u].waiter != s.id || (s.coro && !s.pc.Parked?))
  }

  predicate AgentStep(s: Chan, a: Action, s': Chan) {
    match a
    case Send(u, id) => DoSend(s, u, id, s')
    case Announce(u) => DoAnnounce(s, u, s')
    case Claim(u) => DoClaim(s, u, s')
    case Link(u) => DoLink(s, u, s')
    case Close(u) => DoClose(s, u, s')
    case Fire(u) => DoFire(s, u, s')
    case Load(u) => DoLoad(s, u, s')
    case Exchange(u, spurious) =>
      if spurious then DoFailExchange(s, u, s')
      else DoExchange(s, u, s') || (DoFailExchange(s, u, s') && s.agents[u].raw != s.word)
    case Wake(u) => DoWake(s, u, s')
    case _ => false
  }

  // ---- the receiver -----------------------------------------------------------------------------------------------

  /** A receive call: any waiter address, the previous one included, may be used. A timed coroutine arms a timer. */
  predicate DoEnter(s: Chan, mode: Mode, coro: bool, waiter: nat, u: nat, s': Chan) {
    && s.pc.Away?
    && (mode.Timed? && coro ==> u < |s.agents| && s.agents[u].Idle?)
    && s' == s.(pc := Top, mode := mode, coro := coro, id := waiter, receive := s.receive + 1, fired := false,
                agents := if mode.Timed? && coro then s.agents[u := Armed(s.receive + 1)] else s.agents)
  }

  /** Leaving: a timer of this receive that has not fired is stopped. */
  function Leave(s: Chan, outcome: Outcome): Chan {
    s.(pc := Away, outcome := outcome,
       agents := seq(|s.agents|,
                     i requires 0 <= i < |s.agents| => if s.agents[i] == Armed(s.receive) then Idle else s.agents[i]))
  }

  predicate FirstUnlinked(s: Chan) {
    s.queue != [] && s.queue[0].agent < |s.agents| && s.agents[s.queue[0].agent] == Claimed(s.queue[0])
  }

  /** `mpsc_pop` returned the oldest message, ... */
  predicate DoPop(s: Chan, s': Chan) {
    && s.pc.Top? && s.queue != [] && !FirstUnlinked(s)
    && s' == s.(pc := Tally, queue := s.queue[1..], received := s.received + [s.queue[0]])
  }

  /** ... or NULL, with nothing claimed left. */
  predicate DoPopNothing(s: Chan, s': Chan) {
    && s.pc.Top? && s.queue == [] && !s.mode.Poll?
    && s' == s.(pc := if s.mode.Timed? && s.coro then CheckFired else CheckClosed)
  }

  predicate DoCheckFired(s: Chan, s': Chan) { s.pc.CheckFired? && !s.fired && s' == s.(pc := CheckClosed) }

  predicate DoCheckClosed(s: Chan, s': Chan) {
    && s.pc.CheckClosed?
    && s' == s.(pc := if s.word.Closed? then CheckCount else if s.coro then Reserve else Publish)
  }

  predicate DoCheckCount(s: Chan, s': Chan) {
    s.pc.CheckCount? && s.count != 0 && s' == s.(pc := Top)
  }

  predicate DoReserve(s: Chan, s': Chan) {
    && s.pc.Reserve?
    && s' == s.(pc := if s.word.Vacant? then PeekReserved else Top,
                word := if s.word.Vacant? then Reserved else s.word,
                aborted := s.aborted || s.word.Reserved? || s.word.Ptr?)
  }

  /** What `mpsc_can_pop` may answer. */
  predicate MayPop(s: Chan, b: bool) { if b then s.queue != [] else s.queue == [] || FirstUnlinked(s) }

  predicate DoPeekReserved(s: Chan, b: bool, s': Chan) {
    s.pc.PeekReserved? && MayPop(s, b) && s' == s.(pc := if b then Unreserve else ClosedReserved)
  }

  predicate DoClosedReserved(s: Chan, s': Chan) {
    && s.pc.ClosedReserved?
    && s' == s.(pc := if s.word.Closed? then Unreserve else if s.mode.Timed? then FiredReserved else Commit)
  }

  predicate DoFiredReserved(s: Chan, s': Chan) {
    s.pc.FiredReserved? && s' == s.(pc := if s.fired then Unreserve else Commit)
  }

  predicate DoUnreserve(s: Chan, s': Chan) {
    s.pc.Unreserve? && s' == s.(pc := Top, word := if s.word.Reserved? then Vacant else s.word)
  }

  /** The commit callback, once the coroutine has parked; on failure the coroutine runs on. */
  predicate DoCommit(s: Chan, s': Chan) {
    && s.pc.Commit?
    && s' == s.(pc := if s.word.Reserved? then Parked else Top, word := if s.word.Reserved? then Ptr(s.id) else s.word)
  }

  predicate DoPublish(s: Chan, s': Chan) {
    && s.pc.Publish?
    && s' == s.(pc := if s.word.Vacant? then ClosedPublished else Top,
                word := if s.word.Vacant? then Ptr(s.id) else s.word)
  }

  predicate DoClosedPublished(s: Chan, s': Chan) {
    s.pc.ClosedPublished? && s' == s.(pc := if s.word.Closed? then Withdraw else PeekPublished)
  }

  predicate DoPeekPublished(s: Chan, b: bool, s': Chan) {
    && s.pc.PeekPublished? && MayPop(s, b)
    && s' == s.(pc := if b then Withdraw else if s.mode.Timed? then TimedTokenWait else TokenWait)
  }

  /** Withdrawing a waiter that somebody already took leaves a wake to wait for. */
  predicate DoWithdraw(s: Chan, s': Chan) {
    && s.pc.Withdraw?
    && var mine := s.word == Ptr(s.id);
       s' == s.(pc := if mine then Top else if s.mode.Timed? then TimedTokenWait else TokenWait,
                word := if mine then Vacant else s.word)
  }

  predicate DoTokenWait(s: Chan, s': Chan) {
    (s.pc.TokenWait? || s.pc.TimedTokenWait?) && s.tokens > 0 && s' == s.(pc := Top, tokens := s.tokens - 1)
  }

  /** The deadline passed before, or during, the timed wait. */
  predicate DoTimeout(s: Chan, s': Chan) { s.pc.TimedTokenWait? && s' == s.(pc := TimeoutWithdraw) }

  predicate DoTimeoutWithdraw(s: Chan, s': Chan) {
    s.pc.TimeoutWithdraw? && s.word != Ptr(s.id) && s' == s.(pc := TokenWait)
  }

  /** The returns: with a message, on a closed channel with nothing announced, after a timeout, or empty-handed. */
  predicate LeaveStep(s: Chan, s': Chan) {
    || (s.pc.Tally? && s.received != [] && s' == Leave(s, Got(s.received[|s.received| - 1])).(count := s.count - 1))
    || (s.pc.CheckCount? && s.count == 0 && s' == Leave(s, NullClosed))
    || (s.pc.CheckFired? && s.fired && s' == Leave(s, NullTimeout))
    || (s.pc.TimeoutWithdraw? && s.word == Ptr(s.id) && s' == Leave(s, NullTimeout).(word := Vacant))
    || (s.pc.Top? && s.queue == [] && s.mode.Poll? && s' == Leave(s, NullPoll))
  }

  predicate LoopStep(s: Chan, s': Chan) {
    DoPop(s, s') || DoPopNothing(s, s') || DoCheckFired(s, s') || DoCheckClosed(s, s') || DoCheckCount(s, s')
  }

  predicate CoroStep(s: Chan, b: bool, s': Chan) {
    || DoReserve(s, s') || DoPeekReserved(s, b, s') || DoClosedReserved(s, s') || DoFiredReserved(s, s')
    || DoUnreserve(s, s') || DoCommit(s, s')
  }

  predicate ThreadStep(s: Chan, b: bool, s': Chan) {
    || DoPublish(s, s') || DoClosedPublished(s, s') || DoPeekPublished(s, b, s') || DoWithdraw(s, s')
    || DoTokenWait(s, s') || DoTimeout(s, s') || DoTimeoutWithdraw(s, s')
  }

  predicate ReceiverStep(s: Chan, a: Action, s': Chan) {
    match a
    case Enter(mode, coro, waiter, u) => DoEnter(s, mode, coro, waiter, u, s')
    case Receive(b) => LeaveStep(s, s') || LoopStep(s, s') || CoroStep(s, b, s') || ThreadStep(s, b, s')
    case _ => false
  }

  predicate Next(s: Chan, a: Action, s': Chan) { !s.aborted && (AgentStep(s, a, s') || ReceiverStep(s, a, s')) }
}
