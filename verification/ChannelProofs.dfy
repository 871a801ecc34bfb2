/** Exactly-once wakes, no stranded receiver, and nothing lost at close, over every interleaving of a channel. */
module ChannelProofs {
  import opened Prelude
  import opened ChannelModel
  import Runs

  /** The waiter is, or was until somebody took it, published. */
  predicate Published(pc: Pc) {
    pc.Parked? || pc.ClosedPublished? || pc.PeekPublished? || pc.Withdraw? || pc.TokenWait? || pc.TimedTokenWait?
        || pc.TimeoutWithdraw?
  }

  predicate Reserving(pc: Pc) {
    pc.PeekReserved? || pc.ClosedReserved? || pc.FiredReserved? || pc.Unreserve? || pc.Commit?
  }

  /** Past the last look at the queue before blocking. */
  predicate Looked(pc: Pc) {
    pc.ClosedReserved? || pc.FiredReserved? || pc.Commit? || pc.Parked? || pc.TokenWait? || pc.TimedTokenWait?
        || pc.TimeoutWithdraw?
  }

  predicate CoroPc(pc: Pc) { pc.CheckFired? || pc.Reserve? || Reserving(pc) || pc.Parked? }
  predicate ThreadPc(pc: Pc) { pc.Publish? || (Published(pc) && !pc.Parked?) }

  /** A sender whose message is claimed and whose waiter transition is still to come. */
  predicate WillTransition(a: Agent) { a.Claimed? || (a.Entering? && a.role.Sender?) || (a.Loaded? && a.role.Sender?) }

  function Wakes(s: Chan): nat { s.tokens + if s.waker.Some? then 1 else 0 }

  predicate WordOk(s: Chan) {
    && (s.word.Ptr? ==> s.word.waiter == s.id && Published(s.pc))
    && (s.word.Reserved? ==> Reserving(s.pc))
    && (CoroPc(s.pc) ==> s.coro) && (ThreadPc(s.pc) ==> !s.coro) && (s.pc.FiredReserved? ==> s.mode.Timed?)
    && Wakes(s) == (if Published(s.pc) && !s.word.Ptr? then 1 else 0)
    && (s.coro ==> s.tokens == 0)
    && (s.pc.Tally? ==> s.received != []) && (s.pc.CheckCount? ==> s.word.Closed?)
  }

  predicate AgentOk(s: Chan, u: nat)
    requires u < |s.agents|
  {
    && (s.agents[u].Waking? <==> s.waker == Some(u)) && (s.agents[u].Waking? ==> s.agents[u].waiter == s.id)
    && ((s.agents[u].Entering? || s.agents[u].Loaded?) && s.agents[u].role.Closer? ==>
          s.closing == Some(u) && !s.word.Closed?)
    && (s.agents[u].Loaded? && !s.agents[u].role.Closer? ==> s.agents[u].raw.Reserved? || s.agents[u].raw.Ptr?)
  }

  predicate AgentsOk(s: Chan) {
    && (forall u :: 0 <= u < |s.agents| ==> AgentOk(s, u))
    && (s.waker.Some? ==> s.waker.value < |s.agents|)
    && (s.word.Closed? ==> s.closing.Some?)
  }

  ghost predicate Watched(s: Chan) {
    Looked(s.pc) && (s.word.Reserved? || s.word.Ptr?) && s.queue != [] ==>
      exists u :: 0 <= u < |s.agents| && WillTransition(s.agents[u])
  }

  function Announced(agents: seq<Agent>): set<int> { set u | 0 <= u < |agents| && agents[u].Counted? }

  predicate CountOk(s: Chan) {
    && s.count == |s.queue| + |Announced(s.agents)| + (if s.pc.Tally? then 1 else 0)
    && s.received + s.queue == s.claimed
  }

  ghost predicate Inv(s: Chan) { !s.aborted && WordOk(s) && AgentsOk(s) && Watched(s) && CountOk(s) }

  // ---- agents -----------------------------------------------------------------------------------------------------

  lemma AnnouncedUpdate(agents: seq<Agent>, u: nat, a: Agent)
    requires u < |agents|
    ensures |Announced(agents[u := a])| == |Announced(agents)| - One(agents[u].Counted?) + One(a.Counted?)
  {
    var rest := Announced(agents) - {u};
    assert Announced(agents) == if agents[u].Counted? then rest + {u} else rest;
    assert Announced(agents[u := a]) == if a.Counted? then rest + {u} else rest;
  }

  /** What an agent's step must show about itself for `Watched` to survive. */
  lemma CarryWatch(s: Chan, s': Chan, u: nat)
    requires Watched(s) && u < |s.agents| == |s'.agents|
    requires forall v :: 0 <= v < |s.agents| && v != u ==> s'.agents[v] == s.agents[v]
    requires WillTransition(s.agents[u]) ==> WillTransition(s'.agents[u]) || !(s'.word.Reserved? || s'.word.Ptr?)
    requires s'.queue == s.queue || WillTransition(s'.agents[u])
    requires Looked(s'.pc) && (s'.word.Reserved? || s'.word.Ptr?) ==> Looked(s.pc) && (s.word.Reserved? || s.word.Ptr?)
    ensures Watched(s')
  {
    if v :| 0 <= v < |s.agents| && WillTransition(s.agents[v]) {
      assert v != u ==> WillTransition(s'.agents[v]);
    }
  }

  lemma AgentKeepsWatch(s: Chan, a: Action, s': Chan)
    requires Inv(s) && AgentStep(s, a, s')
    ensures Watched(s')
  {
    assert AgentOk(s, a.u);
    CarryWatch(s, s', a.u);
  }

  lemma AgentKeepsAgents(s: Chan, a: Action, s': Chan)
    requires Inv(s) && AgentStep(s, a, s')
    ensures AgentsOk(s')
  {
    assert AgentOk(s, a.u);
    forall v | 0 <= v < |s'.agents| ensures AgentOk(s', v) {
      assert AgentOk(s, v);
    }
  }

  lemma AgentKeepsCount(s: Chan, a: Action, s': Chan)
    requires Inv(s) && AgentStep(s, a, s')
    ensures CountOk(s')
  {
    assert AgentOk(s, a.u);
    AnnouncedUpdate(s.agents, a.u, s'.agents[a.u]);
  }

  lemma AgentKeeps(s: Chan, a: Action, s': Chan)
    requires Inv(s) && AgentStep(s, a, s')
    ensures Inv(s')
  {
    assert AgentOk(s, a.u);
    AgentKeepsWatch(s, a, s');
    AgentKeepsAgents(s, a, s');
    AgentKeepsCount(s, a, s');
  }

  // ---- the receiver -----------------------------------------------------------------------------------------------

  /** Entering and leaving touch no agent but the receive's own timer. */
  predicate TimersOnly(s: Chan, s': Chan) {
    && |s'.agents| == |s.agents|
    && forall v :: 0 <= v < |s.agents| ==>
         s'.agents[v] == s.agents[v]
             || ((s.agents[v].Armed? || s.agents[v].Idle?) && (s'.agents[v].Armed? || s'.agents[v].Idle?))
  }

  lemma TimersSame(s: Chan, s': Chan)
    requires AgentsOk(s) && TimersOnly(s, s') && s'.waker == s.waker && s'.closing == s.closing
    requires s'.word.Closed? <==> s.word.Closed?
    requires s.waker.Some? ==> s'.id == s.id
    ensures AgentsOk(s') && Announced(s'.agents) == Announced(s.agents)
  {
    forall v | 0 <= v < |s'.agents| ensures AgentOk(s', v) {
      assert AgentOk(s, v);
    }
  }

  lemma EnterKeeps(s: Chan, mode: Mode, coro: bool, waiter: nat, u: nat, s': Chan)
    requires Inv(s) && DoEnter(s, mode, coro, waiter, u, s')
    ensures Inv(s')
  {
    TimersSame(s, s');
  }

  lemma TallyKeeps(s: Chan, s': Chan)
    requires Inv(s) && LeaveStep(s, s') && s.pc.Tally?
    ensures Inv(s')
  {
    TimersSame(s, s');
  }

  lemma LeaveKeeps(s: Chan, s': Chan)
    requires Inv(s) && LeaveStep(s, s')
    ensures Inv(s')
  {
    if s.pc.Tally? { TallyKeeps(s, s'); } else { TimersSame(s, s'); }
  }

  lemma PopKeeps(s: Chan, s': Chan)
    requires Inv(s) && DoPop(s, s')
    ensures Inv(s')
  {
    TimersSame(s, s');
  }

  lemma LoopKeeps(s: Chan, s': Chan)
    requires Inv(s) && LoopStep(s, s')
    ensures Inv(s')
  {
    if DoPop(s, s') { PopKeeps(s, s'); } else { TimersSame(s, s'); }
  }

  /** A look that finds nothing to pop leaves either an empty queue or a sender that has not linked its message. */
  lemma LookWatches(s: Chan)
    requires MayPop(s, false) && s.queue != []
    ensures exists u :: 0 <= u < |s.agents| && WillTransition(s.agents[u])
  {
    assert WillTransition(s.agents[s.queue[0].agent]);
  }

  lemma CoroKeeps(s: Chan, b: bool, s': Chan)
    requires Inv(s) && CoroStep(s, b, s')
    ensures Inv(s')
  {
    TimersSame(s, s');
    if s.pc.PeekReserved? && !b && s.queue != [] { LookWatches(s); }
  }

  lemma ThreadKeeps(s: Chan, b: bool, s': Chan)
    requires Inv(s) && ThreadStep(s, b, s')
    ensures Inv(s')
  {
    TimersSame(s, s');
    if s.pc.PeekPublished? && !b && s.queue != [] { LookWatches(s); }
  }

  lemma NextKeeps(s: Chan, a: Action, s': Chan)
    requires Inv(s) && Next(s, a, s')
    ensures Inv(s')
  {
    match a
    case Enter(mode, coro, waiter, u) => EnterKeeps(s, mode, coro, waiter, u, s');
    case Receive(b) =>
      if LeaveStep(s, s') { LeaveKeeps(s, s'); }
      else if LoopStep(s, s') { LoopKeeps(s, s'); }
      else if CoroStep(s, b, s') { CoroKeeps(s, b, s'); }
      else { ThreadKeeps(s, b, s'); }
    case _ => AgentKeeps(s, a, s');
  }

  // ---- what it means ----------------------------------------------------------------------------------------------

  lemma InvOverRuns(states: seq<Chan>, acts: seq<Action>, k: nat)
    requires Runs.IsRun(Init, Next, states, acts) && k < |states|
    ensures Inv(states[k])
  {
    forall s | Init(s) ensures Inv(s) { assert Announced(s.agents) == {}; }
    forall s, a, s' | Inv(s) && Next(s, a, s') ensures Inv(s') { NextKeeps(s, a, s'); }
    Runs.Invariance(Init, Next, Inv, states, acts, k);
  }

  /** A receiver that has looked and has its waiter published or reserved is never stranded: if any message is claimed,
      some sender has its waiter transition still to come. */
  lemma NeverStranded(states: seq<Chan>, acts: seq<Action>, k: nat)
    requires Runs.IsRun(Init, Next, states, acts) && k < |states|
    requires Looked(states[k].pc) && (states[k].word.Ptr? || states[k].word.Reserved?) && states[k].queue != []
    ensures exists u :: 0 <= u < |states[k].agents| && WillTransition(states[k].agents[u])
  {
    InvOverRuns(states, acts, k);
  }

  /** Each removal of a published waiter is answered by exactly one wake, which finds its receiver still blocked on that
      waiter, and no receive ends with a wake or a token left over. No abort is reachable: the slot is never busy, the
      coroutine made ready is always the parked one, and a single close never meets a closed word. */
  lemma OneWakePerWaiter(states: seq<Chan>, acts: seq<Action>, k: nat)
    requires Runs.IsRun(Init, Next, states, acts) && k < |states|
    ensures var s := states[k];
            && !s.aborted
            && Wakes(s) == (if Published(s.pc) && !s.word.Ptr? then 1 else 0)
            && (s.word.Ptr? ==> Published(s.pc) && s.word.waiter == s.id)
            && (forall u, v :: 0 <= u < |s.agents| && 0 <= v < |s.agents| ==>
                  s.agents[u].Waking? && s.agents[v].Waking? ==> u == v)
            && (forall u :: 0 <= u < |s.agents| && s.agents[u].Waking? ==>
                  s.agents[u].waiter == s.id && if s.coro then s.pc.Parked? else s.tokens == 0 && ThreadPc(s.pc))
  {
    InvOverRuns(states, acts, k);
    var s := states[k];
    forall u | 0 <= u < |s.agents| && s.agents[u].Waking? ensures s.waker == Some(u) && s.agents[u].waiter == s.id {
      assert AgentOk(s, u);
    }
  }

  /** Once closed the word stays closed, so no waiter is published any more. A receive on a closed channel gives up only
      when every message ever claimed has been received and none is announced. */
  predicate CloseOk(s: Chan, a: Action, s': Chan) {
    && (s.word.Closed? ==> s'.word.Closed?)
    && (a.Receive? && !s.pc.Away? && s'.pc.Away? && s'.outcome.NullClosed? ==>
          s.word.Closed? && s.received == s.claimed && forall u :: 0 <= u < |s.agents| ==> !s.agents[u].Counted?)
    && (a.Receive? && !s.pc.Away? && s'.pc.Away? && s'.outcome.Got? ==>
          s.received != [] && s'.outcome.msg == s.received[|s.received| - 1])
    && s.received <= s'.received <= s'.claimed
  }

  lemma AgentCloseOk(s: Chan, a: Action, s': Chan)
    requires Inv(s) && AgentStep(s, a, s')
    ensures CloseOk(s, a, s')
  {
    assert AgentOk(s, a.u);
  }

  lemma LeaveCloseOk(s: Chan, b: bool, s': Chan)
    requires Inv(s) && LeaveStep(s, s')
    ensures CloseOk(s, Receive(b), s')
  {
    if s.pc.CheckCount? {
      assert Announced(s.agents) == {};
      forall u | 0 <= u < |s.agents| ensures !s.agents[u].Counted? { assert u !in Announced(s.agents); }
    }
  }

  lemma LoopCloseOk(s: Chan, b: bool, s': Chan)
    requires CountOk(s) && LoopStep(s, s')
    ensures CloseOk(s, Receive(b), s')
  {
    assert DoPop(s, s') ==> s'.received + s'.queue == s.claimed;
  }

  predicate OnlyWaits(s: Chan, s': Chan) {
    !s'.pc.Away? && s'.received == s.received && s'.claimed == s.claimed && (s.word.Closed? ==> s'.word.Closed?)
  }

  lemma ReservedWaits(s: Chan, b: bool, s': Chan)
    requires DoPeekReserved(s, b, s') || DoClosedReserved(s, s') || DoFiredReserved(s, s')
    ensures OnlyWaits(s, s')
  {
  }

  lemma CoroWaits(s: Chan, b: bool, s': Chan)
    requires CoroStep(s, b, s')
    ensures OnlyWaits(s, s')
  {
    if DoPeekReserved(s, b, s') || DoClosedReserved(s, s') || DoFiredReserved(s, s') { ReservedWaits(s, b, s'); }
  }

  lemma ThreadWaits(s: Chan, b: bool, s': Chan)
    requires ThreadStep(s, b, s')
    ensures OnlyWaits(s, s')
  {
  }

  lemma NextCloseOk(s: Chan, a: Action, s': Chan)
    requires Inv(s) && Next(s, a, s')
    ensures CloseOk(s, a, s')
  {
    match a
    case Receive(b) =>
      if LeaveStep(s, s') { LeaveCloseOk(s, b, s'); }
      else if LoopStep(s, s') { LoopCloseOk(s, b, s'); }
      else if CoroStep(s, b, s') { CoroWaits(s, b, s'); }
      else { ThreadWaits(s, b, s'); }
    case Enter(_, _, _, _) =>
    case _ => AgentCloseOk(s, a, s');
  }

  lemma CloseOverRuns(states: seq<Chan>, acts: seq<Action>, k: nat)
    requires Runs.IsRun(Init, Next, states, acts) && k < |acts|
    ensures CloseOk(states[k], acts[k], states[k + 1])
  {
    forall s | Init(s) ensures Inv(s) { assert Announced(s.agents) == {}; }
    forall s, a, s' | Inv(s) && Next(s, a, s')
      ensures Inv(s') && CloseOk(s, a, s')
    {
      NextKeeps(s, a, s');
      NextCloseOk(s, a, s');
    }
    Runs.StepInvariance(Init, Next, Inv, CloseOk, states, acts, k);
  }
}
