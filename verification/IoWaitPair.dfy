/** A whole iowait (src/runtime/iowait.c): both directions, with one poll lock and one closed flag. An event or a close
    holds the lock across the transition of both words, the read word first; deadlines, timers and waits concern one
    direction. Each direction is an IoWaitSlot machine, and the two are kept in step where the source shares a field. */
module IoWaitPair {
  import opened Prelude
  import opened IoWaitSlot
  import Runs

  datatype Pair = Pair(rd: Slot, wr: Slot)

  /** A step of one direction, or a step that both see: an event or a close begins, takes the lock, reads and sets the
      flag, and releases the lock. An event may concern one direction only. */
  datatype Move = Read(a: Action) | Write(a: Action) | Both(a: Action, b: Action)

  /** The agent is about an event or a close. */
  predicate PollAgent(a: Agent) {
    (a.Wanting? || Locked(a)) && ByPoll(a.role)
  }

  /** What an agent may do to one direction alone. */
  predicate Alone(s: Slot, a: Action, other: Slot) {
    match a
    case Begin(u, role) => !ByPoll(role) && u < |other.agents| && other.agents[u].Idle?
    case Lock(u) => u < |s.agents| && !PollAgent(s.agents[u])
    case Decide(u, _) => u < |s.agents| && !PollAgent(s.agents[u])
    case Unlock(u) => u < |s.agents| && !PollAgent(s.agents[u])
    case _ => true
  }

  /** The write direction has its turn once the read direction is done. */
  predicate InTurn(a: Action, rd: Slot) {
    match a
    case Load(u) => u < |rd.agents| && (PollAgent(rd.agents[u]) ==> rd.agents[u].Leaving?)
    case Exchange(u) => u < |rd.agents| && (PollAgent(rd.agents[u]) ==> rd.agents[u].Leaving?)
    case FailExchange(u) => u < |rd.agents| && (PollAgent(rd.agents[u]) ==> rd.agents[u].Leaving?)
    case Wake(u) => u < |rd.agents| && !rd.agents[u].Waking?
    case _ => true
  }

  /** What an event or a close does to both directions at once. */
  predicate Together(p: Pair, a: Action, b: Action) {
    match (a, b)
    case (Begin(u, role), Begin(v, r)) => u == v && role == r && ByPoll(role)
    case (Lock(u), Lock(v)) => u == v && u < |p.rd.agents| && PollAgent(p.rd.agents[u])
    case (Decide(u, _), Decide(v, _)) => u == v && u < |p.rd.agents| && PollAgent(p.rd.agents[u])
    case (Unlock(u), Unlock(v)) => u == v && u < |p.rd.agents| && PollAgent(p.rd.agents[u])
    case _ => false
  }

  predicate Init(p: Pair) { IoWaitSlot.Init(p.rd) && IoWaitSlot.Init(p.wr) && |p.rd.agents| == |p.wr.agents| }

  predicate Next(p: Pair, m: Move, p': Pair) {
    match m
    case Read(a) => Alone(p.rd, a, p.wr) && IoWaitSlot.Next(p.rd, a, p'.rd) && p'.wr == p.wr
    case Write(a) => Alone(p.wr, a, p.rd) && InTurn(a, p.rd) && IoWaitSlot.Next(p.wr, a, p'.wr) && p'.rd == p.rd
    case Both(a, b) => Together(p, a, b) && IoWaitSlot.Next(p.rd, a, p'.rd) && IoWaitSlot.Next(p.wr, b, p'.wr)
  }

  // ---- the invariant ----------------------------------------------------------------------------------------------

  /** An agent about an event or a close is at the same point in both directions, but for the turns of the two words;
      one about a deadline, or with a coroutine to wake, may be anywhere in its own. */
  predicate SamePoint(a: Agent, b: Agent) {
    && (PollAgent(a) <==> PollAgent(b))
    && (PollAgent(a) ==> a.role == b.role && (a.Wanting? <==> b.Wanting?) && (a.Holding? <==> b.Holding?))
  }

  /** One closed flag and one poll lock. */
  predicate Shared(p: Pair) {
    && p.rd.closed == p.wr.closed && p.rd.pollLock == p.wr.pollLock && |p.rd.agents| == |p.wr.agents|
    && forall u :: 0 <= u < |p.rd.agents| ==> SamePoint(p.rd.agents[u], p.wr.agents[u])
  }

  predicate PairInv(p: Pair) { Inv(p.rd) && Inv(p.wr) && Shared(p) }

  predicate SameView(s: Slot, s': Slot) {
    && s'.closed == s.closed && s'.pollLock == s.pollLock && |s'.agents| == |s.agents|
    && forall u :: 0 <= u < |s.agents| ==> SamePoint(s.agents[u], s'.agents[u])
  }

  /** One agent moved on, and the flag and the lock did not change. */
  lemma OneMoved(s: Slot, u: nat, s': Slot)
    requires u < |s.agents| == |s'.agents| && s'.agents == s.agents[u := s'.agents[u]] && s'.closed == s.closed
    requires s'.pollLock == s.pollLock
    requires SamePoint(s.agents[u], s'.agents[u])
    ensures SameView(s, s')
  {
  }

  lemma AloneWord(s: Slot, u: nat, s': Slot)
    requires u < |s.agents| && (DoLoad(s, u, s') || DoExchange(s, u, s'))
    ensures SameView(s, s')
  {
    OneMoved(s, u, s');
  }

  lemma AloneDecides(s: Slot, u: nat, b: bool, s': Slot)
    requires u < |s.agents| && AgentOk(s, u) && !PollAgent(s.agents[u])
    requires DoLock(s, u, s') || DoDecide(s, u, b, s') || DoUnlock(s, u, s')
    ensures SameView(s, s')
  {
    OneMoved(s, u, s');
  }

  lemma AloneSets(s: Slot, u: nat, b: bool, s': Slot)
    requires u < |s.agents| && AgentOk(s, u) && (DoClear(s, u, s') || DoCheck(s, u, b, s') || DoMark(s, u, b, s'))
    ensures SameView(s, s')
  {
    OneMoved(s, u, s');
  }

  lemma AloneAgent(s: Slot, a: Action, s': Slot, other: Slot)
    requires AgentStep(s, a, s') && Alone(s, a, other) && !a.Query? && a.u < |s.agents| && AgentOk(s, a.u)
    ensures SameView(s, s')
  {
    match a
    case Begin(u, _) => OneMoved(s, u, s');
    case Lock(u) => AloneDecides(s, u, false, s');
    case Decide(u, go) => AloneDecides(s, u, go, s');
    case Clear(u) => AloneSets(s, u, false, s');
    case Check(u, go) => AloneSets(s, u, go, s');
    case Mark(u, fail) => AloneSets(s, u, fail, s');
    case Load(u) => AloneWord(s, u, s');
    case FailExchange(u) => AloneWord(s, u, s');
    case Exchange(u) => AloneWord(s, u, s');
    case Unlock(u) => AloneDecides(s, u, false, s');
    case Wake(u) => OneMoved(s, u, s');
  }

  lemma AloneWait(s: Slot, a: Action, s': Slot)
    requires WaitStep(s, a, s')
    ensures s'.agents == s.agents && s'.closed == s.closed && s'.pollLock == s.pollLock
  {
  }

  /** A step of one direction alone leaves the flag, the lock and the other's view of them. */
  lemma AloneKeeps(s: Slot, a: Action, s': Slot, other: Slot)
    requires Inv(s) && IoWaitSlot.Next(s, a, s') && Alone(s, a, other)
    ensures SameView(s, s')
  {
    match a
    case Enter(_) => AloneWait(s, a, s');
    case Wait(_) => AloneWait(s, a, s');
    case Query =>
    case _ =>
      assert AgentOk(s, a.u);
      AloneAgent(s, a, s', other);
  }

  lemma TogetherKeeps(p: Pair, a: Action, b: Action, p': Pair)
    requires PairInv(p) && Next(p, Both(a, b), p')
    ensures Shared(p')
  {
  }

  lemma NextKeeps(p: Pair, m: Move, p': Pair)
    requires PairInv(p) && Next(p, m, p')
    ensures PairInv(p')
  {
    match m
    case Read(a) =>
      IoWaitSlot.NextKeeps(p.rd, a, p'.rd);
      AloneKeeps(p.rd, a, p'.rd, p.wr);
    case Write(a) =>
      IoWaitSlot.NextKeeps(p.wr, a, p'.wr);
      AloneKeeps(p.wr, a, p'.wr, p.rd);
    case Both(a, b) =>
      IoWaitSlot.NextKeeps(p.rd, a, p'.rd);
      IoWaitSlot.NextKeeps(p.wr, b, p'.wr);
      TogetherKeeps(p, a, b, p');
  }

  lemma InvOverRuns(states: seq<Pair>, moves: seq<Move>, k: nat)
    requires Runs.IsRun(Init, Next, states, moves) && k < |states|
    ensures PairInv(states[k])
  {
    forall p, m, p' | PairInv(p) && Next(p, m, p') ensures PairInv(p') { NextKeeps(p, m, p'); }
    Runs.Invariance(Init, Next, PairInv, states, moves, k);
  }

  /** In both directions a committed coroutine is woken exactly once, by whoever took it out of its word; and while the
      flag is up, a word holds a coroutine only as long as the close that set the flag holds the one poll lock. */
  lemma ExactlyOnceWake(states: seq<Pair>, moves: seq<Move>, k: nat)
    requires Runs.IsRun(Init, Next, states, moves) && k < |states|
    ensures var p := states[k];
            && OnceOk(p.rd) && OnceOk(p.wr) && p.rd.closed == p.wr.closed && p.rd.pollLock == p.wr.pollLock
            && (p.rd.closed && (p.rd.word.Ptr? || p.wr.word.Ptr?) ==>
                  exists u :: 0 <= u < |p.rd.agents| && p.rd.pollLock == Some(u) && PollAgent(p.rd.agents[u])
                      && p.rd.agents[u].role.Closer?)
  {
    InvOverRuns(states, moves, k);
    var p := states[k];
    OnceFrom(p.rd);
    OnceFrom(p.wr);
    if p.rd.closed && p.wr.word.Ptr? {
      var u :| 0 <= u < |p.wr.agents| && Closing(p.wr.agents[u]) && p.wr.pollLock == Some(u);
      assert SamePoint(p.rd.agents[u], p.wr.agents[u]);
    }
  }

  /** Every step does to each word only what WordStepOk allows, or nothing. */
  predicate WordsOk(p: Pair, m: Move, p': Pair) {
    && (if m.Write? then p'.rd == p.rd else WordStepOk(p.rd, m.a, p'.rd))
    && (if m.Read? then p'.wr == p.wr else WordStepOk(p.wr, if m.Both? then m.b else m.a, p'.wr))
  }

  lemma WordsOverRuns(states: seq<Pair>, moves: seq<Move>, k: nat)
    requires Runs.IsRun(Init, Next, states, moves) && k < |moves|
    ensures WordsOk(states[k], moves[k], states[k + 1])
  {
    forall p, m, p' | PairInv(p) && Next(p, m, p') ensures PairInv(p') && WordsOk(p, m, p') {
      NextKeeps(p, m, p');
      if !m.Write? { StepWordOk(p.rd, m.a, p'.rd); }
      if !m.Read? { StepWordOk(p.wr, if m.Both? then m.b else m.a, p'.wr); }
    }
    Runs.StepInvariance(Init, Next, PairInv, WordsOk, states, moves, k);
  }
}
