/** What holds in every run of the worker loop, under every interleaving. */
module SchedulerTheorems {
  import opened Prelude
  import opened SchedulerModel
  import opened SchedulerControl
  import opened SchedulerFrame
  import opened SchedulerSteps
  import opened SchedulerPlaces
  import opened SchedulerConservation
  import Runs

  ghost predicate Safe(s: State) { Inv(s) && Conserved(s) }

  ghost predicate IsRun(states: seq<State>, acts: seq<Action>) {
    Runs.IsRun(s => Init(s), (s, a, s') => Next(s, a, s'), states, acts)
  }

  lemma InitSafe(s: State)
    requires Init(s)
    ensures Safe(s)
  {
    assert Those(s.st, false) == {} && Those(s.st, true) == {};
  }

  /** The control invariant and conservation hold in every state of every run. */
  lemma SafeOverRuns(states: seq<State>, acts: seq<Action>, k: nat)
    requires IsRun(states, acts) && k < |states|
    ensures Safe(states[k])
  {
    forall s | Init(s) ensures Safe(s) { InitSafe(s); }
    forall s, a, s' | Safe(s) && Next(s, a, s') ensures Safe(s') {
      NextKeeps(s, a, s');
      NextConserves(s, a, s');
    }
    Runs.Invariance(s => Init(s), (s, a, s') => Next(s, a, s'), s => Safe(s), states, acts, k);
  }

  // ---- conservation -----------------------------------------------------------------------------------------------

  /** No transition aborts, no unchecked push drops a coroutine, and nothing is ever in two places: any two sightings
      of one coroutine, wherever they are, are the same sighting. */
  lemma ConservationOverRuns(states: seq<State>, acts: seq<Action>, k: nat, c: Coro, p: Place, q: Place)
    requires IsRun(states, acts) && k < |states|
    ensures var s := states[k];
            && Shape(s) && !s.aborted && NoDups(s)
            && (c in s.co <==> exists r :: Has(s, r, c))
            && (Has(s, p, c) && Has(s, q, c) ==> p == q)
            && (Has(s, p, c) ==> c in s.co && s.co[c] == StateAt(s, p))
            && (c in s.co && s.co[c].Runnable? <==>
                  exists r :: Has(s, r, c) && (match r
                                               case InRunnext(_) => true
                                               case InRing(_) => true
                                               case InRunq => true
                                               case InHand(_) => true
                                               case InCur(t) => !s.pc[t].Run? && !s.pc[t].Commit?
                                               case _ => false))
  {
    SafeOverRuns(states, acts, k);
    var s := states[k];
    if c in s.co {
      assert Has(s, s.place[c], c);
    }
    assert forall r :: Has(s, r, c) ==> c in s.place && s.place[c] == r;
  }

  // ---- no lost work -----------------------------------------------------------------------------------------------

  function SleepKind(pc: Pc): WState { if pc.PollBlock? then Polling else Waiting }

  /** Work on the global queue, with no publisher still inside its wake, is never left to sleepers: some worker has
      yet to look at the queue before it blocks, or its wake-up is sent or about to be. */
  lemma NoLostWork(states: seq<State>, acts: seq<Action>, k: nat)
    requires IsRun(states, acts) && k < |states|
    requires states[k].runq != []
    requires forall t :: 0 <= t < |states[k].pc| <= |states[k].sub| ==> !Pending(states[k].pc[t], states[k].sub[t])
    ensures Shape(states[k])
    ensures exists w :: 0 <= w < states[k].n &&
              (Final(states[k].pc[w]) ==> Signalled(states[k], w, SleepKind(states[k].pc[w])))
  {
    SafeOverRuns(states, acts, k);
    var s := states[k];
    if w :| 0 <= w < s.n && Hot(s, w) {
      assert Final(s.pc[w]) ==> s.st[w].Searching?;
    } else {
      assert !IdleState(s.st[0]);
      assert Final(s.pc[0]) ==> s.st[0].Searching?;
    }
  }

  lemma PublishLooks(s: State, t: Tid, s': State, w: nat)
    requires Shape(s) && (DoPublish(s, t, s') || DoSearch(s, t, s')) && w < s.n
    ensures Shape(s') && s'.n == s.n && (Final(s'.pc[w]) ==> Final(s.pc[w])) && (s'.pc[w].SemWait? ==> s.pc[w].SemWait?)
  {
  }

  lemma ProtocolStepsLook(s: State, a: Action, s': State, w: nat)
    requires Shape(s) && WakeProtocolStep(s, a, s') && w < s.n
    ensures Shape(s') && s'.n == s.n && (Final(s'.pc[w]) ==> Final(s.pc[w]))
    ensures s'.pc[w].SemWait? && !s.pc[w].SemWait? ==> s.pollerRunning
  {
    if a.kind.APublish? || a.kind.ASearch? { PublishLooks(s, a.t, s', w); }
  }

  /** A worker passes its last look before blocking only by seeing the global queue and its own two empty, and comes to
      its semaphore only by a poller exchange that finds the role taken. */
  ghost predicate Looks(s: State, s': State) {
    && Shape(s) && Shape(s') && s'.n == s.n
    && (forall w :: 0 <= w < s.n && s'.pc[w].SemWait? && !s.pc[w].SemWait? ==> s.pollerRunning)
    && forall w :: 0 <= w < s.n && Final(s'.pc[w]) && !Final(s.pc[w]) ==>
         s.runq == [] && s'.ring[w] == [] && s'.runnext[w].None?
  }

  lemma PlainLooks(s: State, s': State, t: Tid)
    requires Orderly(s) && t < |s.pc| && Plain(s, s', t)
    ensures Looks(s, s')
  {
  }

  lemma NextLooks(s: State, a: Action, s': State)
    requires Inv(s) && Next(s, a, s')
    ensures Looks(s, s')
  {
    if QueueStep(s, a, s') {
      QueueStepPlain(s, a, s');
      HereFrom(s, a.t);
      PlainLooks(s, s', a.t);
    } else {
      forall w | 0 <= w < s.n
        ensures Shape(s') && s'.n == s.n && (Final(s'.pc[w]) ==> Final(s.pc[w]))
        ensures s'.pc[w].SemWait? && !s.pc[w].SemWait? ==> s.pollerRunning
      {
        ProtocolStepsLook(s, a, s', w);
      }
      ProtocolStepsLook(s, a, s', 0);
    }
  }

  lemma LooksOverRuns(states: seq<State>, acts: seq<Action>, k: nat)
    requires IsRun(states, acts) && k < |acts|
    ensures Looks(states[k], states[k + 1])
  {
    forall s | Init(s) ensures Safe(s) { InitSafe(s); }
    forall s, a, s' | Safe(s) && Next(s, a, s') ensures Safe(s') && Looks(s, s') {
      NextKeeps(s, a, s');
      NextConserves(s, a, s');
      NextLooks(s, a, s');
    }
    Runs.StepInvariance(s => Init(s), (s, a, s') => Next(s, a, s'), s => Safe(s), (s, a, s') => Looks(s, s'), states,
                        acts, k);
  }

  ghost predicate AllLook(states: seq<State>) { forall k :: 0 <= k < |states| - 1 ==> Looks(states[k], states[k + 1]) }

  lemma {:induction false} StaysUp(states: seq<State>, i: nat, j: nat, w: nat)
    requires AllLook(states) && i <= j < |states| && Shape(states[i]) && w < states[i].n
    requires !Final(states[i].pc[w]) && forall k :: i <= k < j ==> states[k].runq != []
    ensures Shape(states[j]) && states[j].n == states[i].n && !Final(states[j].pc[w])
    decreases j
  {
    if i < j {
      StaysUp(states, i, j - 1, w);
      assert Looks(states[j - 1], states[j - 1 + 1]);
    }
  }

  lemma RunsLook(states: seq<State>, acts: seq<Action>)
    requires IsRun(states, acts)
    ensures AllLook(states) && forall k :: 0 <= k < |states| ==> Shape(states[k])
  {
    forall k | 0 <= k < |states| - 1 ensures Looks(states[k], states[k + 1]) { LooksOverRuns(states, acts, k); }
    forall k | 0 <= k < |states| ensures Shape(states[k]) { SafeOverRuns(states, acts, k); }
  }

  /** Between any moment a worker is not about to block and a later one at which it is, the global queue was empty:
      while the queue stays non-empty, a worker that is up stays up. */
  lemma LooksBeforeBlocking(states: seq<State>, acts: seq<Action>, i: nat, j: nat, w: nat)
    requires IsRun(states, acts) && i <= j < |states| && w < states[i].n
    requires forall k :: i <= k < j ==> states[k].runq != []
    ensures Shape(states[i]) && Shape(states[j])
    ensures !Final(states[i].pc[w]) ==> states[j].n == states[i].n && !Final(states[j].pc[w])
  {
    RunsLook(states, acts);
    if !Final(states[i].pc[w]) { StaysUp(states, i, j, w); }
  }

  // ---- never all asleep -------------------------------------------------------------------------------------------

  /** At most one worker polls; and with poller_running clear, some worker has its last poller CAS still before it. */
  lemma NeverAllAsleep(states: seq<State>, acts: seq<Action>, k: nat)
    requires IsRun(states, acts) && k < |states|
    ensures Shape(states[k])
    ensures forall t, u :: 0 <= t < |states[k].pc| && 0 <= u < |states[k].pc| ==>
              InPoller(states[k].pc[t]) && InPoller(states[k].pc[u]) ==> t == u
    ensures states[k].pollerRunning <==> exists t :: 0 <= t < states[k].n && InPoller(states[k].pc[t])
    ensures !states[k].pollerRunning ==> exists w :: 0 <= w < states[k].n && !states[k].pc[w].SemWait?
  {
    SafeOverRuns(states, acts, k);
    assert states[k].pollerRunning ==> InPoller(states[k].pc[states[k].pollerBy]);
  }

  /** Every worker is blocked with no wake-up pending, and no thread outside the pool is in a scheduler call. */
  predicate AllBlocked(s: State)
    requires Shape(s)
  {
    && (forall t :: 0 <= t < |s.pc| ==> s.sub[t].NoCall?)
    && (forall w :: 0 <= w < s.n ==> (s.pc[w].SemWait? && s.sem[w] == 0) || (s.pc[w].PollBlock? && s.wakeBytes == 0))
  }

  /** The pool can only come to rest with nothing left to run: no queue holds anything, every coroutine is parked in a
      wait slot or finished, and exactly one worker sits in the poller to hear of the next event. */
  lemma RestMeansNothingToRun(states: seq<State>, acts: seq<Action>, k: nat)
    requires IsRun(states, acts) && k < |states|
    requires Shape(states[k]) && AllBlocked(states[k])
    ensures var s := states[k];
            && s.runq == []
            && (forall w :: 0 <= w < s.n ==> s.ring[w] == [] && s.runnext[w].None?)
            && (exists p :: 0 <= p < s.n && s.pc[p].PollBlock? && forall w :: 0 <= w < s.n && w != p ==>
                  s.pc[w].SemWait?)
            && (forall c :: c in s.co ==> (s.co[c].Parked? && c in s.slots) || s.co[c].Dead?)
  {
    SafeOverRuns(states, acts, k);
    var s := states[k];
    forall w | 0 <= w < s.n ensures IdleState(s.st[w]) && !Hot(s, w) && s.ring[w] == [] && s.runnext[w].None? {
      assert WaitRegion(s.pc[w]) || PollRegion(s.pc[w]);
    }
    assert IdleState(s.st[0]);
    var p := s.pollerBy;
    assert s.pc[p].PollBlock?;
    RestPlaces(s);
  }

  lemma RestPlaces(s: State)
    requires Conserved(s) && AllBlocked(s) && s.runq == []
    requires forall w :: 0 <= w < s.n ==> s.ring[w] == [] && s.runnext[w].None?
    requires forall t :: s.n <= t < |s.pc| ==> s.pc[t].Outside?
    ensures forall c :: c in s.co ==> (s.co[c].Parked? && c in s.slots) || s.co[c].Dead?
  {
    forall t | 0 <= t < |s.pc| ensures s.cur[t].None? && s.hand[t] == [] && s.claim[t].None? {
      assert CarriesOk(s.pc[t], s.sub[t], s.cur[t], s.hand[t], s.claim[t]);
    }
    forall c | c in s.co ensures (s.co[c].Parked? && c in s.slots) || s.co[c].Dead? {
      assert Has(s, s.place[c], c);
    }
  }
}
