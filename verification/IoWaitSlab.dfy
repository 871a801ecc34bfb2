/** The iowait slab of src/runtime/iowait.c: slots handed out and retired, reference counts, and the generation tag that
    lets a poller event outlive the iowait it was posted for. The 16-bit generation is taken not to wrap.
    One action is one atomic operation or one section under the slab lock. Slot `i` has index `i + 1`. */
module IoWaitSlab {
  import opened Prelude
  import Runs

  const PAGE_SIZE: nat := 256
  const PAGES_MAX: nat := 4096

  /** Where a slot is in its life; `u` is the agent taking it there. */
  datatype Phase = Free | Made(u: nat) | Live | Dropped(u: nat) | Retired(u: nat)

  /** `birth` numbers the incarnations of all slots. */
  datatype Slot = Slot(refcnt: int, gen: nat, phase: Phase, birth: nat)

  /** A poller completion: the packed index and generation, and the incarnation it was posted for. */
  datatype Event = Event(i: nat, gen: nat, birth: nat)

  datatype Agent =
    | Idle | Creating(i: nat) | Holding(i: nat, birth: nat) | Dropping(i: nat) | Dead(i: nat) | Unlisted(i: nat)
    // iowait_process_event
    | Called(e: Event) | CountLoaded(e: Event, cur: int) | Referenced(e: Event) | Acting(e: Event)

  datatype Slab = Slab(slots: seq<Slot>, free: seq<nat>, agents: seq<Agent>, posted: set<Event>, births: nat)

  datatype Action =
    | Alloc(u: nat) | Publish(u: nat) | Share(u: nat, v: nat)
    | Release(u: nat) | Drop(u: nat) | BumpGen(u: nat) | Push(u: nat)
    | Deliver(u: nat, e: Event) | LoadCount(u: nat) | Acquire(u: nat, spurious: bool) | CheckGen(u: nat)

  predicate Init(s: Slab) {
    && s.slots == [] && s.free == [] && s.posted == {} && s.births == 0
    && forall u :: 0 <= u < |s.agents| ==> s.agents[u] == Idle
  }

  function Put(s: Slab, u: nat, a: Agent): Slab
    requires u < |s.agents|
  {
    s.(agents := s.agents[u := a])
  }

  /** `_iowait_slab_alloc` from the free list, ... */
  predicate DoAllocFree(s: Slab, u: nat, s': Slab) {
    && u < |s.agents| && s.agents[u].Idle? && s.free != [] && s.free[0] < |s.slots|
    && var i := s.free[0];
       s' == Put(s, u, Creating(i)).(free := s.free[1..], births := s.births + 1,
                                     slots := s.slots[i := s.slots[i].(phase := Made(u), birth := s.births)])
  }

  /** ... or from a new page, whose first slot is handed out and whose others are listed in order. */
  predicate DoAllocPage(s: Slab, u: nat, s': Slab) {
    && u < |s.agents| && s.agents[u].Idle? && s.free == [] && |s.slots| < PAGES_MAX * PAGE_SIZE
    && var base := |s.slots|;
       s' == Put(s, u, Creating(base)).(
                 free := seq(PAGE_SIZE - 1, j => base + 1 + j), births := s.births + 1,
                 slots := s.slots + seq(PAGE_SIZE,
                                        j => if j == 0 then Slot(0, 0, Made(u), s.births) else Slot(0, 0, Free, 0)))
  }

  /** `iowait_create` takes the first reference; from now on the poller may post events for it. */
  predicate DoPublish(s: Slab, u: nat, s': Slab) {
    && u < |s.agents| && s.agents[u].Creating? && s.agents[u].i < |s.slots|
    && var i := s.agents[u].i; var t := s.slots[i];
       s' == Put(s, u, Holding(i, t.birth)).(slots := s.slots[i := t.(refcnt := t.refcnt + 1, phase := Live)],
                                             posted := s.posted + {Event(i, t.gen, t.birth)})
  }

  /** A holder takes a further reference, for a timer arm. */
  predicate DoShare(s: Slab, u: nat, v: nat, s': Slab) {
    && u < |s.agents| && v < |s.agents| && s.agents[u].Holding? && s.agents[v].Idle? && s.agents[u].i < |s.slots|
    && var i := s.agents[u].i;
       s' == Put(s, v, s.agents[u]).(slots := s.slots[i := s.slots[i].(refcnt := s.slots[i].refcnt + 1)])
  }

  /** `_iowait_unref`: the decrement; whoever takes the count to zero retires the slot. */
  predicate DoDrop(s: Slab, u: nat, s': Slab) {
    && u < |s.agents| && s.agents[u].Dropping? && s.agents[u].i < |s.slots|
    && var i := s.agents[u].i; var t := s.slots[i];
       s' == Put(s, u, if t.refcnt == 1 then Dead(i) else Idle).(
                 slots := s.slots[i := t.(refcnt := t.refcnt - 1,
                                          phase := if t.refcnt == 1 then Dropped(u) else t.phase)])
  }

  predicate DoBumpGen(s: Slab, u: nat, s': Slab) {
    && u < |s.agents| && s.agents[u].Dead? && s.agents[u].i < |s.slots|
    && var i := s.agents[u].i;
       s' == Put(s, u, Unlisted(i)).(slots := s.slots[i := s.slots[i].(gen := s.slots[i].gen + 1, phase := Retired(u))])
  }

  predicate DoPush(s: Slab, u: nat, s': Slab) {
    && u < |s.agents| && s.agents[u].Unlisted? && s.agents[u].i < |s.slots|
    && var i := s.agents[u].i;
       s' == Put(s, u, Idle).(free := [i] + s.free, slots := s.slots[i := s.slots[i].(phase := Free)])
  }

  predicate DoLoadCount(s: Slab, u: nat, s': Slab) {
    && u < |s.agents| && s.agents[u].Called? && s.agents[u].e.i < |s.slots|
    && var e := s.agents[u].e; var cur := s.slots[e.i].refcnt;
       s' == Put(s, u, if cur <= 0 then Idle else CountLoaded(e, cur))
  }

  /** The compare-exchange of `_iowait_try_ref`. */
  predicate DoAcquire(s: Slab, u: nat, s': Slab) {
    && u < |s.agents| && s.agents[u].CountLoaded? && s.agents[u].e.i < |s.slots|
    && var e := s.agents[u].e; var t := s.slots[e.i];
       && t.refcnt == s.agents[u].cur
       && s' == Put(s, u, Referenced(e)).(slots := s.slots[e.i := t.(refcnt := t.refcnt + 1)])
  }

  predicate DoFailAcquire(s: Slab, u: nat, s': Slab) {
    && u < |s.agents| && s.agents[u].CountLoaded? && s.agents[u].e.i < |s.slots|
    && var e := s.agents[u].e; var cur := s.slots[e.i].refcnt;
       s' == Put(s, u, if cur <= 0 then Idle else CountLoaded(e, cur))
  }

  predicate DoCheckGen(s: Slab, u: nat, s': Slab) {
    && u < |s.agents| && s.agents[u].Referenced? && s.agents[u].e.i < |s.slots|
    && var e := s.agents[u].e;
       s' == Put(s, u, if s.slots[e.i].gen == e.gen then Acting(e) else Dropping(e.i))
  }

  predicate Next(s: Slab, a: Action, s': Slab) {
    match a
    case Alloc(u) => DoAllocFree(s, u, s') || DoAllocPage(s, u, s')
    case Publish(u) => DoPublish(s, u, s')
    case Share(u, v) => DoShare(s, u, v, s')
    // an owner lets go, or an event is done acting
    case Release(u) =>
      && u < |s.agents| && (s.agents[u].Holding? || s.agents[u].Acting?)
      && s' == Put(s, u, Dropping(if s.agents[u].Holding? then s.agents[u].i else s.agents[u].e.i))
    case Drop(u) => DoDrop(s, u, s')
    case BumpGen(u) => DoBumpGen(s, u, s')
    case Push(u) => DoPush(s, u, s')
    // any event ever posted may be delivered, any number of times and however late
    case Deliver(u, e) => u < |s.agents| && s.agents[u].Idle? && e in s.posted && s' == Put(s, u, Called(e))
    case LoadCount(u) => DoLoadCount(s, u, s')
    case Acquire(u, spurious) => DoFailAcquire(s, u, s') || (!spurious && DoAcquire(s, u, s'))
    case CheckGen(u) => DoCheckGen(s, u, s')
  }

  // ---- the invariant ----------------------------------------------------------------------------------------------

  predicate HasRef(a: Agent, i: nat) {
    ((a.Holding? || a.Dropping?) && a.i == i) || ((a.Referenced? || a.Acting?) && a.e.i == i)
  }

  function Refs(agents: seq<Agent>, i: nat): set<int> { set u | 0 <= u < |agents| && HasRef(agents[u], i) }

  predicate FreeOk(s: Slab) {
    && NoDup(s.free)
    && (forall i :: i in s.free ==> i < |s.slots| && s.slots[i].phase.Free?)
    && (forall i :: 0 <= i < |s.slots| && s.slots[i].phase.Free? ==> i in s.free)
  }

  predicate SlotOk(s: Slab, i: nat)
    requires i < |s.slots|
  {
    var t := s.slots[i];
    && t.refcnt == |Refs(s.agents, i)| && (t.refcnt > 0 <==> t.phase.Live?)
    && (t.phase.Made? ==> t.phase.u < |s.agents| && s.agents[t.phase.u] == Creating(i))
    && (t.phase.Dropped? ==> t.phase.u < |s.agents| && s.agents[t.phase.u] == Dead(i))
    && (t.phase.Retired? ==> t.phase.u < |s.agents| && s.agents[t.phase.u] == Unlisted(i))
  }

  predicate EventOk(s: Slab, e: Event) {
    && e.i < |s.slots|
    && var t := s.slots[e.i];
       e.gen < t.gen || (e.gen == t.gen && e.birth == t.birth && (t.phase.Live? || t.phase.Dropped?))
  }

  predicate AgentOk(s: Slab, u: nat)
    requires u < |s.agents|
  {
    match s.agents[u]
    case Idle => true
    case Creating(i) => i < |s.slots| && s.slots[i].phase == Made(u)
    case Holding(i, birth) => i < |s.slots| && s.slots[i].birth == birth
    case Dropping(i) => i < |s.slots|
    case Dead(i) => i < |s.slots| && s.slots[i].phase == Dropped(u)
    case Unlisted(i) => i < |s.slots| && s.slots[i].phase == Retired(u)
    case Called(e) => EventOk(s, e)
    case CountLoaded(e, cur) => EventOk(s, e) && cur > 0
    case Referenced(e) => EventOk(s, e)
    case Acting(e) => EventOk(s, e) && s.slots[e.i].gen == e.gen
  }

  ghost predicate Inv(s: Slab) {
    && FreeOk(s)
    && (forall i :: 0 <= i < |s.slots| ==> SlotOk(s, i))
    && (forall u :: 0 <= u < |s.agents| ==> AgentOk(s, u))
    && (forall e :: e in s.posted ==> EventOk(s, e))
  }

  lemma RefsUpdate(agents: seq<Agent>, u: nat, a: Agent, i: nat)
    requires u < |agents|
    ensures |Refs(agents[u := a], i)| == |Refs(agents, i)| - One(HasRef(agents[u], i)) + One(HasRef(a, i))
  {
    var rest := Refs(agents, i) - {u};
    assert Refs(agents, i) == if HasRef(agents[u], i) then rest + {u} else rest;
    assert Refs(agents[u := a], i) == if HasRef(a, i) then rest + {u} else rest;
  }

  /** One agent moves and one slot changes: what has to be shown of those two. */
  lemma StepKeeps(s: Slab, s': Slab, u: nat, i: nat)
    requires Inv(s) && u < |s.agents| && i < |s.slots|
    requires |s'.agents| == |s.agents| && s'.agents == s.agents[u := s'.agents[u]]
    requires |s'.slots| == |s.slots| && s'.slots == s.slots[i := s'.slots[i]]
    requires FreeOk(s')
    requires s'.slots[i].refcnt == s.slots[i].refcnt - One(HasRef(s.agents[u], i)) + One(HasRef(s'.agents[u], i))
    requires forall j :: 0 <= j < |s.slots| && j != i ==> HasRef(s'.agents[u], j) == HasRef(s.agents[u], j)
    requires s'.slots[i].refcnt > 0 <==> s'.slots[i].phase.Live?
    // the slot's phase belongs to the moving agent before and after, or does not change
    requires var p, p' := s.slots[i].phase, s'.slots[i].phase;
             || (p' == p && (p.Made? || p.Dropped? || p.Retired? ==> p.u != u))
             || (&& (p.Made? || p.Dropped? || p.Retired? ==> p.u == u)
                 && (p'.Made? ==> p'.u == u && s'.agents[u] == Creating(i))
                 && (p'.Dropped? ==> p'.u == u && s'.agents[u] == Dead(i))
                 && (p'.Retired? ==> p'.u == u && s'.agents[u] == Unlisted(i)))
    requires forall j :: 0 <= j < |s.slots| && j != i ==> !Owns(s, u, j)
    requires s'.slots[i].birth != s.slots[i].birth ==> s.slots[i].refcnt == 0
    requires AgentOk(s', u)
    requires forall e: Event :: e.i == i && EventOk(s, e) ==> EventOk(s', e)
    requires s'.slots[i].gen != s.slots[i].gen ==> s.slots[i].refcnt == 0
    requires forall e :: e in s'.posted ==> e in s.posted || EventOk(s', e)
    ensures Inv(s')
  {
    forall j | 0 <= j < |s'.slots| ensures SlotOk(s', j) {
      assert SlotOk(s, j) && (j != i ==> !Owns(s, u, j));
      RefsUpdate(s.agents, u, s'.agents[u], j);
    }
    forall e | EventOk(s, e) ensures EventOk(s', e) { }
    forall v | 0 <= v < |s'.agents| ensures AgentOk(s', v) {
      assert AgentOk(s, v);
      assert SlotOk(s, i);
      assert HasRef(s.agents[v], i) ==> v in Refs(s.agents, i);
    }
  }

  predicate Owns(s: Slab, u: nat, j: nat)
    requires j < |s.slots|
  {
    (s.slots[j].phase.Made? || s.slots[j].phase.Dropped? || s.slots[j].phase.Retired?) && s.slots[j].phase.u == u
  }

  /** Only an agent on its way to publish or retire a slot owns its phase. */
  lemma NotOwner(s: Slab, u: nat)
    requires Inv(s) && u < |s.agents|
    ensures forall j :: 0 <= j < |s.slots| && Owns(s, u, j) ==>
              (s.agents[u].Creating? || s.agents[u].Dead? || s.agents[u].Unlisted?) && s.agents[u].i == j
  {
    forall j | 0 <= j < |s.slots| && Owns(s, u, j)
      ensures (s.agents[u].Creating? || s.agents[u].Dead? || s.agents[u].Unlisted?) && s.agents[u].i == j
    {
      assert SlotOk(s, j);
    }
  }

  /** A reference keeps its slot alive. */
  lemma RefAlive(s: Slab, u: nat, i: nat)
    requires Inv(s) && u < |s.agents| && i < |s.slots| && HasRef(s.agents[u], i)
    ensures s.slots[i].refcnt > 0 && s.slots[i].phase.Live?
  {
    assert SlotOk(s, i);
    assert u in Refs(s.agents, i);
  }

  lemma AllocFreeKeeps(s: Slab, u: nat, s': Slab)
    requires Inv(s) && DoAllocFree(s, u, s')
    ensures Inv(s')
  {
    var i := s.free[0];
    assert i in s.free && s.slots[i].phase.Free? && SlotOk(s, i);
    assert forall j :: j in s.free[1..] <==> j in s.free && j != i;
    NotOwner(s, u);
    StepKeeps(s, s', u, i);
  }

  lemma AllocPageKeeps(s: Slab, u: nat, s': Slab)
    requires Inv(s) && DoAllocPage(s, u, s')
    ensures Inv(s')
  {
    var base := |s.slots|;
    NotOwner(s, u);
    forall i ensures i in s'.free <==> base < i < base + PAGE_SIZE {
      assert base < i < base + PAGE_SIZE ==> s'.free[i - base - 1] == i;
    }
    forall j | 0 <= j < |s'.slots| ensures SlotOk(s', j) {
      RefsUpdate(s.agents, u, s'.agents[u], j);
      if j < base {
        assert SlotOk(s, j);
      } else {
        forall v | 0 <= v < |s.agents| ensures !HasRef(s.agents[v], j) { assert AgentOk(s, v); }
        assert Refs(s.agents, j) == {};
      }
    }
    forall v | 0 <= v < |s'.agents| ensures AgentOk(s', v) {
      assert AgentOk(s, v);
    }
  }

  lemma OwnerKeeps(s: Slab, a: Action, s': Slab)
    requires Inv(s) && Next(s, a, s') && (a.Publish? || a.BumpGen? || a.Push?)
    ensures Inv(s')
  {
    var i := s.agents[a.u].i;
    assert AgentOk(s, a.u) && SlotOk(s, i);
    NotOwner(s, a.u);
    StepKeeps(s, s', a.u, i);
  }

  lemma DropKeeps(s: Slab, u: nat, s': Slab)
    requires Inv(s) && DoDrop(s, u, s')
    ensures Inv(s')
  {
    var i := s.agents[u].i;
    RefAlive(s, u, i);
    NotOwner(s, u);
    StepKeeps(s, s', u, i);
  }

  lemma ShareKeeps(s: Slab, u: nat, v: nat, s': Slab)
    requires Inv(s) && DoShare(s, u, v, s')
    ensures Inv(s')
  {
    assert AgentOk(s, u);
    RefAlive(s, u, s.agents[u].i);
    NotOwner(s, v);
    StepKeeps(s, s', v, s.agents[u].i);
  }

  lemma EventStepKeeps(s: Slab, a: Action, s': Slab)
    requires Inv(s) && Next(s, a, s') && (a.Deliver? || a.LoadCount? || a.Acquire? || a.CheckGen?)
    ensures Inv(s')
  {
    assert AgentOk(s, a.u);
    NotOwner(s, a.u);
    var i := if a.Deliver? then a.e.i else s.agents[a.u].e.i;
    assert SlotOk(s, i);
    StepKeeps(s, s', a.u, i);
  }

  lemma ReleaseKeeps(s: Slab, u: nat, s': Slab)
    requires Inv(s) && Next(s, Release(u), s')
    ensures Inv(s')
  {
    var i := if s.agents[u].Holding? then s.agents[u].i else s.agents[u].e.i;
    assert AgentOk(s, u) && SlotOk(s, i);
    NotOwner(s, u);
    StepKeeps(s, s', u, i);
  }

  lemma NextKeeps(s: Slab, a: Action, s': Slab)
    requires Inv(s) && Next(s, a, s')
    ensures Inv(s')
  {
    match a
    case Alloc(u) => if DoAllocFree(s, u, s') { AllocFreeKeeps(s, u, s'); } else { AllocPageKeeps(s, u, s'); }
    case Share(u, v) => ShareKeeps(s, u, v, s');
    case Release(u) => ReleaseKeeps(s, u, s');
    case Drop(u) => DropKeeps(s, u, s');
    case Publish(_) => OwnerKeeps(s, a, s');
    case BumpGen(_) => OwnerKeeps(s, a, s');
    case Push(_) => OwnerKeeps(s, a, s');
    case _ => EventStepKeeps(s, a, s');
  }

  // ---- what it means ----------------------------------------------------------------------------------------------

  lemma InvOverRuns(states: seq<Slab>, acts: seq<Action>, k: nat)
    requires Runs.IsRun(s => Init(s), (s, a, s') => Next(s, a, s'), states, acts) && k < |states|
    ensures Inv(states[k])
  {
    forall s, a, s' | Inv(s) && Next(s, a, s') ensures Inv(s') { NextKeeps(s, a, s'); }
    Runs.Invariance(s => Init(s), (s, a, s') => Next(s, a, s'), s => Inv(s), states, acts, k);
  }

  /** However late it is delivered, an event acts only on the incarnation it was posted for, which is alive meanwhile;
      so is every iowait somebody holds. */
  lemma StaleEventsHarmless(states: seq<Slab>, acts: seq<Action>, k: nat, u: nat)
    requires Runs.IsRun(s => Init(s), (s, a, s') => Next(s, a, s'), states, acts) && k < |states|
    requires u < |states[k].agents|
    ensures var s := states[k];
            match s.agents[u]
            case Acting(e) => e.i < |s.slots| && s.slots[e.i].phase.Live? && s.slots[e.i].birth == e.birth
            case Holding(i, birth) => i < |s.slots| && s.slots[i].phase.Live? && s.slots[i].birth == birth
            case _ => true
  {
    InvOverRuns(states, acts, k);
    var s := states[k];
    assert AgentOk(s, u);
    match s.agents[u]
    case Acting(e) => RefAlive(s, u, e.i);
    case Holding(i, _) => RefAlive(s, u, i);
    case _ =>
  }

  /** Only its holder lets go of a reference. */
  lemma StillHeld(s: Slab, a: Action, s': Slab, u: nat)
    requires Next(s, a, s') && u < |s.agents| && s.agents[u].Holding? && a != Release(u)
    ensures |s'.agents| == |s.agents| && s'.agents[u] == s.agents[u]
  {
  }

  /** A reference that is never released, such as that of a dropped timer arm, keeps its slot from ever being retired:
      the same incarnation is alive in every later state. */
  lemma {:induction false} UnreleasedPins(states: seq<Slab>, acts: seq<Action>, j: nat, k: nat, u: nat)
    requires Runs.IsRun(s => Init(s), (s, a, s') => Next(s, a, s'), states, acts) && j <= k < |states|
    requires u < |states[j].agents| && states[j].agents[u].Holding?
    requires forall m :: j <= m < k ==> acts[m] != Release(u)
    ensures u < |states[k].agents| && states[k].agents[u] == states[j].agents[u]
    ensures var h := states[j].agents[u];
            h.i < |states[k].slots| && states[k].slots[h.i].phase.Live? && states[k].slots[h.i].birth == h.birth
    decreases k
  {
    if j < k {
      UnreleasedPins(states, acts, j, k - 1, u);
      assert Next(states[k - 1], acts[k - 1], states[k - 1 + 1]);
      StillHeld(states[k - 1], acts[k - 1], states[k], u);
    }
    StaleEventsHarmless(states, acts, k, u);
  }

  /** The life of a slot, step by step. It is handed out only when nobody refers to it and no other agent creates or
      retires it; its count leaves zero only by being published, never through `_iowait_try_ref`; its generation rises
      by one exactly when it is retired, which happens once per incarnation; and a live slot keeps both tags. */
  predicate LifeOk(s: Slab, a: Action, s': Slab) {
    |s.slots| <= |s'.slots| && forall i :: 0 <= i < |s.slots| ==> LifeStep(s.slots[i], a, s'.slots[i])
  }

  predicate LifeStep(t: Slot, a: Action, t': Slot) {
    && (t'.phase.Made? && !t.phase.Made? ==> a.Alloc? && t.phase.Free? && t.refcnt == 0)
    && (t.refcnt == 0 && t'.refcnt != 0 ==> a.Publish? && t.phase.Made? && t'.refcnt == 1)
    && (t'.gen != t.gen ==> a.BumpGen? && t'.gen == t.gen + 1 && t.phase.Dropped? && t'.phase.Retired?)
    && (t'.birth != t.birth ==> a.Alloc? && t'.phase.Made?)
    && (t.phase.Live? && !t'.phase.Live? ==> a.Drop? && t.refcnt == 1 && t'.phase.Dropped?)
    && (t.phase.Dropped? && !t'.phase.Dropped? ==> a.BumpGen? && t'.phase.Retired?)
    && (t.phase.Retired? && !t'.phase.Retired? ==> a.Push? && t'.phase.Free?)
  }

  lemma NextLife(s: Slab, a: Action, s': Slab)
    requires Inv(s) && Next(s, a, s')
    ensures LifeOk(s, a, s')
  {
    assert AgentOk(s, a.u);
    forall i | 0 <= i < |s.slots| ensures LifeStep(s.slots[i], a, s'.slots[i]) {
      assert SlotOk(s, i);
      if HasRef(s.agents[a.u], i) { RefAlive(s, a.u, i); }
    }
  }

  lemma LifeOverRuns(states: seq<Slab>, acts: seq<Action>, k: nat)
    requires Runs.IsRun(s => Init(s), (s, a, s') => Next(s, a, s'), states, acts) && k < |acts|
    ensures LifeOk(states[k], acts[k], states[k + 1])
  {
    forall s, a, s' | Inv(s) && Next(s, a, s') ensures Inv(s') && LifeOk(s, a, s') {
      NextKeeps(s, a, s');
      NextLife(s, a, s');
    }
    Runs.StepInvariance(s => Init(s), (s, a, s') => Next(s, a, s'), s => Inv(s), (s, a, s') => LifeOk(s, a, s'),
                        states, acts, k);
  }

  // ---- packing ----------------------------------------------------------------------------------------------------

  const INDEX_SPAN: nat := 0x1_0000_0000_0000

  /** The generation in the top 16 of 64 bits, the index below. */
  function UdEncode(index: nat, gen: nat): nat { gen * INDEX_SPAN + index % INDEX_SPAN }

  function UdIndex(ud: nat): nat { ud % INDEX_SPAN % 0x1_0000_0000 }

  function UdGen(ud: nat): nat { ud / INDEX_SPAN % 0x1_0000 }

  /** Packing loses nothing, and never yields the NULL kept for the wake-up descriptor. */
  lemma PackingRoundTrips(index: nat, gen: nat)
    requires 1 <= index < 0x1_0000_0000 && gen < 0x1_0000
    ensures UdIndex(UdEncode(index, gen)) == index && UdGen(UdEncode(index, gen)) == gen
    ensures 0 < UdEncode(index, gen) < 0x1_0000_0000_0000_0000
  {
  }

  /** An index names one page and one offset in it, and every such pair has an index. */
  lemma IndexAddresses(page: nat, offset: nat, index: nat)
    requires offset < PAGE_SIZE && index >= 1
    ensures index == page * PAGE_SIZE + 1 + offset <==>
              page == (index - 1) / PAGE_SIZE && offset == (index - 1) % PAGE_SIZE
  {
  }
}
