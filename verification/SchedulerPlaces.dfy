/** Conservation: every coroutine is at exactly one place, in the state that place calls for. */
module SchedulerPlaces {
  import opened Prelude
  import opened SchedulerModel

  /** Whether the machine really holds `c` at a place. Nothing may ever be lost. */
  predicate Has(s: State, p: Place, c: Coro)
    requires Shape(s)
  {
    match p
    case InRunnext(w) => w < s.n && s.runnext[w] == Some(c)
    case InRing(w) => w < s.n && c in s.ring[w]
    case InRunq => c in s.runq
    case InCur(t) => t < |s.pc| && s.cur[t] == Some(c)
    case InHand(t) => t < |s.pc| && c in s.hand[t]
    case InClaim(t) => t < |s.pc| && s.claim[t] == Some(c)
    case InSlot => c in s.slots
    case Gone => c in s.place && s.place[c].Gone?
    case Lost => false
  }

  ghost predicate PlacesOk(s: State)
    requires Shape(s)
  {
    && s.co.Keys == s.place.Keys
    && forall p, c :: Has(s, p, c) <==> c in s.place && s.place[c] == p
  }

  predicate NoDups(s: State)
    requires Shape(s)
  {
    && (forall w :: 0 <= w < s.n ==> NoDup(s.ring[w]))
    && NoDup(s.runq)
    && (forall t :: 0 <= t < |s.pc| ==> NoDup(s.hand[t]))
  }

  predicate BatchPc(pc: Pc) { pc.TakePush? || pc.StealPush? }
  predicate DispatchPc(pc: Pc) { pc.Dispatch? || pc.DispatchReady? }

  predicate HasCur(pc: Pc) {
    pc.Found? || pc.PollFound? || pc.Handoff? || pc.Exec? || pc.Run? || pc.Commit? || pc.LocalEnq? || BatchPc(pc)
  }

  /** What a thread carries follows from where it is. */
  predicate CarriesOk(pc: Pc, sub: Sub, cur: Option<Coro>, hand: seq<Coro>, claim: Option<Coro>) {
    && (HasCur(pc) ==> cur.Some?)
    && (cur.Some? ==> HasCur(pc) || pc.PollTimers? || pc.Polled? || DispatchPc(pc))
    && (hand != [] ==>
          || BatchPc(pc) || DispatchPc(pc) || sub.EnqNext? || sub.EnqPush? || sub.EnqHalf? || sub.FlushRunq?
          || sub.Batch? || sub.BatchReady?)
    && (sub.EnqNext? || sub.EnqPush? || sub.EnqHalf? ==> |hand| == 1)
    && (claim.Some? <==> sub.Ready? || sub.BatchReady? || pc.DispatchReady?)
    && (DispatchPc(pc) || BatchPc(pc) ==> sub.NoCall?)
  }

  predicate RoomOk(pc: Pc, ring: seq<Coro>, hand: seq<Coro>) {
    |ring| <= RING_CAP && (BatchPc(pc) ==> |ring| + |hand| <= RING_CAP)
  }

  predicate ThreadsOk(s: State)
    requires Shape(s)
  {
    && (forall t :: 0 <= t < |s.pc| ==> CarriesOk(s.pc[t], s.sub[t], s.cur[t], s.hand[t], s.claim[t]))
    && (forall w :: 0 <= w < s.n ==> RoomOk(s.pc[w], s.ring[w], s.hand[w]))
  }

  /** The state a coroutine must have at a place. */
  function StateAt(s: State, p: Place): CoState
    requires Shape(s)
  {
    match p
    case InSlot => Parked
    case InClaim(t) => if t < |s.pc| && s.sub[t] == Ready(true) then New else Parked
    case InCur(t) => if t >= |s.pc| then Runnable
                     else if s.pc[t].Run? then Executing
                     else if s.pc[t].Commit? then Parked
                     else Runnable
    case Gone => Dead
    case _ => Runnable
  }

  predicate StatesFit(s: State)
    requires Shape(s)
  {
    forall c :: c in s.place ==> c in s.co && s.co[c] == StateAt(s, s.place[c])
  }

  ghost predicate Conserved(s: State) {
    && Shape(s) && !s.aborted
    && PlacesOk(s) && NoDups(s) && ThreadsOk(s) && StatesFit(s)
  }

  // ---- moving coroutines ---------------------------------------------------------------------------------------

  /** `first` moved to place `p` and `rest` to place `q`; everything else is where it was. */
  ghost predicate Moved(s: State, s': State, first: seq<Coro>, p: Place, rest: seq<Coro>, q: Place)
    requires Shape(s) && Shape(s')
  {
    && s'.place == Put(Put(s.place, rest, q), first, p)
    && s'.co.Keys == s.co.Keys
    && (forall c :: c in first || c in rest ==> c in s.place)
    && (forall r, c :: Has(s', r, c) <==> if c in first then r == p else if c in rest then r == q else Has(s, r, c))
  }

  lemma MovedKeeps(s: State, s': State, first: seq<Coro>, p: Place, rest: seq<Coro>, q: Place)
    requires Shape(s) && Shape(s') && PlacesOk(s) && Moved(s, s', first, p, rest, q)
    ensures PlacesOk(s')
  {
    forall r, c ensures Has(s', r, c) <==> c in s'.place && s'.place[c] == r {
      assert Has(s, r, c) <==> c in s.place && s.place[c] == r;
    }
  }

  // ---- what a step of thread t must show for each part -----------------------------------------------------------

  predicate OthersCarry(s: State, s': State, t: Tid)
    requires Shape(s) && t < |s.pc|
  {
    && Shape(s') && s'.n == s.n && |s'.pc| == |s.pc|
    && (forall u :: 0 <= u < |s.pc| && u != t ==>
          && s'.pc[u] == s.pc[u] && s'.sub[u] == s.sub[u]
          && s'.cur[u] == s.cur[u] && s'.hand[u] == s.hand[u] && s'.claim[u] == s.claim[u])
    && (forall w :: 0 <= w < s.n && w != t ==> |s'.ring[w]| <= |s.ring[w]|)
  }

  lemma CarryThreads(s: State, s': State, t: Tid)
    requires Shape(s) && t < |s.pc| && ThreadsOk(s) && OthersCarry(s, s', t)
    requires CarriesOk(s'.pc[t], s'.sub[t], s'.cur[t], s'.hand[t], s'.claim[t])
    requires t < s.n ==> RoomOk(s'.pc[t], s'.ring[t], s'.hand[t])
    ensures ThreadsOk(s')
  {
  }

  /** A coroutine that did not move keeps its state, and the one thread `t` holds or claims is where that thread
      says. */
  predicate StatesLocal(s: State, s': State, t: Tid, moved: seq<Coro>)
    requires Shape(s) && Shape(s') && t < |s.pc| && |s'.pc| == |s.pc|
  {
    && (forall c :: c in s.place && c !in moved ==>
          c in s'.place && s'.place[c] == s.place[c] && c in s.co && c in s'.co)
    && (forall c :: c in s'.place && c !in s.place ==> c in moved)
    && (forall c :: c in moved && c in s'.place ==> c in s'.co && s'.co[c] == StateAt(s', s'.place[c]))
    && (forall c :: c in s.place && c !in moved ==>
          if s.place[c] == InCur(t) || s.place[c] == InClaim(t)
          then s'.co[c] == StateAt(s', s.place[c])
          else s'.co[c] == s.co[c])
  }

  lemma CarryStates(s: State, s': State, t: Tid, moved: seq<Coro>)
    requires Shape(s) && t < |s.pc| && StatesFit(s) && OthersCarry(s, s', t) && StatesLocal(s, s', t, moved)
    ensures StatesFit(s')
  {
  }

  // ---- taking a batch out of a queue -----------------------------------------------------------------------------

  /** `r` is `s` with `batch` taken out of the queue at place `from`. */
  ghost predicate Removed(s: State, r: State, batch: seq<Coro>, from: Place)
    requires Shape(s)
  {
    && r == s.(runnext := r.runnext, ring := r.ring, runq := r.runq) && Shape(r)
    && (from.InRunnext? || from.InRing? || from.InRunq?)
    && (forall c :: c in batch ==> Has(s, from, c))
    && (forall p, c :: Has(r, p, c) <==> Has(s, p, c) && !(p == from && c in batch))
    && (forall w :: 0 <= w < s.n ==> |r.ring[w]| <= |s.ring[w]| && NoDup(r.ring[w]))
    && NoDup(r.runq) && NoDup(batch)
  }

  lemma BatchPlaces(s: State, r: State, t: Tid, batch: seq<Coro>, from: Place, pc: Pc)
    requires Shape(s) && PlacesOk(s) && t < |s.pc| && Removed(s, r, batch, from) && |batch| > 0
    requires s.cur[t].None? && s.hand[t] == []
    ensures PlacesOk(TakeBatch(r, t, batch, pc))
  {
    var s' := TakeBatch(r, t, batch, pc);
    var first, rest := [batch[0]], batch[1..];
    assert forall c :: c in batch <==> c in first || c in rest;
    forall p, c ensures Has(s', p, c) <==>
      if c in first then p == InCur(t) else if c in rest then p == InHand(t) else Has(s, p, c) {
      assert Has(r, p, c) <==> Has(s, p, c) && !(p == from && c in batch);
      assert Has(s, p, c) <==> c in s.place && s.place[c] == p;
      if c in batch { assert Has(s, from, c); }
    }
    MovedKeeps(s, s', first, InCur(t), rest, InHand(t));
  }

  lemma BatchStates(s: State, r: State, t: Tid, batch: seq<Coro>, from: Place, pc: Pc)
    requires Shape(s) && PlacesOk(s) && StatesFit(s) && t < s.n && Removed(s, r, batch, from) && |batch| > 0
    requires s.cur[t].None? && s.claim[t].None? && (pc.Found? || pc.PollFound? || BatchPc(pc))
    ensures StatesLocal(s, TakeBatch(r, t, batch, pc), t, batch)
  {
    var s' := TakeBatch(r, t, batch, pc);
    assert forall c :: c in batch <==> c == batch[0] || c in batch[1..];
    BatchRunnable(s, r, batch, from);
    NotHeld(s, t);
  }

  lemma BatchRunnable(s: State, r: State, batch: seq<Coro>, from: Place)
    requires Shape(s) && PlacesOk(s) && StatesFit(s) && Removed(s, r, batch, from)
    ensures forall c :: c in batch ==> c in s.co && s.co[c] == Runnable && c in s.place
  {
    forall c | c in batch ensures c in s.co && s.co[c] == Runnable && c in s.place {
      assert Has(s, from, c);
    }
  }

  lemma NotHeld(s: State, t: Tid)
    requires Shape(s) && PlacesOk(s) && t < s.n && s.cur[t].None? && s.claim[t].None?
    ensures forall c :: c in s.place ==> s.place[c] != InCur(t) && s.place[c] != InClaim(t)
  {
    forall c | c in s.place ensures s.place[c] != InCur(t) && s.place[c] != InClaim(t) {
      assert !Has(s, InCur(t), c) && !Has(s, InClaim(t), c);
    }
  }

  lemma BatchKeeps(s: State, r: State, t: Tid, batch: seq<Coro>, from: Place, pc: Pc)
    requires Conserved(s) && t < s.n && Removed(s, r, batch, from) && |batch| > 0
    requires s.cur[t].None? && s.hand[t] == [] && s.claim[t].None? && s.sub[t].NoCall?
    requires pc.Found? || pc.PollFound? || BatchPc(pc)
    requires |batch| > 1 ==> BatchPc(pc)
    requires BatchPc(pc) ==> |r.ring[t]| + |batch| <= RING_CAP + 1
    ensures Conserved(TakeBatch(r, t, batch, pc))
  {
    var s' := TakeBatch(r, t, batch, pc);
    BatchPlaces(s, r, t, batch, from, pc);
    BatchStates(s, r, t, batch, from, pc);
    CarryStates(s, s', t, batch);
    BatchThreads(s, r, t, batch, from, pc);
  }

  lemma BatchThreads(s: State, r: State, t: Tid, batch: seq<Coro>, from: Place, pc: Pc)
    requires Shape(s) && ThreadsOk(s) && NoDups(s) && t < s.n && Removed(s, r, batch, from) && |batch| > 0
    requires s.claim[t].None? && s.sub[t].NoCall?
    requires pc.Found? || pc.PollFound? || BatchPc(pc)
    requires |batch| > 1 ==> BatchPc(pc)
    requires BatchPc(pc) ==> |r.ring[t]| + |batch| <= RING_CAP + 1
    ensures var s' := TakeBatch(r, t, batch, pc); ThreadsOk(s') && NoDups(s')
  {
    var s' := TakeBatch(r, t, batch, pc);
    CarryThreads(s, s', t);
  }

  // ---- any other move to one place -------------------------------------------------------------------------------

  /** `s` with the coroutines `cs` taken out of place `p`; out of a sequence, from its front. */
  function Out(s: State, p: Place, cs: seq<Coro>): State
    requires Shape(s)
    requires p.InHand? ==> p.t < |s.pc| && |cs| <= |s.hand[p.t]|
    requires p.InRing? ==> p.w < s.n && |cs| <= |s.ring[p.w]|
  {
    match p
    case InHand(t) => s.(hand := s.hand[t := s.hand[t][|cs|..]])
    case InRing(w) => s.(ring := s.ring[w := s.ring[w][|cs|..]])
    case InCur(t) => if t < |s.pc| then s.(cur := s.cur[t := None]) else s
    case InClaim(t) => if t < |s.pc| then s.(claim := s.claim[t := None]) else s
    case InSlot => s.(slots := s.slots - set c | c in cs)
    case _ => s
  }

  /** `s` with `cs` put at place `p`; into a sequence, at its back. */
  function In(s: State, p: Place, cs: seq<Coro>): State
    requires Shape(s)
    requires p.InCur? || p.InClaim? ==> |cs| == 1
  {
    var r := s.(place := Put(s.place, cs, p));
    match p
    case InHand(t) => if t < |s.pc| then r.(hand := s.hand[t := s.hand[t] + cs]) else r
    case InRing(w) => if w < s.n then r.(ring := s.ring[w := s.ring[w] + cs]) else r
    case InRunq => r.(runq := s.runq + cs)
    case InCur(t) => if t < |s.pc| then r.(cur := s.cur[t := Some(cs[0])]) else r
    case InClaim(t) => if t < |s.pc| then r.(claim := s.claim[t := Some(cs[0])]) else r
    case InSlot => r.(slots := s.slots + set c | c in cs)
    case _ => r
  }

  /** `cs` stands at the front of place `p`. */
  predicate FrontOf(s: State, p: Place, cs: seq<Coro>)
    requires Shape(s)
  {
    match p
    case InHand(t) => t < |s.pc| && cs <= s.hand[t]
    case InRing(w) => w < s.n && cs <= s.ring[w]
    case InCur(t) => t < |s.pc| && s.cur[t].Some? && cs == [s.cur[t].value]
    case InClaim(t) => t < |s.pc| && s.claim[t].Some? && cs == [s.claim[t].value]
    case InSlot => |cs| == 1 && cs[0] in s.slots
    case _ => false
  }

  predicate FreeFor(s: State, p: Place, cs: seq<Coro>)
    requires Shape(s)
  {
    match p
    case InHand(t) => t < |s.pc|
    case InRing(w) => w < s.n
    case InRunq => true
    case InCur(t) => t < |s.pc| && |cs| == 1 && s.cur[t].None?
    case InClaim(t) => t < |s.pc| && |cs| == 1 && s.claim[t].None?
    case InSlot => true
    case Gone => true
    case _ => false
  }

  lemma OutHas(s: State, p: Place, cs: seq<Coro>)
    requires Shape(s) && NoDups(s) && FrontOf(s, p, cs)
    ensures var r := Out(s, p, cs);
            && Shape(r) && NoDups(r)
            && forall q, c :: Has(r, q, c) <==> Has(s, q, c) && !(q == p && c in cs)
  {
    match p
    case InHand(t) =>
      assert NoDup(s.hand[t]) && s.hand[t] == cs + s.hand[t][|cs|..];
      assert forall c :: c in s.hand[t][|cs|..] <==> c in s.hand[t] && c !in cs;
    case InRing(w) =>
      assert NoDup(s.ring[w]) && s.ring[w] == cs + s.ring[w][|cs|..];
      assert forall c :: c in s.ring[w][|cs|..] <==> c in s.ring[w] && c !in cs;
    case _ =>
  }

  lemma NoDupAppend(xs: seq<Coro>, ys: seq<Coro>)
    requires NoDup(xs) && NoDup(ys) && forall c :: c in ys ==> c !in xs
    ensures NoDup(xs + ys)
  {
    forall i, j | 0 <= i < j < |xs + ys| ensures (xs + ys)[i] != (xs + ys)[j] {
      if i < |xs| <= j { assert ys[j - |xs|] in ys; }
    }
  }

  lemma InNoDups(r: State, p: Place, cs: seq<Coro>)
    requires Shape(r) && NoDups(r) && NoDup(cs) && FreeFor(r, p, cs)
    requires forall c :: c in cs ==> !Has(r, p, c)
    ensures var s' := In(r, p, cs); Shape(s') && NoDups(s')
  {
    match p
    case InHand(t) => NoDupAppend(r.hand[t], cs);
    case InRing(w) => NoDupAppend(r.ring[w], cs);
    case InRunq => NoDupAppend(r.runq, cs);
    case _ =>
  }

  lemma InHas(r: State, p: Place, cs: seq<Coro>, q: Place, c: Coro)
    requires Shape(r) && FreeFor(r, p, cs) && !q.Gone?
    ensures var s' := In(r, p, cs); Shape(s') && (Has(s', q, c) <==> Has(r, q, c) || (q == p && c in cs))
  {
  }

  predicate SameData(s: State, s': State) {
    && s'.n == s.n && |s'.pc| == |s.pc|
    && s'.runnext == s.runnext && s'.ring == s.ring && s'.runq == s.runq && s'.slots == s.slots
    && s'.cur == s.cur && s'.hand == s.hand && s'.claim == s.claim && s'.place == s.place
  }

  lemma SamePlaces(s: State, s': State)
    requires Shape(s) && Shape(s') && PlacesOk(s) && NoDups(s) && SameData(s, s') && s'.co.Keys == s.co.Keys
    ensures PlacesOk(s') && NoDups(s')
  {
    forall p, c ensures Has(s', p, c) <==> Has(s, p, c) { }
  }

  /** The contents of `s'` are those of `s` with `cs` taken from `from` and put at `to`. */
  ghost predicate Moves(s: State, s': State, cs: seq<Coro>, from: Place, to: Place)
    requires Shape(s) && Shape(s')
  {
    && (forall c :: c in cs ==> Has(s, from, c))
    && (forall p: Place, c :: !p.Gone? ==>
          (Has(s', p, c) <==> (Has(s, p, c) && !(p == from && c in cs)) || (p == to && c in cs)))
  }

  lemma MovesKeeps(s: State, s': State, cs: seq<Coro>, from: Place, to: Place)
    requires Shape(s) && Shape(s') && PlacesOk(s) && Moves(s, s', cs, from, to)
    requires s'.place == Put(s.place, cs, to) && s'.co.Keys == s.co.Keys
    ensures PlacesOk(s')
  {
    forall p, c ensures Has(s', p, c) <==> c in s'.place && s'.place[c] == p {
      assert Has(s, p, c) <==> c in s.place && s.place[c] == p;
      if c in cs { assert Has(s, from, c); }
    }
  }

  lemma OutThenIn(s: State, cs: seq<Coro>, from: Place, to: Place)
    requires Shape(s) && PlacesOk(s) && NoDups(s) && FrontOf(s, from, cs) && NoDup(cs)
    requires FreeFor(Out(s, from, cs), to, cs)
    ensures var s' := In(Out(s, from, cs), to, cs);
            Shape(s') && NoDups(s') && Moves(s, s', cs, from, to)
  {
    var r := Out(s, from, cs);
    OutHas(s, from, cs);
    forall c | c in cs ensures Has(s, from, c) && !Has(r, to, c) {
      assert Has(s, from, c) && Has(s, to, c) ==> from == to;
    }
    InNoDups(r, to, cs);
    forall p: Place, c | !p.Gone?
      ensures Has(In(r, to, cs), p, c) <==> (Has(s, p, c) && !(p == from && c in cs)) || (p == to && c in cs)
    {
      InHas(r, to, cs, p, c);
    }
  }

  /** The states after a transfer by thread `t`: either nothing but the place changed, or the one coroutine that
      moved. */
  predicate StatesFollow(s: State, s': State, t: Tid, cs: seq<Coro>, from: Place, to: Place)
    requires Shape(s) && Shape(s') && t < |s.pc| == |s'.pc|
  {
    && !s'.aborted
    && (|| (s'.co == s.co && StateAt(s', to) == StateAt(s, from))
        || (|cs| == 1 && s'.co == s.co[cs[0] := StateAt(s', to)]))
    && (s.cur[t].None? || s.cur[t].value in cs || StateAt(s', InCur(t)) == StateAt(s, InCur(t)))
    && (s.claim[t].None? || s.claim[t].value in cs || StateAt(s', InClaim(t)) == StateAt(s, InClaim(t)))
  }

  lemma TransferStates(s: State, s': State, t: Tid, cs: seq<Coro>, from: Place, to: Place)
    requires Shape(s) && PlacesOk(s) && StatesFit(s) && t < |s.pc| && OthersCarry(s, s', t)
    requires s'.place == Put(s.place, cs, to) && (forall c :: c in cs ==> Has(s, from, c))
    requires StatesFollow(s, s', t, cs, from, to)
    ensures StatesFit(s')
  {
    forall c | c in s'.place ensures c in s'.co && s'.co[c] == StateAt(s', s'.place[c]) {
      assert c in cs ==> Has(s, from, c);
      if c !in cs {
        assert Has(s, s.place[c], c);
      }
    }
  }

  /** Thread `t` moves `cs` from `from` to `to`. */
  lemma Transfer(s: State, s': State, t: Tid, cs: seq<Coro>, from: Place, to: Place)
    requires Conserved(s) && t < |s.pc| && OthersCarry(s, s', t) && Moves(s, s', cs, from, to) && NoDups(s')
    requires s'.place == Put(s.place, cs, to) && s'.co.Keys == s.co.Keys
    requires StatesFollow(s, s', t, cs, from, to)
    requires CarriesOk(s'.pc[t], s'.sub[t], s'.cur[t], s'.hand[t], s'.claim[t])
    requires t < s.n ==> RoomOk(s'.pc[t], s'.ring[t], s'.hand[t])
    ensures Conserved(s')
  {
    MovesKeeps(s, s', cs, from, to);
    CarryThreads(s, s', t);
    TransferStates(s, s', t, cs, from, to);
  }

  lemma SameMoves(s: State, m: State, s': State, cs: seq<Coro>, from: Place, to: Place)
    requires Shape(s) && Shape(m) && Shape(s') && SameData(m, s') && Moves(s, m, cs, from, to) && NoDups(m)
    ensures Moves(s, s', cs, from, to) && NoDups(s')
  {
    forall p: Place, c | !p.Gone? ensures Has(s', p, c) <==> Has(m, p, c) { }
  }

  /** As Transfer, for a step that moves `cs` from the front of one container to the back of another. */
  lemma Relay(s: State, s': State, t: Tid, cs: seq<Coro>, from: Place, to: Place)
    requires Conserved(s) && t < |s.pc| && FrontOf(s, from, cs) && NoDup(cs) && FreeFor(Out(s, from, cs), to, cs)
    requires OthersCarry(s, s', t) && s'.co.Keys == s.co.Keys && SameData(In(Out(s, from, cs), to, cs), s')
    requires s'.place == Put(s.place, cs, to)
    requires StatesFollow(s, s', t, cs, from, to)
    requires CarriesOk(s'.pc[t], s'.sub[t], s'.cur[t], s'.hand[t], s'.claim[t])
    requires t < s.n ==> RoomOk(s'.pc[t], s'.ring[t], s'.hand[t])
    ensures Conserved(s')
  {
    OutThenIn(s, cs, from, to);
    SameMoves(s, In(Out(s, from, cs), to, cs), s', cs, from, to);
    Transfer(s, s', t, cs, from, to);
  }
}
