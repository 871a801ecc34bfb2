/** How coroutine storage moves between the tiers: the allocation callbacks of src/runtime/scheduler.c. What the
    platform decides, reserving, decommitting and allocating list entries, is a parameter. */
module SlotCallbacks {
  import opened Prelude
  import opened SlotTiers

  const POOL_BATCH: int := 32

  /** Part of what was in `b` went from one place to another. */
  lemma Settled(free: multiset<nat>, free': multiset<nat>, gone: multiset<nat>, b: multiset<nat>, rest: multiset<nat>,
                lost: multiset<nat>, total: multiset<nat>, all: multiset<nat>)
    requires free' + gone == free + b && free + lost + (b + rest) == total && free + (b + rest) <= all
    ensures free' + (lost + gone) + rest == total && free' + rest <= all
  {
    forall x ensures (free' + (lost + gone) + rest)[x] == total[x] && (free' + rest)[x] <= all[x] {
      assert (free' + gone)[x] == (free + b)[x] && (free + lost + (b + rest))[x] == total[x]
          && (free + (b + rest))[x] <= all[x];
    }
  }

  /** What is in hand and in the tiers is still no more than was carved. */
  lemma InHand(common: multiset<nat>, common': multiset<nat>, mine: multiset<nat>, hand: multiset<nat>, was: set<nat>,
               all: set<nat>)
    requires common' + hand == common + multiset(all - was) && common + mine <= multiset(was) && was <= all
    ensures common' + hand <= multiset(all) && common' + mine + hand == common + mine + multiset(all - was)
  {
    forall v ensures (common' + hand)[v] <= multiset(all)[v]
        && (common' + mine + hand)[v] == (common + mine + multiset(all - was))[v] {
      assert (common' + hand)[v] == (common + multiset(all - was))[v] && (common + mine)[v] <= multiset(was)[v];
      assert multiset(was)[v] + multiset(all - was)[v] == multiset(all)[v];
    }
  }

  /** One address left a pool. */
  lemma Left(common: multiset<nat>, mine: multiset<nat>, out: multiset<nat>, was: multiset<nat>, carved: set<nat>)
    requires mine + out == was
    ensures common + mine + out == common + was + multiset(carved - carved)
  {
    assert carved - carved == {};
  }

  /** Addresses entered one of two places. */
  lemma Entered(a: multiset<nat>, b: multiset<nat>, x: multiset<nat>)
    ensures (a + x) + b == a + b + x && a + (b + x) == a + b + x
  {
  }

  lemma OneMore(held: multiset<nat>, ptr: nat, carved: set<nat>)
    requires held + multiset{ptr} <= multiset(carved)
    ensures ptr in carved && held <= multiset(carved)
  {
    assert ptr in held + multiset{ptr} && held <= held + multiset{ptr};
    assert ptr in multiset(carved);
  }

  lemma Less(a: multiset<nat>, b: multiset<nat>, all: multiset<nat>)
    requires a + b <= all
    ensures a <= all && b <= all
  {
    assert a <= a + b && b <= a + b;
  }

  /** The addresses in a worker's pool, if there is a worker. */
  ghost function Local(pool: LocalPool?): multiset<nat>
    requires pool != null ==> pool.Valid()
    reads pool, if pool == null then {} else {pool.slots}
  {
    if pool == null then multiset{} else Addresses(pool.Contents())
  }

  /** The address handed out, if one was. */
  function Out(slot: Option<Slot>): multiset<nat> { if slot.Some? then multiset{slot.value.ptr} else multiset{} }

  /** Sums of places, of which one changed. */
  lemma Sum(a: multiset<nat>, b: multiset<nat>, c: multiset<nat>, a': multiset<nat>, x: multiset<nat>, y: multiset<nat>)
    requires a' + x == a + y
    ensures a' + b + c + x == a + b + c + y && b + c + a' + x == b + c + a + y && a' + b + x == a + b + y
  {
    forall v ensures a'[v] + x[v] == a[v] + y[v] {
      assert (a' + x)[v] == (a + y)[v];
    }
  }

  lemma TakenAddresses(was: seq<Slot>, now: seq<Slot>, taken: seq<Slot>)
    requires was == now + Reversed(taken)
    ensures Addresses(was) == Addresses(now) + Addresses(taken)
  {
    AddressesSplit(now, Reversed(taken));
    ReversedAddresses(taken);
  }

  /** Nothing is lost but what could not be decommitted, and what is lost stays so. */
  ghost predicate OnlyLost(was: multiset<nat>, now: multiset<nat>, decommit: nat -> bool) {
    was <= now && forall a :: now[a] > was[a] ==> !decommit(a)
  }

  class Storage {
    const arena: Arena
    const shared: SharedPool
    /** The addresses of slots that could not be decommitted. */
    ghost var lost: multiset<nat>

    constructor (arena: Arena, shared: SharedPool)
      ensures this.arena == arena && this.shared == shared && lost == multiset{}
    {
      this.arena, this.shared, lost := arena, shared, multiset{};
    }

    /** `_sched_coro_put_to_arena`, in batches. */
    method PutToArena(slots: seq<Slot>, decommit: nat -> bool)
      requires arena.Valid() && arena.Free() + Addresses(slots) <= multiset(arena.carved)
      modifies this`lost, arena`count, arena.slots
      ensures arena.Valid() && arena.Free() + lost == old(arena.Free() + lost) + Addresses(slots)
      ensures arena.carved == old(arena.carved) && OnlyLost(old(lost), lost, decommit)
    {
      var rest := slots;
      ghost var total := arena.Free() + lost + Addresses(slots);
      while rest != []
        invariant arena.Valid() && arena.Free() + Addresses(rest) <= multiset(arena.carved)
        invariant arena.Free() + lost + Addresses(rest) == total && arena.carved == old(arena.carved)
        invariant OnlyLost(old(lost), lost, decommit)
        decreases |rest|
      {
        var n := Min(POOL_BATCH, |rest|);
        assert rest == rest[..n] + rest[n..];
        AddressesSplit(rest[..n], rest[n..]);
        ghost var free := arena.Free();
        Less(free + Addresses(rest[..n]), Addresses(rest[n..]), multiset(arena.carved));
        var gone := arena.GiveBack(Ptrs(rest[..n]), decommit);
        Settled(free, arena.Free(), multiset(gone), Addresses(rest[..n]), Addresses(rest[n..]), lost, total,
                multiset(arena.carved));
        lost := lost + multiset(gone);
        rest := rest[n..];
      }
    }

    /** Everything outside the workers' own pools that no coroutine uses. */
    ghost function Common(): multiset<nat>
      requires arena.Valid()
      reads this, arena, arena.slots, shared
    {
      arena.Free() + lost + Addresses(shared.slots)
    }

    /** `_sched_coro_put_to_shared`: what the shared pool cannot take goes to the arena. */
    method PutToShared(slots: seq<Slot>, entries: nat, decommit: nat -> bool)
      requires arena.Valid() && arena.Free() + Addresses(slots) <= multiset(arena.carved)
      modifies this`lost, shared, arena`count, arena.slots
      ensures arena.Valid() && Common() == old(Common()) + Addresses(slots)
      ensures arena.carved == old(arena.carved) && OnlyLost(old(lost), lost, decommit)
    {
      if slots == [] { return; }
      var n := shared.Put(slots, entries);
      assert slots == slots[..n] + slots[n..];
      AddressesSplit(slots[..n], slots[n..]);
      AddressesSplit(old(shared.slots), slots[..n]);
      if n < |slots| {
        Less(arena.Free() + Addresses(slots[n..]), Addresses(slots[..n]), multiset(arena.carved));
        PutToArena(slots[n..], decommit);
      } else {
        assert slots[..n] == slots;
      }
    }

    /** The shared pool and the arena are empty, and the arena cannot grow. */
    ghost predicate Exhausted(reserve: nat -> Option<nat>, usable: bool)
      reads arena, shared
    {
      shared.slots == [] && arena.count == 0 && (!usable || reserve(REGION_MIN_SLOTS * arena.slotSize).None?)
    }

    /** `_sched_coro_take_from_arena` */
    method TakeFromArena(reserve: nat -> Option<nat>, usable: bool) returns (slots: seq<Slot>)
      requires arena.Valid()
      requires forall size :: reserve(size).Some? ==>
                 Apart(arena.carved, arena.slotSize, reserve(size).value, reserve(size).value + size)
      modifies arena`slots, arena`count, arena`carved
      ensures arena.Valid() && old(arena.carved) <= arena.carved
      ensures arena.slots == old(arena.slots) || fresh(arena.slots)
      ensures arena.Free() + Addresses(slots) == old(arena.Free()) + multiset(arena.carved - old(arena.carved))
      ensures forall i :: 0 <= i < |slots| ==> slots[i].state.Fresh?
      ensures slots == [] ==> arena.count == 0 && (!usable || reserve(REGION_MIN_SLOTS * arena.slotSize).None?)
    {
      var taken := arena.Alloc(POOL_BATCH, reserve, usable);
      slots := seq(|taken|, i requires 0 <= i < |taken| => Slot(taken[i], Fresh));
      assert Ptrs(slots) == taken;
    }

    /** A batch from the shared pool, or else from the arena. */
    method Refill(wanted: int, reserve: nat -> Option<nat>, usable: bool) returns (slots: seq<Slot>)
      requires arena.Valid() && wanted > 0
      requires forall size :: reserve(size).Some? ==>
                 Apart(arena.carved, arena.slotSize, reserve(size).value, reserve(size).value + size)
      modifies shared, arena`slots, arena`count, arena`carved
      ensures arena.Valid() && old(arena.carved) <= arena.carved
      ensures arena.slots == old(arena.slots) || fresh(arena.slots)
      ensures Common() + Addresses(slots) == old(Common()) + multiset(arena.carved - old(arena.carved))
      ensures slots == [] ==> Exhausted(reserve, usable)
    {
      ghost var free, pool := arena.Free(), Addresses(shared.slots);
      slots := shared.Take(wanted);
      TakenAddresses(old(shared.slots), shared.slots, slots);
      if slots == [] {
        assert shared.slots == old(shared.slots);
        slots := TakeFromArena(reserve, usable);
        Sum(free, lost, pool, arena.Free(), Addresses(slots), multiset(arena.carved - old(arena.carved)));
      } else {
        assert arena.carved - old(arena.carved) == {};
        Sum(pool, free, lost, Addresses(shared.slots), Addresses(slots), multiset{});
      }
    }

    /** `_sched_coro_alloc_cb`: every address that was in a tier, or is new, is in a tier or in the coroutine's
        hands. */
    method Allocate(local: LocalPool?, reserve: nat -> Option<nat>, usable: bool, entries: nat, decommit: nat -> bool)
      returns (slot: Option<Slot>)
      requires arena.Valid() && (local != null ==> local.Valid())
      requires Common() + Local(local) <= multiset(arena.carved)
      requires forall size :: reserve(size).Some? ==>
                 Apart(arena.carved, arena.slotSize, reserve(size).value, reserve(size).value + size)
      modifies this`lost, shared, arena`slots, arena`count, arena`carved, arena.slots, local,
          if local == null then {} else {local.slots}
      ensures arena.Valid() && old(arena.carved) <= arena.carved && (local != null ==> local.Valid())
      ensures Common() + Local(local) + Out(slot)
              == old(Common() + Local(local)) + multiset(arena.carved - old(arena.carved))
      ensures slot.None? ==> Exhausted(reserve, usable) && (local != null ==> local.count == 0)
      ensures OnlyLost(old(lost), lost, decommit)
    {
      if local == null {
        slot := AllocateShared(local, reserve, usable, entries, decommit);
      } else {
        slot := AllocateLocal(local, reserve, usable, entries, decommit);
      }
    }

    method AllocateLocal(local: LocalPool, reserve: nat -> Option<nat>, usable: bool, entries: nat,
                         decommit: nat -> bool) returns (slot: Option<Slot>)
      requires arena.Valid() && local.Valid()
      requires Common() + Local(local) <= multiset(arena.carved)
      requires forall size :: reserve(size).Some? ==>
                 Apart(arena.carved, arena.slotSize, reserve(size).value, reserve(size).value + size)
      modifies this`lost, shared, arena`slots, arena`count, arena`carved, arena.slots, local, local.slots
      ensures arena.Valid() && old(arena.carved) <= arena.carved && local.Valid()
      ensures Common() + Local(local) + Out(slot)
              == old(Common() + Local(local)) + multiset(arena.carved - old(arena.carved))
      ensures slot.None? ==> Exhausted(reserve, usable) && local.count == 0
      ensures OnlyLost(old(lost), lost, decommit)
    {
      slot := TakeLocal(local);
      if slot.Some? {
        Left(Common(), Local(local), multiset{slot.value.ptr}, old(Local(local)), arena.carved);
      } else {
        slot := AllocateShared(local, reserve, usable, entries, decommit);
      }
    }

    /** The fast path: the youngest slot of the worker's own pool. */
    method TakeLocal(local: LocalPool) returns (slot: Option<Slot>)
      requires arena.Valid() && local.Valid()
      modifies local
      ensures arena.Valid() && local.Valid() && arena.carved == old(arena.carved) && Common() == old(Common())
      ensures slot.None? ==> Local(local) == old(Local(local)) == multiset{} && local.count == 0
      ensures slot.Some? ==> Local(local) + multiset{slot.value.ptr} == old(Local(local))
    {
      var one := local.Take(1);
      TakenAddresses(old(local.Contents()), local.Contents(), one);
      if |one| == 1 {
        assert Ptrs(one) == [one[0].ptr];
        slot := Some(one[0]);
      } else {
        assert one == [] && Reversed(one) == [] && local.Contents() == old(local.Contents());
        slot := None;
      }
    }

    method AllocateShared(local: LocalPool?, reserve: nat -> Option<nat>, usable: bool, entries: nat,
                          decommit: nat -> bool) returns (slot: Option<Slot>)
      requires arena.Valid() && (local != null ==> local.Valid())
      requires Common() + Local(local) <= multiset(arena.carved)
      requires forall size :: reserve(size).Some? ==>
                 Apart(arena.carved, arena.slotSize, reserve(size).value, reserve(size).value + size)
      modifies this`lost, shared, arena`slots, arena`count, arena`carved, arena.slots, local,
          if local == null then {} else {local.slots}
      ensures arena.Valid() && old(arena.carved) <= arena.carved && (local != null ==> local.Valid())
      ensures Common() + Local(local) + Out(slot)
              == old(Common() + Local(local)) + multiset(arena.carved - old(arena.carved))
      ensures slot.None? ==> Exhausted(reserve, usable) && (local != null ==> local.count == old(local.count))
      ensures OnlyLost(old(lost), lost, decommit)
    {
      ghost var total := Common() + Local(local);
      var slots := TakeBatch(local, reserve, usable);
      ghost var grown := arena.carved;
      total := total + multiset(grown - old(arena.carved));
      assert Common() + Local(local) + Addresses(slots) == total;
      if slots == [] {
        assert Ptrs(slots) == [] && Addresses(slots) == multiset{};
        slot := None;
      } else {
        slot := HandOut(local, slots, entries, decommit);
        assert arena.carved == grown;
        assert Common() + Local(local) + multiset{slot.value.ptr} == total;
      }
    }

    method TakeBatch(local: LocalPool?, reserve: nat -> Option<nat>, usable: bool) returns (slots: seq<Slot>)
      requires arena.Valid() && (local != null ==> local.Valid())
      requires Common() + Local(local) <= multiset(arena.carved)
      requires forall size :: reserve(size).Some? ==>
                 Apart(arena.carved, arena.slotSize, reserve(size).value, reserve(size).value + size)
      modifies shared, arena`slots, arena`count, arena`carved
      ensures arena.Valid() && old(arena.carved) <= arena.carved
      ensures arena.slots == old(arena.slots) || fresh(arena.slots)
      ensures Common() + Addresses(slots) <= multiset(arena.carved)
      ensures Common() + Local(local) + Addresses(slots)
              == old(Common() + Local(local)) + multiset(arena.carved - old(arena.carved))
      ensures slots == [] ==> Exhausted(reserve, usable)
    {
      ghost var mine, common := Local(local), Common();
      slots := Refill(if local != null then POOL_BATCH else 1, reserve, usable);
      assert Local(local) == mine;
      InHand(common, Common(), mine, Addresses(slots), old(arena.carved), arena.carved);
    }

    /** The first slot is handed out and the others are stowed. */
    method HandOut(local: LocalPool?, slots: seq<Slot>, entries: nat, decommit: nat -> bool)
      returns (slot: Option<Slot>)
      requires slots != [] && arena.Valid() && (local != null ==> local.Valid())
      requires Common() + Addresses(slots) <= multiset(arena.carved)
      modifies this`lost, shared, arena`count, arena.slots, local, if local == null then {} else {local.slots}
      ensures arena.Valid() && (local != null ==> local.Valid())
      ensures slot == Some(slots[0])
      ensures Common() + Local(local) + multiset{slots[0].ptr} == old(Common() + Local(local)) + Addresses(slots)
      ensures arena.carved == old(arena.carved) && OnlyLost(old(lost), lost, decommit)
    {
      slot := Some(slots[0]);
      var rest := slots[1..];
      assert slots == [slots[0]] + rest && Ptrs([slots[0]]) == [slots[0].ptr];
      AddressesSplit([slots[0]], rest);
      Less(arena.Free() + Addresses(rest), lost + Addresses(shared.slots) + multiset{slots[0].ptr},
           multiset(arena.carved));
      Stow(local, rest, entries, decommit);
    }

    /** What was taken in excess goes to the worker's pool, then to the shared pool, then to the arena. */
    method Stow(local: LocalPool?, rest: seq<Slot>, entries: nat, decommit: nat -> bool)
      requires arena.Valid() && (local != null ==> local.Valid())
      requires arena.Free() + Addresses(rest) <= multiset(arena.carved)
      modifies this`lost, shared, arena`count, arena.slots, local, if local == null then {} else {local.slots}
      ensures arena.Valid() && (local != null ==> local.Valid())
      ensures Common() + Local(local) == old(Common() + Local(local)) + Addresses(rest)
      ensures arena.carved == old(arena.carved) && OnlyLost(old(lost), lost, decommit)
    {
      if local == null {
        PutToShared(rest, entries, decommit);
      } else {
        var n := local.Put(rest);
        assert rest == rest[..n] + rest[n..];
        AddressesSplit(rest[..n], rest[n..]);
        AddressesSplit(old(local.Contents()), rest[..n]);
        Less(arena.Free() + Addresses(rest[n..]), Addresses(rest[..n]), multiset(arena.carved));
        PutToShared(rest[n..], entries, decommit);
      }
    }

    /** `_sched_coro_dealloc_cb`: the coroutine's address is in a tier, or lost, and nothing else has moved out. Making
        room in a full local pool always succeeds, so the second put cannot fail. */
    method Deallocate(local: LocalPool?, ptr: nat, state: State, entries: nat, decommit: nat -> bool)
      requires arena.Valid() && (local != null ==> local.Valid() && local.slots.Length > 0)
      requires Common() + Local(local) + multiset{ptr} <= multiset(arena.carved)
      modifies this`lost, shared, arena`count, arena.slots, local, if local == null then {} else {local.slots}
      ensures arena.Valid() && (local != null ==> local.Valid())
      ensures Common() + Local(local) == old(Common() + Local(local)) + multiset{ptr}
      ensures arena.carved == old(arena.carved) && OnlyLost(old(lost), lost, decommit)
      ensures state.Reusable? && local != null ==>
                local.count > 0 && local.slots[local.count - 1] == Slot(ptr, Reusable)
    {
      var slot := Slot(ptr, state);
      Less(arena.Free() + multiset{ptr}, lost + Addresses(shared.slots) + Local(local), multiset(arena.carved));
      if state.Reusable? && local != null {
        DeallocateLocal(local, slot, entries, decommit);
      } else {
        ghost var common, mine := Common(), Local(local);
        DeallocateCommon(slot, entries, decommit);
        Entered(common, mine, multiset{ptr});
      }
    }

    /** A slot never used goes to the arena, and one released outside the workers to the shared pool. */
    method DeallocateCommon(slot: Slot, entries: nat, decommit: nat -> bool)
      requires arena.Valid() && arena.Free() + multiset{slot.ptr} <= multiset(arena.carved)
      modifies this`lost, shared, arena`count, arena.slots
      ensures arena.Valid() && Common() == old(Common()) + multiset{slot.ptr}
      ensures arena.carved == old(arena.carved) && OnlyLost(old(lost), lost, decommit)
      ensures slot.state.Fresh? ==> shared.slots == old(shared.slots)
    {
      assert Ptrs([slot]) == [slot.ptr];
      if slot.state.Fresh? {
        ghost var free, pool := arena.Free() + lost, Addresses(shared.slots);
        PutToArena([slot], decommit);
        Entered(free, pool, multiset{slot.ptr});
      } else {
        PutToShared([slot], entries, decommit);
      }
    }

    method DeallocateLocal(local: LocalPool, slot: Slot, entries: nat, decommit: nat -> bool)
      requires arena.Valid() && local.Valid() && local.slots.Length > 0
      requires Common() + Local(local) + multiset{slot.ptr} <= multiset(arena.carved)
      modifies this`lost, shared, arena`count, arena.slots, local, local.slots
      ensures arena.Valid() && local.Valid()
      ensures Common() + Local(local) == old(Common() + Local(local)) + multiset{slot.ptr}
      ensures arena.carved == old(arena.carved) && OnlyLost(old(lost), lost, decommit)
      ensures local.count > 0 && local.slots[local.count - 1] == slot
    {
      OneMore(Common() + Local(local), slot.ptr, arena.carved);
      Less(arena.Free() + Local(local), lost + Addresses(shared.slots), multiset(arena.carved));
      var put := PutOne(local, slot);
      if !put {
        SpillAndPut(local, slot, entries, decommit);
      }
    }

    /** Part of a full pool spills over, and the slot goes in. */
    method SpillAndPut(local: LocalPool, slot: Slot, entries: nat, decommit: nat -> bool)
      requires arena.Valid() && local.Valid() && local.slots.Length > 0 && local.count == local.slots.Length
      requires slot.ptr != 0
      requires arena.Free() + Local(local) <= multiset(arena.carved)
      modifies this`lost, shared, arena`count, arena.slots, local, local.slots
      ensures arena.Valid() && local.Valid()
      ensures Common() + Local(local) == old(Common() + Local(local)) + multiset{slot.ptr}
      ensures arena.carved == old(arena.carved) && OnlyLost(old(lost), lost, decommit)
      ensures local.count > 0 && local.slots[local.count - 1] == slot
    {
      MakeRoom(local, entries, decommit);
      ghost var total := Common() + Local(local);
      var put := PutOne(local, slot);
      assert put;
      assert Common() + Local(local) == total + multiset{slot.ptr};
    }

    /** A worker's pool takes a slot unless it is full. */
    method PutOne(local: LocalPool, slot: Slot) returns (ok: bool)
      requires arena.Valid() && local.Valid() && slot.ptr != 0
      modifies local, local.slots
      ensures arena.Valid() && arena.carved == old(arena.carved) && arena.Free() == old(arena.Free())
      ensures Common() == old(Common())
      ensures local.Valid() && ok == (old(local.count) < local.slots.Length)
      ensures ok ==>
                && Common() + Local(local) == old(Common() + Local(local)) + multiset{slot.ptr} && local.count > 0
                && local.slots[local.count - 1] == slot
      ensures !ok ==> Local(local) == old(Local(local)) && local.count == old(local.count)
    {
      ghost var was := local.Contents();
      var n := local.Put([slot]);
      ok := n == 1;
      assert [slot][..n] == if ok then [slot] else [];
      AddressesSplit(was, [slot][..n]);
      assert Ptrs([slot]) == [slot.ptr] && Ptrs([]) == [];
    }

    /** A batch moves from a full local pool to the shared pool. */
    method MakeRoom(local: LocalPool, entries: nat, decommit: nat -> bool)
      requires arena.Valid() && local.Valid() && local.slots.Length > 0 && local.count == local.slots.Length
      requires arena.Free() + Local(local) <= multiset(arena.carved)
      modifies this`lost, shared, arena`count, arena.slots, local
      ensures arena.Valid() && local.Valid() && local.count < local.slots.Length
      ensures Common() + Local(local) == old(Common() + Local(local))
      ensures arena.carved == old(arena.carved) && OnlyLost(old(lost), lost, decommit)
    {
      ghost var all := local.Contents();
      var slots := local.Take(POOL_BATCH);
      TakenAddresses(all, local.Contents(), slots);
      ReversedAddresses(slots);
      Less(arena.Free() + Addresses(slots), Local(local), multiset(arena.carved));
      PutToShared(slots, entries, decommit);
    }
  }
}
