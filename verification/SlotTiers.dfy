/** Coroutine slots and the three tiers that cache them: worker-local stacks and the shared pool of
    src/runtime/copool.c, and the arena of src/runtime/arena.c. Addresses are natural numbers, NULL is 0. */
module SlotTiers {
  import opened Prelude

  datatype State = Fresh | Reusable
  datatype Slot = Slot(ptr: nat, state: State)

  const REGION_MIN_SLOTS: nat := 64
  const REGION_MAX_SIZE: nat := 64 * 1024 * 1024
  const SLOT_MAX_SIZE: nat := 1024 * 1024

  function Min(a: int, b: int): int { if a < b then a else b }

  function Ptrs(slots: seq<Slot>): seq<nat> { seq(|slots|, i requires 0 <= i < |slots| => slots[i].ptr) }

  /** The addresses of some slots, with multiplicity. */
  function Addresses(slots: seq<Slot>): multiset<nat> { multiset(Ptrs(slots)) }

  lemma AddressesSplit(a: seq<Slot>, b: seq<Slot>)
    ensures Addresses(a + b) == Addresses(a) + Addresses(b)
  {
    assert Ptrs(a + b) == Ptrs(a) + Ptrs(b);
  }

  function Reversed(s: seq<Slot>): seq<Slot> { if s == [] then [] else [s[|s| - 1]] + Reversed(s[..|s| - 1]) }

  lemma {:induction false} ReversedAddresses(s: seq<Slot>)
    ensures |Reversed(s)| == |s| && Addresses(Reversed(s)) == Addresses(s)
  {
    if s != [] {
      var last, rest := s[|s| - 1], s[..|s| - 1];
      ReversedAddresses(rest);
      AddressesSplit([last], Reversed(rest));
      AddressesSplit(rest, [last]);
      assert rest + [last] == s;
    }
  }

  // ---- what one operation on a tier does --------------------------------------------------------------------------

  /** A take from the end: as many as wanted and there, the last first. */
  predicate Took(was: seq<Slot>, wanted: int, now: seq<Slot>, taken: seq<Slot>) {
    |taken| == (if wanted <= 0 then 0 else Min(wanted, |was|)) && was == now + Reversed(taken)
  }

  /** A put at the end: the longest prefix of valid slots there is room for. */
  predicate PutSome(was: seq<Slot>, given: seq<Slot>, room: int, now: seq<Slot>, n: nat) {
    && n <= |given| && n <= room && now == was + given[..n]
    && (n < |given| ==> given[n].ptr == 0 || n == room)
    && forall i :: 0 <= i < n ==> given[i].ptr != 0
  }

  /** Slots leave the arena, which may have grown first; fewer than wanted only if nothing is left. */
  predicate Allotted(free: multiset<nat>, carved: set<nat>, wanted: nat, free': multiset<nat>, carved': set<nat>,
                     taken: seq<nat>) {
    && carved <= carved' && free' + multiset(taken) == free + multiset(carved' - carved)
    && |taken| <= wanted && (|taken| < wanted ==> free' == multiset{}) && (carved' != carved ==> |free| < wanted)
  }

  // ---- the tiers --------------------------------------------------------------------------------------------------

  /** A worker's own stack of slots, of fixed capacity. */
  class LocalPool {
    const slots: array<Slot>
    var count: nat

    ghost predicate Valid()
      reads this
    {
      count <= slots.Length
    }

    ghost function Contents(): seq<Slot>
      requires Valid()
      reads this, slots
    {
      slots[..count]
    }

    constructor (capacity: nat)
      ensures Valid() && Contents() == [] && slots.Length == (if capacity == 0 then 64 else capacity) && fresh(slots)
    {
      slots := new Slot[if capacity == 0 then 64 else capacity](_ => Slot(0, Fresh));
      count := 0;
    }

    /** `copool_local_take`: the youngest first. */
    method Take(wanted: int) returns (taken: seq<Slot>)
      requires Valid()
      modifies this`count
      ensures Valid() && Took(old(Contents()), wanted, Contents(), taken)
    {
      taken := [];
      if wanted <= 0 { return; }
      var n := Min(count, wanted);
      for i := 0 to n
        invariant |taken| == i && count == old(count) - i && Valid()
        invariant old(Contents()) == Contents() + Reversed(taken)
      {
        count := count - 1;
        var slot := slots[count];
        assert (taken + [slot])[..i] == taken;
        taken := taken + [slot];
      }
    }

    /** `copool_local_put`: as many of the leading valid slots as fit. */
    method Put(given: seq<Slot>) returns (n: nat)
      requires Valid()
      modifies this`count, slots
      ensures Valid() && PutSome(old(Contents()), given, slots.Length - old(count), Contents(), n)
    {
      var most := Min(slots.Length - count, |given|);
      n := 0;
      while n < most && given[n].ptr != 0
        invariant n <= most && Valid() && count == old(count) + n
        invariant Contents() == old(Contents()) + given[..n]
        invariant forall i :: 0 <= i < n ==> given[i].ptr != 0
      {
        slots[count] := given[n];
        count := count + 1;
        n := n + 1;
      }
    }
  }

  /** The pool all workers share. */
  class SharedPool {
    var slots: seq<Slot>

    constructor ()
      ensures slots == []
    {
      slots := [];
    }

    /** `copool_shared_take`: from the tail. */
    method Take(wanted: int) returns (taken: seq<Slot>)
      modifies this
      ensures Took(old(slots), wanted, slots, taken)
    {
      taken := [];
      while |taken| < wanted
        invariant |taken| <= |old(slots)| && |taken| <= (if wanted > 0 then wanted else 0)
        invariant old(slots) == slots + Reversed(taken)
      {
        if slots == [] {
          ReversedAddresses(taken);
          assert |old(slots)| == |taken|;
          break;
        }
        var slot := slots[|slots| - 1];
        assert (taken + [slot])[..|taken|] == taken;
        slots := slots[..|slots| - 1];
        taken := taken + [slot];
        ReversedAddresses(taken);
      }
    }

    /** `copool_shared_put`: the leading valid slots, as long as list entries can be allocated for them. */
    method Put(given: seq<Slot>, entries: nat) returns (n: nat)
      modifies this
      ensures PutSome(old(slots), given, entries, slots, n)
    {
      n := 0;
      var pending: seq<Slot> := [];
      while n < |given| && given[n].ptr != 0 && n < entries
        invariant n <= |given| && n <= entries && pending == given[..n]
        invariant forall i :: 0 <= i < n ==> given[i].ptr != 0
      {
        pending := pending + [given[n]];
        n := n + 1;
      }
      slots := slots + pending;
    }
  }

  /** The addresses a region of `n` slots is carved into. */
  function Strip(base: nat, size: nat, n: nat): seq<nat>
    decreases n
  {
    if n == 0 then [] else [base] + Strip(base + size, size, n - 1)
  }

  /** The region from base to end overlaps none of the slots carved before. */
  predicate Apart(carved: set<nat>, slotSize: nat, base: nat, end: int) {
    base > 0 && forall a :: a in carved ==> a + slotSize <= base || end <= a
  }

  lemma {:induction false} StripAbove(base: nat, size: nat, n: nat)
    ensures |Strip(base, size, n)| == n && forall a :: a in Strip(base, size, n) ==> base <= a
    decreases n
  {
    if n > 0 { StripAbove(base + size, size, n - 1); }
  }

  lemma OneLess(n: nat, size: nat)
    requires n > 0
    ensures n * size == size + (n - 1) * size && (n - 1) * size >= 0
  {
  }

  /** A new region yields that many addresses, all different and none seen before. */
  lemma {:induction false} StripIsNew(base: nat, size: nat, n: nat, end: nat, carved: set<nat>) returns (s: set<nat>)
    requires size > 0 && Apart(carved, size, base, end) && end == base + n * size
    ensures s !! carved && 0 !in s && |s| == n && multiset(Strip(base, size, n)) == multiset(s)
    decreases n
  {
    s := {};
    if n > 0 {
      OneLess(n, size);
      s := StripIsNew(base + size, size, n - 1, end, carved);
      StripAbove(base + size, size, n - 1);
      AddFirst(base, Strip(base + size, size, n - 1), s);
      s := s + {base};
    }
  }

  lemma AddFirst(x: nat, xs: seq<nat>, s: set<nat>)
    requires x !in xs && multiset(xs) == multiset(s)
    ensures x !in s && multiset([x] + xs) == multiset(s + {x})
  {
    assert x !in multiset(xs);
  }

  lemma MaxSlots(slotSize: nat)
    requires 0 < slotSize <= SLOT_MAX_SIZE
    ensures REGION_MAX_SIZE / slotSize >= REGION_MIN_SLOTS
  {
    var q := REGION_MAX_SIZE / slotSize;
    assert REGION_MAX_SIZE == q * slotSize + REGION_MAX_SIZE % slotSize;
    assert q < REGION_MIN_SLOTS ==> (q + 1) * slotSize <= REGION_MIN_SLOTS * slotSize;
  }

  /** The arena: address space reserved in regions and carved into slots. `carved` is every slot ever carved. */
  class Arena {
    const slotSize: nat
    var slots: array<nat>
    var count: nat
    ghost var carved: set<nat>

    ghost predicate Valid()
      reads this, slots
    {
      && 0 < slotSize <= SLOT_MAX_SIZE && count <= slots.Length == |carved| && 0 !in carved
      && multiset(slots[..count]) <= multiset(carved)
    }

    ghost function Free(): multiset<nat>
      requires count <= slots.Length
      reads this, slots
    {
      multiset(slots[..count])
    }

    /** An arena before its first region. */
    constructor (size: nat)
      requires 0 < size <= SLOT_MAX_SIZE
      ensures Valid() && carved == {} && slotSize == size && Free() == multiset{} && fresh(slots)
    {
      slotSize := size;
      slots := new nat[0];
      count := 0;
      carved := {};
    }

    /** The search for a region the platform can reserve: halved until it fits or the least size fails. */
    method Reserve(reserve: nat -> Option<nat>) returns (base: Option<nat>, slotCount: nat)
      requires Valid()
      ensures slotCount >= REGION_MIN_SLOTS
      ensures base.Some? ==> reserve(slotCount * slotSize) == base
      ensures base.None? ==> slotCount == REGION_MIN_SLOTS && reserve(REGION_MIN_SLOTS * slotSize).None?
    {
      MaxSlots(slotSize);
      slotCount := REGION_MAX_SIZE / slotSize;
      while true
        invariant slotCount >= REGION_MIN_SLOTS
        decreases slotCount
      {
        base := reserve(slotCount * slotSize);
        if base.Some? || slotCount == REGION_MIN_SLOTS { return; }
        slotCount := slotCount / 2;
        if slotCount < REGION_MIN_SLOTS { slotCount := REGION_MIN_SLOTS; }
      }
    }

    /** `_arena_grow`. `usable` says whether decommitting the region and allocating its bookkeeping succeed. */
    method Grow(reserve: nat -> Option<nat>, usable: bool) returns (ok: bool)
      requires Valid()
      requires forall size :: reserve(size).Some? ==>
                 Apart(carved, slotSize, reserve(size).value, reserve(size).value + size)
      modifies this`slots, this`count, this`carved
      ensures Valid() && old(carved) <= carved && (slots == old(slots) || fresh(slots))
      ensures Free() == old(Free()) + multiset(carved - old(carved))
      ensures ok ==> |carved| >= |old(carved)| + REGION_MIN_SLOTS && count >= REGION_MIN_SLOTS && usable
      ensures !ok ==> carved == old(carved) && (!usable || reserve(REGION_MIN_SLOTS * slotSize).None?)
    {
      var base, slotCount := Reserve(reserve);
      if base.None? || !usable { return false; }
      ghost var strip := StripIsNew(base.value, slotSize, slotCount, base.value + slotCount * slotSize, carved);
      Carve(base.value, slotCount, strip);
      ok := true;
    }

    /** The new region's slots join the free list. */
    method Carve(base: nat, n: nat, ghost strip: set<nat>)
      requires Valid() && strip !! carved && 0 !in strip && |strip| == n
      requires multiset(Strip(base, slotSize, n)) == multiset(strip)
      modifies this`slots, this`count, this`carved
      ensures Valid() && carved == old(carved) + strip && Free() == old(Free()) + multiset(strip) && fresh(slots)
    {
      slots := Widen(base, n);
      count := count + n;
      carved := carved + strip;
      assert multiset(carved) == multiset(old(carved)) + multiset(strip);
    }

    /** A larger array with the free slots and those of the new region. */
    method Widen(base: nat, n: nat) returns (wider: array<nat>)
      requires count <= slots.Length
      ensures fresh(wider) && wider.Length == slots.Length + n
      ensures wider[..count + n] == slots[..count] + Strip(base, slotSize, n)
      ensures multiset(wider[..count + n]) == multiset(slots[..count]) + multiset(Strip(base, slotSize, n))
    {
      wider := new nat[slots.Length + n];
      for i := 0 to count
        invariant wider[..i] == slots[..i]
      {
        wider[i] := slots[i];
      }
      Fill(wider, base, n);
      assert wider[..count + n] == wider[..count] + wider[count..count + n];
    }

    method Fill(wider: array<nat>, base: nat, n: nat)
      requires count + n <= wider.Length
      modifies wider
      ensures wider[..count] == old(wider[..count]) && wider[count..count + n] == Strip(base, slotSize, n)
    {
      var slot: nat := base;
      ghost var done: seq<nat> := [];
      for i := 0 to n
        invariant wider[..count] == old(wider[..count]) && wider[count..count + i] == done
        invariant done + Strip(slot, slotSize, n - i) == Strip(base, slotSize, n)
      {
        wider[count + i] := slot;
        assert done + Strip(slot, slotSize, n - i) == done + [slot] + Strip(slot + slotSize, slotSize, n - i - 1);
        done := done + [slot];
        slot := slot + slotSize;
      }
    }

    /** `arena_alloc`: up to `wanted` slots, growing by at most one region. */
    method Alloc(wanted: int, reserve: nat -> Option<nat>, usable: bool) returns (taken: seq<nat>)
      requires Valid()
      requires forall size :: reserve(size).Some? ==>
                 Apart(carved, slotSize, reserve(size).value, reserve(size).value + size)
      modifies this`slots, this`count, this`carved
      ensures Valid() && (slots == old(slots) || fresh(slots))
      ensures if wanted <= 0 then taken == [] && Free() == old(Free()) && carved == old(carved)
              else Allotted(old(Free()), old(carved), wanted, Free(), carved, taken)
      ensures carved != old(carved) ==> |taken| >= Min(wanted, REGION_MIN_SLOTS)
      ensures |taken| < wanted ==>
                count == 0 && (carved == old(carved) ==> !usable || reserve(REGION_MIN_SLOTS * slotSize).None?)
    {
      taken := [];
      if wanted <= 0 { return; }
      if count < wanted {
        var _ := Grow(reserve, usable);
      }
      taken := TakeOut(Min(count, wanted));
    }

    /** The youngest free slots, one by one. */
    method TakeOut(n: nat) returns (taken: seq<nat>)
      requires n <= count <= slots.Length
      modifies this`count
      ensures count == old(count) - n && |taken| == n
      ensures multiset(slots[..count]) + multiset(taken) == old(multiset(slots[..count]))
    {
      taken := [];
      ghost var all := slots[..count];
      for i := 0 to n
        invariant |taken| == i && count == |all| - i && slots[..count] == all[..count]
        invariant multiset(slots[..count]) + multiset(taken) == multiset(all)
      {
        count := count - 1;
        assert slots[..count + 1] == slots[..count] + [slots[count]];
        taken := taken + [slots[count]];
      }
    }

    /** `arena_free`: slots that cannot be decommitted are lost, the others return. The overflow it guards against
        cannot happen to slots that came from the arena. */
    method GiveBack(given: seq<nat>, decommit: nat -> bool) returns (lost: seq<nat>)
      requires Valid() && Free() + multiset(given) <= multiset(carved)
      modifies this`count, slots
      ensures Valid() && Free() + multiset(lost) == old(Free()) + multiset(given) && carved == old(carved)
      ensures forall x :: multiset(lost)[x] == if decommit(x) then 0 else multiset(given)[x]
    {
      var back: seq<nat>;
      back, lost := Decommit(given, decommit);
      RoomForAll(slots[..count], back, given, carved);
      Append(back);
    }

    /** The slots that could be decommitted, and those that could not. */
    method Decommit(given: seq<nat>, decommit: nat -> bool) returns (back: seq<nat>, lost: seq<nat>)
      ensures multiset(back) + multiset(lost) == multiset(given)
      ensures forall x :: multiset(lost)[x] == if decommit(x) then 0 else multiset(given)[x]
    {
      back, lost := [], [];
      for i := 0 to |given|
        invariant multiset(back) + multiset(lost) == multiset(given[..i])
        invariant forall x :: multiset(lost)[x] == if decommit(x) then 0 else multiset(given[..i])[x]
      {
        assert given[..i + 1] == given[..i] + [given[i]];
        if decommit(given[i]) { back := back + [given[i]]; } else { lost := lost + [given[i]]; }
      }
      assert given[..|given|] == given;
    }

    /** The slots join the free list, which has room for them. */
    method Append(back: seq<nat>)
      requires count + |back| <= slots.Length
      modifies this`count, slots
      ensures count == old(count) + |back| && slots[..count] == old(slots[..count]) + back
    {
      ghost var was := slots[..count];
      for i := 0 to |back|
        invariant count == |was| + i && slots[..count] == was + back[..i]
      {
        slots[count] := back[i];
        count := count + 1;
      }
      assert back[..|back|] == back;
    }
  }

  /** Slots inside and outside the free list are never more than were carved. */
  lemma RoomForAll(held: seq<nat>, back: seq<nat>, given: seq<nat>, carved: set<nat>)
    requires multiset(held) + multiset(given) <= multiset(carved) && multiset(back) <= multiset(given)
    ensures |held| + |back| <= |carved| && multiset(held + back) <= multiset(carved)
  {
    var rest := multiset(carved) - multiset(held + back);
    assert multiset(held + back) == multiset(held) + multiset(back);
    assert multiset(carved) == multiset(held + back) + rest;
    assert |multiset(carved)| == |carved| && |multiset(held + back)| == |held + back|;
  }
}
