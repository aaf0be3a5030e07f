/**
 The capability slots as the kernel keeps them: records in memory, linked by addresses and changed
 in place.  Every method is proved to do to that memory what the operations on states describe.
 */
module CapSystem {
  import opened SlotLinks
  import opened Capability
  import opened Carving
  import opened Derivation
  import opened Lineage
  import opened CapOps
  import opened CapMoves
  import opened CapCreate
  import opened CapRuns

  /** What the steps of `push_free_slots` need and amount to. */
  lemma PushSteps(k: State, s: Slot)
    requires k.lists.Ok() && s in k.lists.on && s in k.owner && HeadOk(k, k.owner[s]) && !OnFreeOf(k, k.owner[s], s)
    ensures k.lists.Placed(s)
    ensures
      var h, m := k.free[k.owner[s]], k.lists.Erase(s);
      && (h != NULL ==> h in m.on && s in m.on && m.Placed(s) && m.Alone(s) && h != s && m.Placed(h))
      && Push(k, s) == k.(lists := if h != NULL then m.PlaceBefore(h, s) else m, cap := k.cap[s := NullCap],
                          free := k.free[k.owner[s] := s], count := k.count[k.owner[s] := k.count[k.owner[s]] + 1])
  {
    var h := k.free[k.owner[s]];
    assert k.lists.Placed(s);
    EraseOk(k.lists, s);
    if h != NULL { ErasePlace(k.lists, h, s); }
  }

  /** What the steps of `pop_free_slots` need and amount to. */
  lemma PopSteps(k: State, t: Task)
    requires k.lists.Ok() && HeadOk(k, t) && k.free[t] != NULL
    ensures
      var s := k.free[t];
      && t in k.count && k.count[t] > 0 && s in k.lists.on && k.lists.Placed(s) && k.lists.Prev(s) == NULL
      && Pop(k, t) == k.(lists := k.lists.Erase(s), free := k.free[t := k.lists.Next(s)],
        count := k.count[t := k.count[t] - 1])
  {
  }

  class Slots {
    var cap: map<Slot, Cap>
    var prev: Words
    var next: Words
    var owner: map<Slot, Task>
    var free: map<Task, Slot>
    var count: map<Task, nat>
    var spaces: map<Task, nat>
    var killed: set<Task>

    ghost var lists: Lists
    ghost var reserved: set<Slot>
    ghost var made: seq<Cap>
    ghost var destroyed: seq<Cap>

    /** The state that memory represents. */
    ghost function Now(): (k: State)
      reads this
    {
      State(lists, cap, owner, reserved, free, count, spaces, killed, made, destroyed)
    }

    /** The `prev` and `next` words link the lists. */
    ghost predicate Valid()
      reads this
    {
      Linked(prev, next, lists)
    }

    /** No task, no slot. */
    constructor ()
      ensures Valid() && Now() == EMPTY
    {
      cap, prev, next, owner, free, count, spaces, killed := map[], map[], map[], map[], map[], map[], map[], {};
      lists, reserved, made, destroyed := Lists(map[], map[], map[], 0), {}, [], [];
    }

    /** What `init_task` records of a task that has no slots yet. */
    method InitTask(t: Task)
      requires Valid()
      modifies this
      ensures Valid() && Now() == AddTask(old(Now()), t)
    {
      free, count, spaces := free[t := NULL], count[t := 0], spaces[t := 0];
    }

    // -------------------------------------------------------------- splices

    /** `cap_slot_t::erase_this`. */
    method EraseThis(s: Slot) returns (result: Slot)
      requires Valid() && s in lists.on
      modifies this`prev, this`next, this`lists
      ensures Valid() && old(lists).Placed(s) && lists == old(lists).Erase(s)
      ensures result == if old(lists).Next(s) != NULL then old(lists).Next(s) else old(lists).Prev(s)
      ensures old(lists).Alone(s) ==> prev == old(prev) && next == old(next)
    {
      EraseLinked(prev, next, lists, s);
      Neighbours(prev, next, lists, s);
      result := NULL;
      if prev[s] != NULL {
        next := next[prev[s] := next[s]];
        result := prev[s];
      }
      if next[s] != NULL {
        prev := prev[next[s] := prev[s]];
        result := next[s];
      }
      prev := prev[s := NULL];
      next := next[s := NULL];
      lists := lists.Erase(s);
    }

    /** `cap_slot_t::insert_after`: the list headed by `s` goes just behind `a`. */
    method InsertAfter(a: Slot, s: Slot)
      requires Valid() && a in lists.on && s in lists.on && lists.on[a] != lists.on[s] && lists.at[s] == 0
      modifies this`prev, this`next, this`lists
      ensures Valid() && old(lists).Placed(a) && old(lists).Placed(s) && lists == old(lists).SpliceAfter(a, s)
    {
      assert lists.Placed(a) && lists.Placed(s);
      var tail := s;
      Neighbours(prev, next, lists, tail);
      while next[tail] != NULL
        invariant lists == old(lists) && prev == old(prev) && next == old(next)
        invariant tail in lists.on && lists.on[tail] == lists.on[s] && Near(prev, next, lists, tail)
        decreases |lists.Of(s)| - lists.at[tail]
      {
        tail := next[tail];
        Neighbours(prev, next, lists, tail);
      }
      SpliceAfterLinked(prev, next, lists, a, s, tail);
      Neighbours(prev, next, lists, a);
      if next[a] != NULL {
        prev := prev[next[a] := tail];
        next := next[tail := next[a]];
      }
      next := next[a := s];
      prev := prev[s := a];
      lists := lists.SpliceAfter(a, s);
    }

    /** `cap_slot_t::insert_before`: the lone slot `s` goes just before `b`. */
    method InsertBefore(b: Slot, s: Slot)
      requires Valid() && b in lists.on && s in lists.on && lists.Alone(s) && b != s
      modifies this`prev, this`next, this`lists
      ensures Valid() && old(lists).Placed(b) && old(lists).Placed(s) && lists == old(lists).PlaceBefore(b, s)
    {
      assert lists.Placed(b) && lists.Placed(s);
      PlaceBeforeLinked(prev, next, lists, b, s);
      Neighbours(prev, next, lists, b);
      if prev[b] != NULL {
        next := next[prev[b] := s];
        prev := prev[s := prev[b]];
      }
      next := next[s := b];
      prev := prev[b := s];
      lists := lists.PlaceBefore(b, s);
    }

    /** `cap_slot_t::replace`: the lone slot `d` takes the place of `s`. */
    method Replace(d: Slot, s: Slot)
      requires Valid() && d in lists.on && s in lists.on && lists.Alone(d) && d != s
      modifies this`prev, this`next, this`lists
      ensures Valid() && old(lists).Placed(d) && old(lists).Placed(s) && lists == old(lists).Substitute(d, s)
    {
      assert lists.Placed(d) && lists.Placed(s);
      SubstituteLinked(prev, next, lists, d, s);
      Neighbours(prev, next, lists, s);
      if prev[s] != NULL {
        next := next[prev[s] := d];
        prev := prev[d := prev[s]];
        prev := prev[s := NULL];
      }
      if next[s] != NULL {
        prev := prev[next[s] := d];
        next := next[d := next[s]];
        next := next[s := NULL];
      }
      lists := lists.Substitute(d, s);
    }

    // -------------------------------------------------------------- the free list

    /** `push_free_slots`. */
    method PushFreeSlots(t: Task, s: Slot)
      requires Valid() && s in lists.on && s in owner && owner[s] == t && HeadOk(Now(), t) && !OnFreeOf(Now(), t, s)
      modifies this`prev, this`next, this`lists, this`cap, this`free, this`count
      ensures Valid() && Now() == Push(old(Now()), s)
    {
      hide Push, Lists.Erase, Lists.PlaceBefore;
      PushSteps(Now(), s);
      var erased := EraseThis(s);
      AddToFree(t, s);
    }

    /** The rest of `push_free_slots`, once the slot stands alone. */
    method AddToFree(t: Task, s: Slot)
      requires Valid() && t in free && t in count
      requires free[t] != NULL ==>
        && s in lists.on && free[t] in lists.on && free[t] != s
        && lists.Placed(s) && lists.Alone(s) && lists.Placed(free[t])
      modifies this`prev, this`next, this`lists, this`cap, this`free, this`count
      ensures Valid()
      ensures
        var k := old(Now());
        Now() == k.(lists := if k.free[t] != NULL then k.lists.PlaceBefore(k.free[t], s) else k.lists,
                    cap := k.cap[s := NullCap], free := k.free[t := s], count := k.count[t := k.count[t] + 1])
    {
      hide Lists.PlaceBefore;
      cap := cap[s := NullCap];
      if free[t] != NULL {
        InsertBefore(free[t], s);
      }
      free := free[t := s];
      count := count[t := count[t] + 1];
    }

    /** `pop_free_slots`; null when the list is empty. */
    method PopFreeSlots(t: Task) returns (s: Slot)
      requires Valid() && HeadOk(Now(), t)
      modifies this`prev, this`next, this`lists, this`free, this`count
      ensures Valid() && s == old(free)[t]
      ensures Now() == if s == NULL then old(Now()) else Pop(old(Now()), t)
    {
      hide Pop, Lists.Erase;
      ghost var k := Now();
      s := free[t];
      if s != NULL {
        PopSteps(k, t);
        var rest := EraseThis(s);
        free := free[t := rest];
        count := count[t := count[t] - 1];
      }
    }

    /** `insert_cap`; null when the task is killed or has no free slot. */
    method InsertCap(t: Task, c: Cap) returns (d: Slot)
      requires Valid() && Partitioned(Now(), NULL) && t in free && !c.NullCap?
      modifies this`prev, this`next, this`lists, this`free, this`count, this`cap
      ensures Valid() && d == if CanTake(old(Now()), t) then old(free)[t] else NULL
      ensures Now() == if CanTake(old(Now()), t) then Take(old(Now()), t, c) else old(Now())
    {
      hide Pop, Linked, Partitioned;
      assert HeadOk(Now(), t) by { HeadOfPartition(Now(), t); }
      if t in killed {
        return NULL;
      }
      d := PopFreeSlots(t);
      if d == NULL {
        return NULL;
      }
      cap := cap[d := c];
    }

    /** `is_same_object`. */
    method IsSameObject(a: Slot, b: Slot) returns (same: bool)
      requires Valid() && Sound(Now()) && Occupied(Now(), a) && Occupied(Now(), b)
      ensures a in lists.on && b in lists.on && same == IsSame(Now(), a, b)
    {
      var lhs := Follow(a);
      var rhs := Follow(b);
      if lhs == rhs {
        return true;
      }
      match (cap[lhs], cap[rhs])
      case (TaskCap(t, _), TaskCap(u, _)) => return t == u;
      case (EndpointCap(e), EndpointCap(f)) => return e == f;
      case (IdCap(_, _, _), IdCap(_, _, _)) => return cap[lhs] == cap[rhs];
      case _ => return false;
    }

    /** The loop of `is_same_object` over zombies. */
    method Follow(s: Slot) returns (r: Slot)
      requires Valid() && Sound(Now()) && Occupied(Now(), s)
      ensures s in lists.on && r == Resolve(Now(), s) && r in cap && Live(cap[r])
    {
      r := s;
      ResolveLive(Now(), s);
      while cap[r].ZombieCap?
        invariant r in lists.on && r in cap && Occupied(Now(), r) && Resolve(Now(), r) == Resolve(Now(), s)
        decreases |lists.Of(r)| - lists.at[r]
      {
        FollowOne(Now(), prev, next, r);
        r := next[r];
      }
    }

    // -------------------------------------------------------------- new capability spaces

    /** A zeroed slot of a new space gets its task. */
    method NewSlot(t: Task, s: Slot)
      requires Valid() && s != NULL && s !in lists.on
      modifies this
      ensures Valid() && Now() == Register(old(Now()), t, s)
    {
      RegisterLinked(Now(), t, s, prev, next);
      lists := Register(Now(), t, s).lists;
      prev, next, cap, owner := prev[s := NULL], next[s := NULL], cap[s := NullCap], owner[s := t];
    }

    /**
     `insert_cap_space`, once the page is in the task's table: its slots are pushed, last one first, but for the first
     slot of the first space.
     */
    method InsertCapSpace(t: Task, page: nat)
      requires Valid() && Inv(Now()) && t in free && t in spaces && FreshSlots(Now(), page, 0, SLOTS_PER_SPACE)
      modifies this
      ensures Valid() && Now() == AddSpace(old(Now()), t, page)
    {
      hide Inv, Linked, Partitioned, AddFrees, Register, FreshSlots;
      ghost var k: Kernel := Now();
      var lo: nat := 0;
      if spaces[t] == 0 {
        lo := 1;
        FirstFresh(k, page);
        NewSlot(t, SlotAt(page, 0));
        reserved := reserved + {SlotAt(page, 0)};
        ReservedSteps(k, t, page);
      } else {
        KernelParts(k);
      }
      SpaceSteps(k, t, page, Now(), lo);
      PushNewSlots(t, page, lo);
      spaces := spaces[t := spaces[t] + 1];
    }

    /** The loop of `insert_cap_space`. */
    method PushNewSlots(t: Task, page: nat, lo: nat)
      requires Valid() && Partitioned(Now(), NULL) && t in free && lo <= SLOTS_PER_SPACE
      requires FreshSlots(Now(), page, lo, SLOTS_PER_SPACE)
      modifies this
      ensures Valid() && Now() == AddFrees(old(Now()), t, page, lo, SLOTS_PER_SPACE) && spaces == old(spaces)
    {
      hide Linked, Partitioned, AddFrees, Register, FreshSlots, Push;
      ghost var k := Now();
      var n: nat := SLOTS_PER_SPACE;
      while n > lo
        invariant lo <= n && Valid() && Partitioned(Now(), NULL) && t in free && FreshSlots(Now(), page, lo, n)
        invariant spaces == k.spaces
        invariant AddFrees(Now(), t, page, lo, n) == AddFrees(k, t, page, lo, SLOTS_PER_SPACE)
      {
        FreeSteps(Now(), t, page, lo, n);
        n := n - 1;
        NewSlot(t, SlotAt(page, n));
        PushFreeSlots(t, SlotAt(page, n));
      }
      NoFrees(Now(), t, page, lo);
    }

    // -------------------------------------------------------------- moving capabilities

    /** `transfer_cap`. */
    method TransferCap(t: Task, s: Slot) returns (out: Outcome)
      requires Valid() && Inv(Now()) && s in cap && t in free
      modifies this
      ensures Valid() && (Now(), out) == Transfer(old(Now()), t, s)
    {
      hide Take, Push, Lists.Substitute, Linked, Inv;
      ghost var k := Now();
      InvParts(k, s);
      if !Live(cap[s]) || t in killed || owner[s] in killed {
        return Refused;
      }
      var d := InsertCap(t, cap[s]);
      if d == NULL {
        return Refused;
      }
      TransferSteps(k, t, s);
      Replace(d, s);
      PushFreeSlots(owner[s], s);
      return Done(d);
    }

    /** `delegate_cap`. */
    method DelegateCap(t: Task, s: Slot) returns (out: Outcome)
      requires Valid() && Inv(Now()) && s in cap && t in free
      modifies this
      ensures Valid() && (Now(), out) == Delegate(old(Now()), t, s)
    {
      hide Take, Lists.SpliceAfter, Linked, Inv;
      ghost var k := Now();
      InvParts(k, s);
      if !Live(cap[s]) || t in killed || owner[s] in killed {
        return Refused;
      }
      var c := cap[s];
      var d := InsertCap(t, c);
      if d == NULL {
        return Refused;
      }
      PutSteps(k, t, c, s, ZombieCap);
      cap := cap[s := ZombieCap];
      InsertAfter(s, d);
      return Done(d);
    }

    /** `copy_cap`. */
    method CopyCap(s: Slot) returns (out: Outcome)
      requires Valid() && Inv(Now()) && s in cap
      modifies this
      ensures Valid() && (Now(), out) == Copy(old(Now()), s)
    {
      hide Take, Lists.SpliceAfter, Linked, Inv;
      ghost var k := Now();
      InvParts(k, s);
      var t, c := owner[s], cap[s];
      if c.TaskCap? || c.EndpointCap? {
        var d := InsertCap(t, c);
        if d == NULL {
          return Halted;
        }
        PutSteps(k, t, c, s, c);
        assert cap[s := c] == cap;
        InsertAfter(s, d);
        return Done(d);
      } else if c.IdCap? {
        var d := InsertCap(t, c);
        return if d == NULL then Refused else Done(d);
      } else {
        return Refused;
      }
    }

    // -------------------------------------------------------------- creating objects

    /** `create_object`, with `create_memory_object`. */
    method CreateObject(t: Task, s: Slot, kind: Kind) returns (out: Outcome)
      requires Valid() && Inv(Now()) && s in cap && t in free
      modifies this
      ensures Valid() && out == Create(old(Now()), t, s, kind).1
      ensures !out.Halted? ==> Now() == Create(old(Now()), t, s, kind).0
    {
      hide Pop, Push, Lists.SpliceAfter, Linked, Inv, Carve, Partitioned, HeadOk, OnFreeOf, PutBehind, NewCap;
      ghost var k := Now();
      InvParts(k, s);
      if !cap[s].MemCap? || t in killed {
        return Refused;
      }
      HeadOfPartition(k, t);
      var d := PopFreeSlots(t);
      if d == NULL {
        return Refused;
      }
      PoppedPushable(k, t);
      var c := cap[s];
      if !Allowed(kind, c) {
        PushFreeSlots(t, d);
        return Refused;
      }
      var carved := Carve(c, KindSize(kind), KindAlign(kind));
      if carved.TooLittle? {
        PushFreeSlots(t, d);
        return Refused;
      }
      if carved.OutOfRange? {
        return Halted;
      }
      ObjectBehind(k, t, s, d, NewCap(kind, c.device, carved.base), carved.used);
      return Done(d);
    }

    /**
     The end of `create_memory_object`: the object goes to the popped slot `d`, just behind the memory it was carved
     from.
     */
    method ObjectBehind(ghost k: State, t: Task, s: Slot, d: Slot, n: Cap, used: nat)
      requires Valid() && Partitioned(k, NULL) && Occupied(k, s) && k.cap[s].MemCap? && !n.NullCap? && CanTake(k, t)
      requires d == k.free[t] && HeadOk(k, t) && Now() == Pop(k, t)
      modifies this
      ensures Valid()
      ensures Now() == PutBehind(k, t, n, s,
        k.cap[s].(used := used)).(made := if Shared(n) then k.made + [n] else k.made)
    {
      hide Pop, Lists.SpliceAfter, Linked;
      PutSteps(k, t, n, s, k.cap[s].(used := used));
      cap := cap[d := n];
      assert Now() == Take(k, t, n);
      cap := cap[s := cap[s].(used := used)];
      InsertAfter(s, d);
      made := if Shared(n) then made + [n] else made;
    }

    // -------------------------------------------------------------- revoking and destroying

    /** `erase_this` and then `push_free_slots`, which erases the slot again. */
    method EraseAndPush(s: Slot)
      requires Valid() && s in lists.on && s in owner && HeadOk(Now(), owner[s]) && !OnFreeOf(Now(), owner[s], s)
      modifies this`prev, this`next, this`lists, this`cap, this`free, this`count
      ensures Valid() && Now() == Push(old(Now()), s)
    {
      hide Push, Lists.PlaceBefore, Lists.Erase;
      PushSteps(Now(), s);
      ghost var l := lists.Erase(s);
      EraseAlone(lists, s);
      var erased := EraseThis(s);
      erased := EraseThis(s);
      lists := l;
      AddToFree(owner[s], s);
    }

    /** `destroy_object`; false stands for the failed assertion of `destroy_memory_object`. */
    method DestroyObject(s: Slot) returns (ok: bool)
      requires Valid() && Inv(Now()) && Holding(Now(), s)
      modifies this`cap, this`killed, this`destroyed
      ensures ok <==> !old(Now()).cap[s].MemCap? || Last(Now(), s)
      ensures Now() == if ok then CapOps.DestroyObject(old(Now()), s) else old(Now())
    {
      hide Inv;
      InvParts(Now(), s);
      Neighbours(prev, next, lists, s);
      var c := cap[s];
      if c.MemCap? {
        if next[s] != NULL {
          return false;
        }
        cap := cap[s := c.(used := 0)];
      } else if c.TaskCap? {
        killed := killed + {c.task};
      }
      destroyed := destroyed + [c];
      return true;
    }

    /** `destroy_cap_slot`. */
    method DestroyCapSlot(s: Slot)
      requires Valid() && Inv(Now()) && Holding(Now(), s) && Last(Now(), s)
      modifies this
      ensures Valid() && Now() == DestroyTail(old(Now()), s)
    {
      hide Inv, Push, Linked;
      ghost var k := Now();
      InvParts(k, s);
      DestroySteps(k, prev, next, s);
      if prev[s] != NULL {
        var p := prev[s];
        if cap[p].ZombieCap? {
          cap := cap[p := cap[s]];
        } else {
          var same := IsSameObject(p, s);
          if !same {
            var ok := DestroyObject(s);
          }
        }
      } else {
        var ok := DestroyObject(s);
      }
      EraseAndPush(s);
    }

    /** `revoke_cap`. */
    method RevokeCap(s: Slot) returns (out: Outcome)
      requires Valid() && Inv(Now()) && s in cap
      modifies this
      ensures Valid() && (Now(), out) == Revoke(old(Now()), s)
    {
      hide Inv, Linked, RevokeMem, RevokeZombie;
      InvParts(Now(), s);
      if cap[s].MemCap? {
        var t := FindTail(s);
        DestroyBack(s, t);
        return Done(s);
      } else if cap[s].ZombieCap? {
        TakeBack(s);
        return Done(s);
      } else {
        return Refused;
      }
    }

    /** The first loop of `revoke_cap`. */
    method FindTail(s: Slot) returns (t: Slot)
      requires Valid() && s in lists.on
      ensures t == Tail(Now(), s)
    {
      t := s;
      Neighbours(prev, next, lists, t);
      while next[t] != NULL
        invariant t in lists.on && lists.on[t] == lists.on[s] && Near(prev, next, lists, t)
        decreases |lists.Of(s)| - lists.at[t]
      {
        t := next[t];
        Neighbours(prev, next, lists, t);
      }
      Same(lists, t, Tail(Now(), s));
    }

    /** The second loop of `revoke_cap`: from the last slot back to `s`. */
    method DestroyBack(s: Slot, t: Slot)
      requires Valid() && Inv(Now()) && Holding(Now(), s) && s in lists.on && t == Tail(Now(), s)
      modifies this
      ensures Valid() && Now() == RevokeMem(old(Now()), s)
    {
      hide Inv, Linked, RevokeMem, DestroyTail, Tail;
      var x := t;
      InvParts(Now(), s);
      while x != s
        invariant Valid() && Inv(Now()) && Partitioned(Now(), NULL) && Holding(Now(), s)
        invariant lists.Placed(s) && x == Tail(Now(), s)
        invariant RevokeMem(Now(), s) == RevokeMem(old(Now()), s)
        decreases |lists.Of(s)| - lists.at[s]
      {
        RevokeStep(Now(), prev, next, s);
        var p := prev[x];
        DestroyCapSlot(x);
        x := p;
      }
      RevokeNothing(Now(), s);
    }

    /**
     The other half of `revoke_cap`: the slots from behind `s` to the one that holds its capability are freed, last
     one first.
     */
    method TakeBack(s: Slot)
      requires Valid() && Inv(Now()) && Occupied(Now(), s) && cap[s].ZombieCap?
      modifies this
      ensures Valid() && Now() == RevokeZombie(old(Now()), s)
    {
      hide Inv, Linked, FreeBack, Push;
      ghost var k := Now();
      ResolveBehindInv(k, s);
      FollowOne(k, prev, next, s);
      var q := Follow(next[s]);
      var c := cap[q];
      while q != s
        invariant Valid() && Partitioned(Now(), NULL) && Occupied(Now(), s) && Occupied(Now(), q)
        invariant (q == s || Before(Now(), s, q))
        invariant FreeBack(Now(), s, q) == FreeBack(k, s, Resolve(k, s))
        decreases if q in lists.at then lists.at[q] else 0
      {
        FreeStep(Now(), prev, next, s, q);
        var p := prev[q];
        EraseAndPush(q);
        q := p;
      }
      FreeNothing(Now(), s);
      cap := cap[s := c];
    }

    /** `destroy_cap`. */
    method DestroyCap(s: Slot) returns (out: Outcome)
      requires Valid() && Inv(Now()) && s in cap
      modifies this
      ensures Valid() && (Now(), out) == Destroy(old(Now()), s)
    {
      hide Inv, Linked, RevokeMem, RevokeZombie, DestroyHeld;
      if cap[s].NullCap? {
        return Refused;
      }
      ghost var k := Now();
      if cap[s].MemCap? || cap[s].ZombieCap? {
        var revoked := RevokeCap(s);
      }
      assert Now() == Strip(k, s);
      out := DestroyHeldCap(s);
    }

    /** The rest of `destroy_cap`. */
    method DestroyHeldCap(s: Slot) returns (out: Outcome)
      requires Valid() && Inv(Now()) && Holding(Now(), s)
      modifies this
      ensures Valid() && (Now(), out) == DestroyHeld(old(Now()), s)
    {
      hide Inv, Linked, RevokeZombie, Push, Partitioned, Resolve, HeadOk, OnFreeOf;
      ghost var k := Now();
      HeldSteps(k, prev, next, s);
      var before, behind := false, false;
      if prev[s] != NULL {
        before := IsSameObject(prev[s], s);
      }
      if next[s] != NULL {
        behind := IsSameObject(next[s], s);
      }
      if !before && !behind {
        var ok := DestroyObject(s);
        if !ok {
          return Halted;
        }
        PushFreeSlots(owner[s], s);
        return Done(s);
      } else if prev[s] != NULL && cap[prev[s]].ZombieCap? {
        TakeBack(prev[s]);
        return Done(s);
      } else {
        EraseAndPush(s);
        return Done(s);
      }
    }
  }

  lemma EraseAlone(L: Lists, s: Slot)
    requires L.Ok() && s in L.on
    ensures L.Placed(s) && s in L.Erase(s).on && L.Erase(s).Placed(s) && L.Erase(s).Alone(s)
  {
    EraseOk(L, s);
  }

  lemma DestroySteps(k: State, prev: Words, next: Words, s: Slot)
    requires Inv(k) && Linked(prev, next, k.lists) && Holding(k, s)
    ensures s in k.lists.on && s in prev && prev[s] == k.lists.Prev(s)
    ensures prev[s] != NULL ==> Occupied(k, prev[s])
    ensures Partitioned(k, NULL) && Sound(k)
    ensures
      var m := Release(k, s);
      s in m.lists.on && s in m.owner && HeadOk(m, m.owner[s]) && !OnFreeOf(m, m.owner[s], s)
  {
    assert SlotOk(k, NULL, s);
    Neighbours(prev, next, k.lists, s);
    if prev[s] != NULL { PrevOccupied(k, s); }
    ReleasePartitioned(k, s);
    Pushable(Release(k, s), s);
  }

  lemma RevokeStep(k: State, prev: Words, next: Words, s: Slot)
    requires Inv(k) && Linked(prev, next, k.lists) && Holding(k, s) && s in k.lists.on && Tail(k, s) != s
    ensures
      var t := Tail(k, s);
      && Occupied(k, t) && Holding(k, t) && Last(k, t) && t in prev && k.lists.Placed(s) && Partitioned(k, NULL)
      && var m := DestroyTail(k, t);
         && Inv(m) && Partitioned(m, NULL) && Holding(m, s) && m.lists.Placed(s) && prev[t] == Tail(m, s)
         && RevokeMem(m, s) == RevokeMem(k, s)
         && m.lists.at[s] == k.lists.at[s] && |m.lists.Of(s)| < |k.lists.Of(s)|
  {
    hide DestroyTail, Linked, Inv, Partitioned, RevokeMem;
    InvParts(k, s);
    TailOccupied(k, s);
    var t := Tail(k, s);
    TailBefore(k, s);
    NewTail(k, prev, next, s);
    RevokeMore(k, s);
    InvParts(DestroyTail(k, t), s);
  }

  lemma TailBefore(k: State, s: Slot)
    requires Inv(k) && Holding(k, s) && s in k.lists.on && Tail(k, s) != s
    ensures var t := Tail(k, s); Occupied(k, t) && Before(k, s, t) && !Last(k, s) && Holding(k, t)
  {
    TailOccupied(k, s);
    Same(k.lists, s, Tail(k, s));
    TailHeld(k, Tail(k, s));
  }

  lemma RevokeMore(k: State, s: Slot)
    requires Inv(k) && Holding(k, s) && s in k.lists.on && !Last(k, s) && Occupied(k, Tail(k, s))
    requires Before(k, s, Tail(k, s))
    ensures
      var m := DestroyTail(k, Tail(k, s));
      Inv(m) && Holding(m, s) && RevokeMem(m, s) == RevokeMem(k, s)
  {
    hide DestroyTail, Lawful, ZombiesOk;
    var t := Tail(k, s);
    DestroyTailKeeps(k, t);
    TailCaps(k, s, t, DestroyTail(k, t));
  }

  /** Once the tail is gone, the slot before it is the tail. */
  lemma NewTail(k: State, prev: Words, next: Words, s: Slot)
    requires Partitioned(k, NULL) && Linked(prev, next, k.lists) && Holding(k, s) && s in k.lists.on
    requires Occupied(k, Tail(k, s)) && Before(k, s, Tail(k, s))
    ensures
      var t := Tail(k, s);
      var m := DestroyTail(k, t);
      && m.lists.Ok() && k.lists.Placed(s) && m.lists.Placed(s) && m.lists.at[s] == k.lists.at[s]
      && |m.lists.Of(s)| < |k.lists.Of(s)|
      && t in prev && prev[t] == Tail(m, s)
  {
    hide DestroyTail;
    var t := Tail(k, s);
    var m := DestroyTail(k, t);
    Neighbours(prev, next, k.lists, t);
    DestroyTailFrees(k, t);
    TailLeaves(k, t, s);
    var p := prev[t];
    PrevOccupied(k, t);
    TailLeaves(k, t, p);
    SameTail(k, m, s, p, t);
  }

  lemma SameTail(k: State, m: State, s: Slot, p: Slot, t: Slot)
    requires Partitioned(m, NULL) && Freed(k, m, {t}) && Occupied(k, s) && Occupied(k, p) && s != t && p != t
    requires k.lists.Placed(s) && k.lists.Placed(p) && SameList(k, s, p) && k.lists.at[p] + 2 == |k.lists.Of(p)|
    requires m.lists.Placed(p) && m.lists.Placed(s) && m.lists.at[p] == k.lists.at[p]
    requires |m.lists.Of(s)| == |k.lists.Of(s)| - 1
    ensures p == Tail(m, s)
  {
    assert OrderKept(k, m, s, p);
    Same(m.lists, p, Tail(m, s));
  }

  lemma TailHeld(k: State, t: Slot)
    requires Sound(k) && Occupied(k, t) && Last(k, t)
    ensures Holding(k, t)
  {
    assert k.cap[t].ZombieCap? ==> NotLast(k, t);
  }

  lemma RevokeNothing(k: State, s: Slot)
    requires Inv(k) && Holding(k, s) && s in k.lists.on && Tail(k, s) == s
    ensures RevokeMem(k, s) == k
  {
  }

  lemma ResolveBehindInv(k: State, s: Slot)
    requires Inv(k) && Occupied(k, s) && k.cap[s].ZombieCap?
    ensures Sound(k) && Partitioned(k, NULL) && s in k.lists.on && Holding(k, Resolve(k, s))
    ensures Before(k, s, Resolve(k, s))
  {
    ResolveBehind(k, s);
  }

  lemma FreeStep(k: State, prev: Words, next: Words, s: Slot, q: Slot)
    requires Partitioned(k, NULL) && Linked(prev, next, k.lists) && Occupied(k, s) && Occupied(k, q) && Before(k, s, q)
    ensures q in prev && q in k.lists.on && q in k.owner && HeadOk(k, k.owner[q]) && !OnFreeOf(k, k.owner[q], q)
    ensures
      var p, m := prev[q], Push(k, q);
      && Partitioned(m, NULL) && Occupied(m, s) && Occupied(m, p) && (p == s || Before(m, s, p))
      && FreeBack(m, s, p) == FreeBack(k, s, q)
      && p in m.lists.at && q in k.lists.at && m.lists.at[p] < k.lists.at[q]
  {
    PushFrees(k, q);
    StepBack(k, s, q);
    Neighbours(prev, next, k.lists, q);
  }

  lemma FreeNothing(k: State, s: Slot)
    requires Partitioned(k, NULL) && Occupied(k, s)
    ensures FreeBack(k, s, s) == k
  {
  }

  lemma HeldSteps(k: State, prev: Words, next: Words, s: Slot)
    requires Inv(k) && Linked(prev, next, k.lists) && Holding(k, s)
    ensures Sound(k) && Partitioned(k, NULL)
    ensures s in k.lists.on && s in prev && s in next && prev[s] == k.lists.Prev(s) && next[s] == k.lists.Next(s)
    ensures prev[s] != NULL ==> Occupied(k, prev[s])
    ensures next[s] != NULL ==> Occupied(k, next[s])
    ensures s in k.owner && HeadOk(k, k.owner[s]) && !OnFreeOf(k, k.owner[s], s)
    ensures
      var m := CapOps.DestroyObject(k, s);
      HeadOk(m, m.owner[s]) && !OnFreeOf(m, m.owner[s], s)
  {
    assert SlotOk(k, NULL, s);
    Neighbours(prev, next, k.lists, s);
    if prev[s] != NULL { PrevOccupied(k, s); }
    if next[s] != NULL { NextOccupied(k, s); }
    Pushable(k, s);
    DestroyPartitioned(k, s);
    Pushable(CapOps.DestroyObject(k, s), s);
  }

  lemma HeadOfPartition(k: State, t: Task)
    requires Partitioned(k, NULL) && t in k.free
    ensures HeadOk(k, t)
  {
  }

  lemma FollowOne(k: State, prev: Words, next: Words, r: Slot)
    requires Sound(k) && Linked(prev, next, k.lists) && Occupied(k, r) && k.cap[r].ZombieCap?
    ensures r in k.lists.on && k.lists.Placed(r) && r in next && next[r] in k.lists.on && k.lists.Placed(next[r])
    ensures Occupied(k, next[r]) && Resolve(k, r) == Resolve(k, next[r])
    ensures k.lists.Of(next[r]) == k.lists.Of(r) && k.lists.at[next[r]] == k.lists.at[r] + 1
  {
    assert SlotOk(k, NULL, r) && NotLast(k, r);
    Neighbours(prev, next, k.lists, r);
    Neighbour(k.lists, r);
    NextOccupied(k, r);
  }

  lemma InvParts(k: State, s: Slot)
    requires Inv(k) && s in k.cap
    ensures Partitioned(k, NULL) && k.lists.Placed(s) && s in k.owner && k.owner[s] in k.free
  {
    assert SlotOk(k, NULL, s);
  }

  /** What the steps of `transfer_cap` need and amount to. */
  lemma TransferSteps(k: State, t: Task, s: Slot)
    requires Inv(k) && CanTake(k, t) && Holding(k, s)
    ensures
      var d, m := k.free[t], Take(k, t, k.cap[s]);
      && d in m.lists.on && s in m.lists.on && m.lists.Placed(d) && m.lists.Placed(s) && m.lists.Alone(d) && d != s
      && m.owner == k.owner && s in k.owner
      && var n := m.(lists := m.lists.Substitute(d, s));
         && n.lists.Ok() && s in n.lists.on && HeadOk(n, k.owner[s]) && !OnFreeOf(n, k.owner[s], s)
         && Transferred(k, t, s) == Push(n, s)
  {
    TakeTakes(k, t, k.cap[s]);
    var d, m := k.free[t], Take(k, t, k.cap[s]);
    assert Unmoved(k, m, s);
    PushFrees(Replacing(k, t, s), s);
  }

  /** What the steps of `delegate_cap`, `copy_cap` and `create_memory_object` need and amount to. */
  lemma PutSteps(k: State, t: Task, c: Cap, s: Slot, b: Cap)
    requires Partitioned(k, NULL) && CanTake(k, t) && Occupied(k, s) && !c.NullCap? && !b.NullCap?
    ensures
      var d, m := k.free[t], Take(k, t, c);
      && d in m.lists.on && s in m.lists.on && m.lists.Placed(s) && m.lists.Placed(d) && d != s
      && m.lists.on[s] != m.lists.on[d] && m.lists.at[d] == 0
      && PutBehind(k, t, c, s, b) == m.(cap := m.cap[s := b], lists := m.lists.SpliceAfter(s, d))
      && s in m.cap && m.cap[s] == k.cap[s] && m.made == k.made
  {
    TakeTakes(k, t, c);
    var d, m := k.free[t], Take(k, t, c);
    assert Unmoved(k, m, s);
    SpliceInserts(m.lists, s, d);
  }

  lemma RegisterLinked(k: State, t: Task, s: Slot, prev: Words, next: Words)
    requires Linked(prev, next, k.lists) && s != NULL && s !in k.lists.on
    ensures Linked(prev[s := NULL], next[s := NULL], Register(k, t, s).lists)
  {
    var L, R := k.lists, Register(k, t, s).lists;
    RegisterOk(k, t, s);
    forall x | x in R.on ensures LinkedAt(prev[s := NULL], next[s := NULL], R, x) {
      if x != s { RegisterLinkedAt(k, t, s, prev, next, x); } else { assert R.Placed(s); }
    }
  }

  lemma RegisterOk(k: State, t: Task, s: Slot)
    requires k.lists.Ok() && s != NULL && s !in k.lists.on
    ensures Register(k, t, s).lists.Ok()
  {
    var L, R := k.lists, Register(k, t, s).lists;
    forall x | x in R.on ensures R.Placed(x) { if x != s { assert L.Placed(x); } }
    forall n, i | n in R.seqs && 0 <= i < |R.seqs[n]| ensures R.Holds(n, R.seqs[n][i], i) {
      if n != L.limit { assert L.Holds(n, L.seqs[n][i], i); }
    }
    assert R.at.Keys == R.on.Keys;
  }

  lemma RegisterLinkedAt(k: State, t: Task, s: Slot, prev: Words, next: Words, x: Slot)
    requires Linked(prev, next, k.lists) && s != NULL && s !in k.lists.on && x in k.lists.on
    ensures LinkedAt(prev[s := NULL], next[s := NULL], Register(k, t, s).lists, x)
  {
    assert LinkedAt(prev, next, k.lists, x) && k.lists.Placed(x);
    Fresh(k.lists, x);
  }

  lemma FirstFresh(k: Kernel, page: nat)
    requires FreshSlots(k, page, 0, SLOTS_PER_SPACE)
    ensures SlotAt(page, 0) !in k.lists.on && SlotAt(page, 0) !in k.reserved
  {
  }

  lemma KernelParts(k: Kernel)
    ensures Partitioned(k, NULL)
  {
  }

  lemma ReservedSteps(k: Kernel, t: Task, page: nat)
    requires t in k.free && FreshSlots(k, page, 0, SLOTS_PER_SPACE)
    ensures
      var m := AddReserved(k, t, SlotAt(page, 0));
      m == Register(k, t, SlotAt(page, 0)).(reserved := k.reserved + {SlotAt(page, 0)}) && Partitioned(m, NULL)
      && FreshSlots(m, page, 1, SLOTS_PER_SPACE) && m.free == k.free && m.spaces == k.spaces
      && Register(k, t, SlotAt(page, 0)).reserved == k.reserved
  {
    FirstFresh(k, page);
    AddReservedKeeps(k, t, SlotAt(page, 0));
    RestFresh(k, page, AddReserved(k, t, SlotAt(page, 0)));
  }

  lemma SpaceSteps(k: Kernel, t: Task, page: nat, m: State, lo: nat)
    requires t in k.free && t in k.spaces && FreshSlots(k, page, 0, SLOTS_PER_SPACE)
    requires if k.spaces[t] == 0 then lo == 1 && m == AddReserved(k, t, SlotAt(page, 0)) else lo == 0 && m == k
    requires Partitioned(m, NULL) && t in m.free && FreshSlots(m, page, lo, SLOTS_PER_SPACE)
    ensures AddSpace(k, t, page) == AddFrees(m, t, page, lo, SLOTS_PER_SPACE).(spaces := k.spaces[t := k.spaces[t] + 1])
  {
    hide AddFrees, Register, FreshSlots;
  }

  /** What one round of the loop of `insert_cap_space` needs and amounts to. */
  lemma FreeSteps(k: State, t: Task, page: nat, lo: nat, n: nat)
    requires Partitioned(k, NULL) && t in k.free && lo < n && FreshSlots(k, page, lo, n)
    ensures
      var s := SlotAt(page, n - 1);
      && s !in k.lists.on && s !in k.reserved
      && var m := Register(k, t, s);
         && m.lists.Ok() && s in m.lists.on && s in m.owner && m.owner[s] == t && HeadOk(m, t) && !OnFreeOf(m, t, s)
         && var r := Push(m, s);
            && Partitioned(r, NULL) && t in r.free && FreshSlots(r, page, lo, n - 1) && r.spaces == k.spaces
            && AddFrees(r, t, page, lo, n - 1) == AddFrees(k, t, page, lo, n)
  {
    var s := SlotAt(page, n - 1);
    RegisterHole(k, t, s);
    var m := Register(k, t, s);
    assert SlotOk(m, s, s) && HeadOk(m, t);
    AddFreeUntouched(k, t, s);
    StillFresh(k, t, page, lo, n, AddFree(k, t, s));
  }

  lemma NoFrees(k: State, t: Task, page: nat, lo: nat)
    requires Partitioned(k, NULL) && t in k.free && FreshSlots(k, page, lo, lo)
    ensures AddFrees(k, t, page, lo, lo) == k
  {
  }
}
