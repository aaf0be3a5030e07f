/**
 What each operation on capabilities does, told of slots, lists and records, and exactly when it refuses: the
 counterpart of the operations' definitions that their callers see.
 */
module CapOutcomes {
  import opened SlotLinks
  import opened Capability
  import opened Carving
  import opened Derivation
  import opened Lineage
  import opened CapOps
  import opened CapMoves
  import opened CapCreate
  import opened CapRuns
  import opened CapTracks
  import opened CapLedger

  // ---------------------------------------------------------------- refusals

  /**
   `transfer_cap` refuses exactly null slots and zombies, killed tasks on either side, and a receiver without a free
   slot.
   */
  lemma TransferRefused(k: Kernel, t: Task, s: Slot)
    requires s in k.cap
    ensures s in k.owner && !Transfer(k, t, s).1.Halted?
    ensures Transfer(k, t, s).1.Refused? <==>
      || k.cap[s].NullCap? || k.cap[s].ZombieCap? || t in k.killed || k.owner[s] in k.killed
      || t !in k.free || k.free[t] == NULL
    ensures Transfer(k, t, s).1.Refused? ==> Transfer(k, t, s).0 == k
  {
    assert SlotOk(k, NULL, s);
  }

  lemma DelegateRefused(k: Kernel, t: Task, s: Slot)
    requires s in k.cap
    ensures s in k.owner && !Delegate(k, t, s).1.Halted?
    ensures Delegate(k, t, s).1.Refused? <==>
      || k.cap[s].NullCap? || k.cap[s].ZombieCap? || t in k.killed || k.owner[s] in k.killed
      || t !in k.free || k.free[t] == NULL
    ensures Delegate(k, t, s).1.Refused? ==> Delegate(k, t, s).0 == k
  {
    assert SlotOk(k, NULL, s);
  }

  /** `copy_cap` refuses exactly what cannot be copied, and identifiers for which there is no slot. */
  lemma CopyRefused(k: Kernel, s: Slot)
    requires s in k.cap
    ensures s in k.owner
    ensures Copy(k, s).1.Refused? <==>
      var c, t := k.cap[s], k.owner[s];
      !c.TaskCap? && !c.EndpointCap? && (c.IdCap? ==> t in k.killed || t !in k.free || k.free[t] == NULL)
    ensures Copy(k, s).1.Refused? ==> Copy(k, s).0 == k
  {
    assert SlotOk(k, NULL, s);
  }

  /** `revoke_cap` refuses exactly what is neither memory nor a zombie. */
  lemma RevokeRefused(k: Kernel, s: Slot)
    requires s in k.cap
    ensures Revoke(k, s).1.Refused? <==> !k.cap[s].MemCap? && !k.cap[s].ZombieCap?
    ensures Revoke(k, s).1.Refused? ==> Revoke(k, s).0 == k
    ensures !Revoke(k, s).1.Halted?
  {
  }

  lemma DestroyRefused(k: Kernel, s: Slot)
    requires s in k.cap
    ensures Destroy(k, s).1.Refused? <==> k.cap[s].NullCap?
    ensures Destroy(k, s).1.Refused? ==> Destroy(k, s).0 == k
  {
  }

  /** `is_same_object` compares what the two slots stand for: one slot, one task, one endpoint, or equal identifiers. */
  lemma SameObjectMeans(k: Kernel, a: Slot, b: Slot)
    requires Occupied(k, a) && Occupied(k, b)
    ensures a in k.lists.on && b in k.lists.on
    ensures
      var r, q := Resolve(k, a), Resolve(k, b);
      IsSame(k, a, b) <==>
        || r == q
        || (k.cap[r].TaskCap? && k.cap[q].TaskCap? && k.cap[r].task == k.cap[q].task)
        || (k.cap[r].EndpointCap? && k.cap[q].EndpointCap? && k.cap[r].endpoint == k.cap[q].endpoint)
        || (k.cap[r].IdCap? && k.cap[q].IdCap? && k.cap[r].val1 == k.cap[q].val1 && k.cap[r].val2 == k.cap[q].val2
            && k.cap[r].val3 == k.cap[q].val3)
  {
    ResolveLive(k, a);
    ResolveLive(k, b);
  }

  // ---------------------------------------------------------------- creation

  /** The capability of an object of this kind, made from memory `c`. */
  predicate OfKind(kind: Kind, c: Cap, n: Cap)
    requires c.MemCap?
  {
    match kind
    case NewMem(size, _) => n.MemCap? && n.device == c.device && n.size == size && n.used == 0
    case NewTask => n.TaskCap? && n.rights == 127
    case NewEndpoint => n.EndpointCap?
    case NewPageTable => n.PageTableCap?
    case NewVirtPage(level) => n.VirtPageCap? && n.level == level
    case NewCapSpace => n.CapSpaceCap?
  }

  /** The bytes and the alignment that an object of this kind takes. */
  predicate Takes(kind: Kind, size: nat, align: nat) {
    match kind
    case NewMem(n, a) => size == n && align == a
    case NewTask => size == 4096 && align == 4096
    case NewEndpoint => size == 64 && align == 64
    case NewPageTable => size == 4096 && align == 4096
    case NewVirtPage(level) => size == PageSize(level) && align == size
    case NewCapSpace => size == 4096 && align == 4096
  }

  lemma KindTakes(kind: Kind)
    ensures Takes(kind, KindSize(kind), KindAlign(kind))
  {
  }

  /** What may be made of this memory, and whether it fits. */
  predicate Creatable(kind: Kind, c: Cap)
    requires c.MemCap?
  {
    && (c.device ==> kind.NewMem? || kind.NewVirtPage?)
    && (kind.NewVirtPage? ==> kind.level <= 2)
    && KindSize(kind) > 0
    && AlignUp(c.base + c.used, KindAlign(kind)) + KindSize(kind) <= c.base + c.size
  }

  /** `create_object` succeeds exactly on memory that allows and holds the object, for a task that can take it. */
  lemma CreateDone(k: Kernel, t: Task, s: Slot, kind: Kind)
    requires Legal(k, CreateObject(t, s, kind))
    ensures Create(k, t, s, kind).1.Done? <==>
      k.cap[s].MemCap? && t !in k.killed && t in k.free && k.free[t] != NULL && Creatable(kind, k.cap[s])
    ensures !Create(k, t, s, kind).1.Halted?
    ensures !Create(k, t, s, kind).1.Done? ==>
      forall x :: x in k.cap ==> x in Create(k, t, s, kind).0.cap && Create(k, t, s, kind).0.cap[x] == k.cap[x]
  {
    hide PutBehind, PopPush, Fits, Partitioned, ZombiesOk, Ledger;
    if k.cap[s].MemCap? && t !in k.killed && t in k.free && k.free[t] != NULL {
      CarveDone(k.cap[s], KindSize(kind), KindAlign(kind));
      PopPushCaps(k, t);
    }
  }

  lemma PopPushCaps(k: Kernel, t: Task)
    requires CanTake(k, t)
    ensures PopPush(k, t).cap == k.cap
  {
    PoppedPushable(k, t);
    var d := k.free[t];
    assert HeadOk(k, t) && FreeOwn(k, t, d) && SlotOk(k, NULL, d);
    assert PopPush(k, t).cap == k.cap[d := NullCap];
  }

  /**
   Where the next aligned address does not pass the end, carving succeeds exactly when the object fits, and never fails
   an assertion.
   */
  lemma CarveDone(c: Cap, size: nat, align: nat)
    requires c.MemCap? && WellSized(c) && size < WORD && align < WORD && Fits(c, align)
    ensures Carve(c, size, align).Carved? <==> size > 0 && AlignUp(c.base + c.used, align) + size <= c.base + c.size
    ensures !Carve(c, size, align).OutOfRange?
  {
    hide RoundUp, AlignUp;
    var v := c.base + c.used;
    InWord(v);
    NoWrap(c, align);
    RoundUpCases(v, align);
    if align > 0 { AlignUpLeast(v, align); } else { AlignNone(v); }
    InWord(c.base + c.size - AlignUp(v, align));
  }

  lemma InWord(v: nat)
    requires v < WORD
    ensures v % WORD == v
  {
  }

  lemma AlignNone(v: nat)
    ensures AlignUp(v, 0) == v
  {
  }

  /** A created object is of the kind asked for. */
  lemma CreateMakes(k: Kernel, t: Task, s: Slot, kind: Kind)
    requires Legal(k, CreateObject(t, s, kind)) && Create(k, t, s, kind).1.Done?
    ensures
      var r, d := Create(k, t, s, kind).0, k.free[t];
      && k.cap[s].MemCap? && CanTake(k, t) && Create(k, t, s, kind).1 == Done(d) && d in r.cap
      && OfKind(kind, k.cap[s], r.cap[d])
      && Lo(r.cap[d]) == AlignUp(k.cap[s].base + k.cap[s].used, KindAlign(kind))
      && r.killed == k.killed && r.destroyed == k.destroyed
  {
    hide PutBehind, Partitioned, ZombiesOk, Ledger;
    var c := k.cap[s];
    var out := Carve(c, KindSize(kind), KindAlign(kind));
    CarveExact(c, KindSize(kind), KindAlign(kind));
    MadeOfKind(k, t, s, kind, out.base, out.used);
  }

  lemma MadeOfKind(k: Kernel, t: Task, s: Slot, kind: Kind, base: nat, used: nat)
    requires s in k.cap && k.cap[s].MemCap? && CanTake(k, t) && Allowed(kind, k.cap[s])
    ensures
      var c := k.cap[s];
      var n := NewCap(kind, c.device, base);
      var r := PutBehind(k, t, n, s, c.(used := used));
      && k.free[t] in r.cap && r.cap[k.free[t]] == n && OfKind(kind, c, n)
      && r.killed == k.killed && r.destroyed == k.destroyed
  {
    hide Grown;
    PutBehindGrows(k, t, NewCap(kind, k.cap[s].device, base), s, k.cap[s].(used := used));
  }

  // ---------------------------------------------------------------- destroying

  /** A slot with what stands before it kept keeps the slot before it. */
  lemma PrevStays(k: State, r: State, s: Slot)
    requires Partitioned(k, NULL) && Partitioned(r, NULL) && Sub(k, r) && Occupied(r, s) && Occupied(k, s)
    requires k.lists.Placed(s) && (k.lists.Prev(s) == NULL || Occupied(r, k.lists.Prev(s)))
    ensures r.lists.Placed(s) && r.lists.Prev(s) == k.lists.Prev(s)
  {
    assert SlotOk(k, NULL, s) && SlotOk(r, NULL, s);
    Backward(k.lists, s);
    Backward(r.lists, s);
    var p, o := k.lists.Prev(s), r.lists.Prev(s);
    if p != NULL { assert OrderKept(k, r, p, s); }
    if o != NULL {
      PrevOccupied(r, s);
      assert OrderKept(k, r, o, s) && OrderKept(k, r, o, o);
      if p != NULL { assert OrderKept(k, r, o, p); Same(k.lists, o, p); Same(r.lists, o, p); }
    }
  }

  /** What `y` stands for does not change when what it stands for stays, and nothing between is overwritten. */
  lemma ResolveStays(k: State, r: State, s: Slot, y: Slot)
    requires Sound(k) && Sound(r) && Sub(k, r) && Occupied(k, y) && Occupied(r, y) && Before(k, s, y)
    requires forall x :: x != s ==> CapKept(k, r, x)
    requires y in k.lists.on && Occupied(r, Resolve(k, y))
    ensures y in r.lists.on && Resolve(r, y) == Resolve(k, y)
  {
    ResolveLive(k, y);
    ResolveLive(r, y);
    var a, b := Resolve(k, y), Resolve(r, y);
    assert OrderKept(k, r, y, a) && OrderKept(k, r, y, b) && OrderKept(k, r, a, b) && OrderKept(k, r, b, a);
    assert OrderKept(k, r, a, y) && OrderKept(k, r, b, y);
    assert SlotOk(k, NULL, a) && SlotOk(k, NULL, b) && SlotOk(k, NULL, y);
    Same(k.lists, y, a);
    Same(r.lists, y, b);
    Same(k.lists, y, b);
    Same(r.lists, y, a);
    assert a != s && b != s;
    assert CapKept(k, r, a) && CapKept(k, r, b);
    Same(k.lists, a, b);
    Same(r.lists, a, b);
  }

  /** `destroy_cap` frees `x` with the slot `s`, which stands for `q`. */
  predicate Goes(k: State, s: Slot, q: Slot, x: Slot)
    requires s in k.cap
  {
    x == s || (k.cap[s].MemCap? && Before(k, s, x)) || Between(k, s, q, x)
  }

  /**
   `s` is null, and `c`, which it stood for, is gone from it; a zombie just before `s` holds `c` now; the rest keeps its
   capabilities and its order.
   */
  ghost predicate Vanished(k: State, s: Slot, c: Cap, r: State)
    requires k.lists.Ok() && s in k.lists.on && (forall x :: x in k.lists.on ==> x in k.cap)
  {
    Backward(k.lists, s);
    var p := k.lists.Prev(s);
    && s in r.cap && r.cap[s].NullCap?
    && Sub(k, r) && r.owner == k.owner && r.reserved == k.reserved && r.spaces == k.spaces && r.made == k.made
    && if ZombieBefore(k, s) then p in r.cap && r.cap[p] == c && forall x :: x != p ==> CapKept(k, r, x)
       else forall x :: CapKept(k, r, x)
  }

  /** What follows the revocation: only `s` is freed. */
  lemma HeldVanishes(k: State, s: Slot)
    requires Inv(k) && Holding(k, s) && DestroyHeld(k, s).1.Done?
    ensures s in k.lists.on && DestroyHeld(k, s).1 == Done(s) && Vanished(k, s, k.cap[s], DestroyHeld(k, s).0)
    ensures forall x :: Occupied(DestroyHeld(k, s).0, x) <==> Occupied(k, x) && x != s
    ensures
      DestroyHeld(k, s).0.destroyed ==
      k.destroyed + (if !SameBefore(k, s) && !SameBehind(k, s) then [k.cap[s]] else [])
  {
    hide Lawful, Ledger, RevokeZombie, IsSame, ZombiesOk;
    assert SlotOk(k, NULL, s);
    BeforeIsSame(k, s);
    var r := DestroyHeld(k, s).0;
    if !SameBefore(k, s) && !SameBehind(k, s) {
      DestroyPartitioned(k, s);
      PushDropped(k, s, CapOps.DestroyObject(k, s), [k.cap[s]]);
      DroppedVanished(k, s, r, [k.cap[s]]);
    } else if ZombieBefore(k, s) {
      Backward(k.lists, s);
      PrevHolds(k, s, r);
    } else {
      PushDropped(k, s, k, []);
      DroppedVanished(k, s, r, []);
    }
  }

  lemma BeforeIsSame(k: State, s: Slot)
    requires Inv(k) && Holding(k, s) && s in k.lists.on
    ensures ZombieBefore(k, s) ==> SameBefore(k, s)
  {
    NoZombieBefore(k, s);
  }

  lemma DroppedVanished(k: State, s: Slot, r: State, more: seq<Cap>)
    requires Partitioned(k, NULL) && Occupied(k, s) && s in k.lists.on && !ZombieBefore(k, s) && Dropped(k, s, r, more)
    ensures Vanished(k, s, k.cap[s], r) && forall x :: Occupied(r, x) <==> Occupied(k, x) && x != s
    ensures r.destroyed == k.destroyed + more
  {
    FreeNull(k, s, r);
  }

  lemma FreeNull(k: State, s: Slot, r: State)
    requires Partitioned(k, NULL) && Partitioned(r, NULL) && r.owner == k.owner && Occupied(k, s) && !Occupied(r, s)
    ensures s in r.cap && r.cap[s].NullCap?
  {
    assert SlotOk(k, NULL, s) && Owned(r, s);
  }

  lemma PrevHolds(k: State, s: Slot, r: State)
    requires Inv(k) && Holding(k, s) && s in k.lists.on && ZombieBefore(k, s)
    requires var p := k.lists.Prev(s); p in k.cap && r == RevokeZombie(k, p)
    ensures Vanished(k, s, k.cap[s], r) && r.destroyed == k.destroyed
    ensures forall x :: Occupied(r, x) <==> Occupied(k, x) && x != s
  {
    hide Lawful, Ledger, RevokeZombie;
    Backward(k.lists, s);
    var p := k.lists.Prev(s);
    RevokeZombieTakes(k, p);
    StandsForNext(k, p, s);
    TakenVanished(k, s, p, r);
  }

  /** A zombie stands for what the slot behind it stands for. */
  lemma StandsForNext(k: State, p: Slot, s: Slot)
    requires Partitioned(k, NULL) && p in k.lists.on && s in k.lists.on && k.cap[p].ZombieCap?
    requires SameList(k, p, s) && k.lists.Placed(p) && k.lists.at[p] + 1 == k.lists.at[s]
    ensures Resolve(k, p) == Resolve(k, s)
  {
    Neighbour(k.lists, p);
    assert k.lists.Placed(s);
    Same(k.lists, s, k.lists.Next(p));
  }

  lemma TakenVanished(k: State, s: Slot, p: Slot, r: State)
    requires Partitioned(k, NULL) && Holding(k, s) && s in k.lists.on && ZombieBefore(k, s) && p == k.lists.Prev(s)
    requires TakenBack(k, p, s, r)
    ensures Vanished(k, s, k.cap[s], r) && r.destroyed == k.destroyed
    ensures forall x :: Occupied(r, x) <==> Occupied(k, x) && x != s
  {
    Backward(k.lists, s);
    forall x ensures Occupied(r, x) <==> Occupied(k, x) && x != s {
      if Occupied(k, x) { assert SlotOk(k, NULL, x); Same(k.lists, s, x); }
    }
    FreeNull(k, s, r);
  }

  // ---------------------------------------------------------------- destroying, revocation included

  /**
   After the revocation that `destroy_cap` begins with, `s` holds what it stood for, and its neighbours are the same.
   */
  ghost predicate Bared(k: State, s: Slot, q: Slot, m: State)
    requires k.lists.Ok() && s in k.lists.on && (forall x :: x in k.lists.on ==> x in k.cap) && q in k.cap
    requires q in k.lists.on
  {
    && Partitioned(m, NULL) && Holding(m, s) && s in m.lists.on && m.cap[s] == k.cap[q]
    && Sub(k, m) && m.owner == k.owner && m.reserved == k.reserved && m.spaces == k.spaces && m.made == k.made
    && (forall x :: x != s ==> CapKept(k, m, x))
    && (forall x :: Occupied(m, x) <==> Occupied(k, x) && (Goes(k, s, q, x) ==> x == s))
    && k.lists.Placed(s) && m.lists.Placed(s) && m.lists.Prev(s) == k.lists.Prev(s)
    && (ZombieBefore(m, s) <==> ZombieBefore(k, s))
    && (SameBefore(m, s) <==> SameBefore(k, s))
    && (SameBehind(m, s) <==> SameBehind(k, q))
  }

  lemma BaredVanishes(k: State, s: Slot, q: Slot, m: State, r: State)
    requires Partitioned(k, NULL) && Occupied(k, s) && s in k.lists.on && Holding(k, q) && q in k.lists.on
    requires Bared(k, s, q, m)
    requires Vanished(m, s, k.cap[q], r) && forall x :: Occupied(r, x) <==> Occupied(m, x) && x != s
    ensures Vanished(k, s, k.cap[q], r) && forall x :: Occupied(r, x) <==> Occupied(k, x) && !Goes(k, s, q, x)
  {
    forall x, y ensures OrderKept(k, r, x, y) { assert OrderKept(k, m, x, y) && OrderKept(m, r, x, y); }
    var p := k.lists.Prev(s);
    Backward(k.lists, s);
    forall x | !(ZombieBefore(k, s) && x == p) ensures CapKept(k, r, x) {
      assert CapKept(m, r, x) && (x != s ==> CapKept(k, m, x));
    }
  }

  lemma Bare(k: State, s: Slot)
    requires Inv(k) && Occupied(k, s)
    ensures s in k.lists.on && Holding(k, Resolve(k, s)) && Bared(k, s, Resolve(k, s), Strip(k, s))
  {
    ResolveLive(k, s);
    if k.cap[s].ZombieCap? {
      BareZombie(k, s, Resolve(k, s), Strip(k, s));
    } else if k.cap[s].MemCap? {
      BareMem(k, s, Strip(k, s));
    } else {
      forall x ensures Occupied(k, x) <==> Occupied(k, x) && (Goes(k, s, s, x) ==> x == s) { }
    }
  }

  lemma BareMem(k: State, s: Slot, m: State)
    requires Inv(k) && Inv(m) && Holding(k, s) && k.cap[s].MemCap? && s in k.lists.on && m == RevokeMem(k, s)
    ensures Bared(k, s, s, m)
  {
    hide Lawful, Ledger, RevokeMem, IsSame;
    assert Cut(k, s, m) && CapKept(k, m, s) && Occupied(m, s) && SlotOk(m, NULL, s) && SlotOk(k, NULL, s);
    BeforeStays(k, s, m);
    MemNeighbours(k, s);
    MemNeighbours(m, s);
  }

  lemma BeforeStays(k: State, s: Slot, m: State)
    requires Partitioned(k, NULL) && Partitioned(m, NULL) && Sub(k, m) && Occupied(k, s) && Occupied(m, s)
    requires s in k.lists.on && s in m.lists.on && forall x :: x != s ==> CapKept(k, m, x)
    requires forall x :: Occupied(k, x) && Before(k, x, s) ==> Occupied(m, x)
    ensures k.lists.Placed(s) && m.lists.Placed(s) && m.lists.Prev(s) == k.lists.Prev(s)
    ensures ZombieBefore(m, s) <==> ZombieBefore(k, s)
  {
    Backward(k.lists, s);
    var p := k.lists.Prev(s);
    if p != NULL {
      PrevOccupied(k, s);
      assert CapKept(k, m, p);
    }
    PrevStays(k, m, s);
  }

  lemma BareZombie(k: State, s: Slot, q: Slot, m: State)
    requires Inv(k) && Inv(m) && Occupied(k, s) && k.cap[s].ZombieCap? && s in k.lists.on && q == Resolve(k, s)
    requires Holding(k, q) && m == RevokeZombie(k, s)
    ensures Bared(k, s, q, m)
  {
    hide Lawful, Ledger, RevokeZombie;
    ResolveBehind(k, s);
    RevokeZombieTakes(k, s);
    BareTaken(k, s, q, m);
  }

  lemma BareTaken(k: State, s: Slot, q: Slot, m: State)
    requires Sound(k) && Sound(m) && Occupied(k, s) && k.cap[s].ZombieCap? && s in k.lists.on && q == Resolve(k, s)
    requires Holding(k, q) && Before(k, s, q) && TakenBack(k, s, q, m)
    ensures Bared(k, s, q, m)
  {
    assert Occupied(m, s) && SlotOk(m, NULL, s);
    BeforeStays(k, s, m);
    TakenBefore(k, s, q, m);
    TakenBehind(k, s, q, m);
  }

  lemma TakenBefore(k: State, s: Slot, q: Slot, m: State)
    requires Sound(k) && Sound(m) && Occupied(k, s) && k.cap[s].ZombieCap? && s in k.lists.on && q == Resolve(k, s)
    requires Holding(k, q) && Before(k, s, q) && TakenBack(k, s, q, m) && s in m.lists.on
    requires k.lists.Placed(s) && m.lists.Placed(s) && m.lists.Prev(s) == k.lists.Prev(s)
    ensures SameBefore(m, s) <==> SameBefore(k, s)
  {
    Backward(k.lists, s);
    Backward(m.lists, s);
    var p := k.lists.Prev(s);
    if p != NULL {
      PrevOccupied(m, s);
      assert CapKept(k, m, p);
      if k.cap[p].ZombieCap? {
        StandsForNext(k, p, s);
        StandsForNext(m, p, s);
      }
    }
  }

  /** `q` and, once it has taken the capability of `q` back, `s` have the same slot behind them. */
  lemma NextStays(k: State, s: Slot, q: Slot, m: State)
    requires Sound(k) && Sound(m) && Occupied(k, s) && s in k.lists.on && q in k.lists.on
    requires Holding(k, q) && Before(k, s, q) && TakenBack(k, s, q, m) && s in m.lists.on
    ensures k.lists.Placed(q) && m.lists.Placed(s) && m.lists.Next(s) == k.lists.Next(q)
    ensures k.lists.Next(q) != NULL ==> Occupied(m, k.lists.Next(q)) && Before(k, q, k.lists.Next(q))
  {
    Neighbour(k.lists, q);
    Neighbour(m.lists, s);
    var n, o := k.lists.Next(q), m.lists.Next(s);
    if n != NULL {
      NextOccupied(k, q);
      assert OrderKept(k, m, s, n) && Before(m, s, n) && SlotOk(m, NULL, n);
    }
    if o != NULL {
      NextOccupied(m, s);
      assert OrderKept(k, m, s, o) && Before(k, s, o) && Before(k, q, o) && SlotOk(k, NULL, o);
      if n != NULL { assert OrderKept(k, m, n, o); Same(k.lists, n, o); Same(m.lists, n, o); }
    }
  }

  lemma TakenBehind(k: State, s: Slot, q: Slot, m: State)
    requires Sound(k) && Sound(m) && Occupied(k, s) && s in k.lists.on && q in k.lists.on
    requires Holding(k, q) && Before(k, s, q) && TakenBack(k, s, q, m) && s in m.lists.on
    ensures SameBehind(m, s) <==> SameBehind(k, q)
  {
    NextStays(k, s, q, m);
    var n := k.lists.Next(q);
    if n != NULL {
      ResolveLive(k, n);
      var y := Resolve(k, n);
      assert Occupied(m, y) && CapKept(k, m, y) && y != s && y != q;
      ResolveStays(k, m, s, n);
    }
  }

  /**
   What `destroy_cap` does when it succeeds.  `q` is what `s` stands for; its object is destroyed exactly when no
   neighbour stands for it too.
   */
  lemma DestroyMeans(k: State, s: Slot)
    requires Inv(k) && Occupied(k, s) && Destroy(k, s).1.Done?
    ensures s in k.lists.on && Holding(k, Resolve(k, s)) && Destroy(k, s).1 == Done(s)
    ensures
      var q, r := Resolve(k, s), Destroy(k, s).0;
      && Vanished(k, s, k.cap[q], r)
      && (forall x :: Occupied(r, x) <==> Occupied(k, x) && !Goes(k, s, q, x))
      && r.destroyed == Revoke(k, s).0.destroyed + (if !SameBefore(k, s) && !SameBehind(k, q) then [k.cap[q]] else [])
  {
    hide Lawful, Ledger, Strip, DestroyHeld, Revoke, IsSame;
    Bare(k, s);
    var m := Strip(k, s);
    HeldVanishes(m, s);
    BaredVanishes(k, s, Resolve(k, s), m, DestroyHeld(m, s).0);
    StripRevokes(k, s);
  }

  lemma StripRevokes(k: State, s: Slot)
    requires Inv(k) && Occupied(k, s)
    ensures Strip(k, s) == Revoke(k, s).0
  {
  }

  // ---------------------------------------------------------------- killed tasks

  /** From number `n` on, the record of destroyed capabilities has one of task `t`. */
  ghost predicate Dies(r: State, n: nat, t: Task) {
    exists i :: n <= i < |r.destroyed| && r.destroyed[i].TaskCap? && r.destroyed[i].task == t
  }

  /** Killed since `k` are exactly the tasks whose object was destroyed since. */
  ghost predicate Kills(k: State, r: State) {
    k.destroyed <= r.destroyed && forall t :: t in r.killed <==> t in k.killed || Dies(r, |k.destroyed|, t)
  }

  lemma KillsNone(k: State, r: State)
    requires r.killed == k.killed && r.destroyed == k.destroyed
    ensures Kills(k, r)
  {
  }

  lemma KillsTwice(k: State, m: State, r: State)
    requires Kills(k, m) && Kills(m, r)
    ensures Kills(k, r)
  {
    forall t ensures Dies(r, |k.destroyed|, t) <==> Dies(m, |k.destroyed|, t) || Dies(r, |m.destroyed|, t) {
      if Dies(m, |k.destroyed|, t) {
        var i :| |k.destroyed| <= i < |m.destroyed| && m.destroyed[i].TaskCap? && m.destroyed[i].task == t;
        assert r.destroyed[i] == m.destroyed[i];
      }
      if Dies(r, |k.destroyed|, t) {
        var i :| |k.destroyed| <= i < |r.destroyed| && r.destroyed[i].TaskCap? && r.destroyed[i].task == t;
        if i < |m.destroyed| { assert m.destroyed[i] == r.destroyed[i]; }
      }
    }
  }

  lemma KillsOne(k: State, r: State, c: Cap)
    requires r.destroyed == k.destroyed + [c]
    requires r.killed == if c.TaskCap? then k.killed + {c.task} else k.killed
    ensures Kills(k, r)
  {
    assert r.destroyed[|k.destroyed|] == c;
  }

  lemma TailKills(k: State, s: Slot)
    requires Partitioned(k, NULL) && Occupied(k, s)
    ensures Kills(k, DestroyTail(k, s))
  {
    hide Kills, IsSame;
    assert SlotOk(k, NULL, s);
    ReleasePartitioned(k, s);
    PushFrees(Release(k, s), s);
    var m, r := Release(k, s), DestroyTail(k, s);
    KillsNone(m, r);
    ReleaseKills(k, s);
    KillsTwice(k, m, r);
  }

  lemma ReleaseKills(k: State, s: Slot)
    requires Partitioned(k, NULL) && Occupied(k, s)
    ensures s in k.lists.on && Kills(k, Release(k, s))
  {
    hide Kills, IsSame;
    assert SlotOk(k, NULL, s);
    Backward(k.lists, s);
    if Release(k, s) == CapOps.DestroyObject(k, s) {
      KillsOne(k, Release(k, s), k.cap[s]);
    } else {
      KillsNone(k, Release(k, s));
    }
  }

  lemma {:induction false} RevokeMemKills(k: State, s: Slot)
    requires Inv(k) && Holding(k, s)
    ensures k.lists.Placed(s) && Kills(k, RevokeMem(k, s))
    decreases k.lists.Placed(s), if k.lists.Placed(s) then |k.lists.Of(s)| - k.lists.at[s] else 0
  {
    hide Lawful, ZombiesOk, Ledger, DestroyTail, Kills;
    assert SlotOk(k, NULL, s);
    if Last(k, s) {
      KillsNone(k, k);
    } else {
      TailOccupied(k, s);
      var t := Tail(k, s);
      TailFacts(k, s, t);
      var m := DestroyTail(k, t);
      TailKills(k, t);
      RevokeMemKills(m, s);
      KillsTwice(k, m, RevokeMem(m, s));
    }
  }

  lemma RevokeKills(k: Kernel, s: Slot)
    requires s in k.cap
    ensures Kills(k, Revoke(k, s).0)
  {
    hide Kills, RevokeMem, RevokeZombie;
    if k.cap[s].MemCap? {
      RevokeMemKills(k, s);
    } else {
      if k.cap[s].ZombieCap? { RevokeZombieTakes(k, s); }
      KillsNone(k, Revoke(k, s).0);
    }
  }

  lemma HeldKills(k: State, s: Slot)
    requires Inv(k) && Holding(k, s)
    ensures Kills(k, DestroyHeld(k, s).0)
  {
    hide Kills, IsSame, RevokeZombie, Lawful, Ledger, ZombiesOk;
    assert SlotOk(k, NULL, s);
    var r := DestroyHeld(k, s);
    if !SameBefore(k, s) && !SameBehind(k, s) {
      if r.1.Done? {
        DestroyPartitioned(k, s);
        PushFrees(CapOps.DestroyObject(k, s), s);
        KillsOne(k, r.0, k.cap[s]);
      } else {
        KillsNone(k, k);
      }
    } else {
      if ZombieBefore(k, s) {
        Backward(k.lists, s);
        RevokeZombieTakes(k, k.lists.Prev(s));
      }
      KillsNone(k, r.0);
    }
  }

  lemma DestroyKills(k: Kernel, s: Slot)
    requires s in k.cap
    ensures Kills(k, Destroy(k, s).0)
  {
    hide Kills, Strip, DestroyHeld, Revoke;
    if k.cap[s].NullCap? {
      KillsNone(k, k);
    } else {
      StripRevokes(k, s);
      RevokeKills(k, s);
      HeldKills(Strip(k, s), s);
      KillsTwice(k, Strip(k, s), Destroy(k, s).0);
    }
  }

  predicate SameLosses(k: State, r: State) { r.killed == k.killed && r.destroyed == k.destroyed }

  lemma TransferLoses(k: Kernel, t: Task, s: Slot)
    requires s in k.cap
    ensures SameLosses(k, Transfer(k, t, s).0)
  {
    hide Lawful, Ledger, ZombiesOk, Partitioned;
  }

  lemma DelegateLoses(k: Kernel, t: Task, s: Slot)
    requires s in k.cap
    ensures SameLosses(k, Delegate(k, t, s).0)
  {
    hide Lawful, Ledger, ZombiesOk, Partitioned, PutBehind;
    if Delegate(k, t, s).1.Done? { PutBehindGrows(k, t, k.cap[s], s, ZombieCap); }
  }

  lemma CopyLoses(k: Kernel, s: Slot)
    requires s in k.cap
    ensures SameLosses(k, Copy(k, s).0)
  {
    hide Lawful, Ledger, ZombiesOk, PutBehind;
    assert SlotOk(k, NULL, s);
    if Shared(k.cap[s]) && Copy(k, s).1.Done? { PutBehindGrows(k, k.owner[s], k.cap[s], s, k.cap[s]); }
  }

  lemma CreateLoses(k: Kernel, t: Task, s: Slot, kind: Kind)
    requires Legal(k, CreateObject(t, s, kind))
    ensures SameLosses(k, Create(k, t, s, kind).0)
  {
    hide PutBehind, PopPush, Lawful, Ledger, ZombiesOk, Partitioned;
    if Create(k, t, s, kind).1.Done? {
      CreateMakes(k, t, s, kind);
    } else if k.cap[s].MemCap? && CanTake(k, t) {
      PopPushLoses(k, t);
    }
  }

  lemma PopPushLoses(k: State, t: Task)
    requires Partitioned(k, NULL) && t in k.free && k.free[t] != NULL
    ensures SameLosses(k, PopPush(k, t))
  {
    hide Partitioned;
    PoppedPushable(k, t);
  }

  /** Only `destroy_cap` and `revoke_cap` destroy objects, and kill tasks with them. */
  lemma LosesNone(k: Kernel, op: Op)
    requires Legal(k, op) && !op.RevokeCap? && !op.DestroyCap? && !op.Kill?
    ensures SameLosses(k, Step(k, op).0)
  {
    hide SameLosses, Transfer, Delegate, Copy, Create, Inv;
    match op
    case NewTask(t) => StepLoses(k, op);
    case NewSpace(t, page) => StepLoses(k, op);
    case Boot(t, c) => StepLoses(k, op);
    case NewId(t, v1, v2, v3) => StepLoses(k, op);
    case CreateObject(t, s, kind) => CreateLoses(k, t, s, kind);
    case CopyCap(s) => CopyLoses(k, s);
    case TransferCap(t, s) => TransferLoses(k, t, s);
    case DelegateCap(t, s) => DelegateLoses(k, t, s);
  }

  lemma StepLoses(k: Kernel, op: Op)
    requires Legal(k, op) && (op.NewTask? || op.NewSpace? || op.Boot? || op.NewId?)
    ensures SameLosses(k, Step(k, op).0)
  {
    hide Inv, AddSlots, Transfer, Delegate, Copy, Create, Partitioned;
  }

  /** A step kills exactly the task that it names, if it is `kill_task`, or the tasks that it destroys. */
  lemma StepKills(k: Kernel, op: Op)
    requires Legal(k, op)
    ensures if op.Kill? then Step(k, op).0.killed == k.killed + {op.t} else Kills(k, Step(k, op).0)
  {
    hide Kills, Revoke, Destroy, Transfer, Delegate, Copy, Create;
    if op.RevokeCap? {
      RevokeKills(k, op.s);
    } else if op.DestroyCap? {
      DestroyKills(k, op.s);
    } else if !op.Kill? {
      LosesNone(k, op);
      KillsNone(k, Step(k, op).0);
    }
  }
}
