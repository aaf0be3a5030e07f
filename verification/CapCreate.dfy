/** Creating objects from memory capabilities, and giving capabilities to the root task at boot. */
module CapCreate {
  import opened SlotLinks
  import opened Capability
  import opened Carving
  import opened Derivation
  import opened Lineage
  import opened CapOps
  import opened CapMoves

  /** What can be created from a memory capability. */
  datatype Kind =
    | NewMem(size: nat, align: nat)
    | NewTask
    | NewEndpoint
    | NewPageTable
    | NewVirtPage(level: nat)
    | NewCapSpace

  function KindSize(kind: Kind): (n: nat) {
    match kind
    case NewMem(size, _) => size
    case NewEndpoint => ENDPOINT_SIZE
    case NewVirtPage(level) => PageSize(level)
    case _ => PAGE_SIZE
  }

  function KindAlign(kind: Kind): (n: nat) {
    if kind.NewMem? then kind.align else KindSize(kind)
  }

  /** Rights of a new task capability: all seven. */
  const ALL_RIGHTS: nat := 127

  function NewCap(kind: Kind, device: bool, base: nat): (c: Cap)
    ensures !c.NullCap? && Live(c) && Placed(c) && Lo(c) == base && Size(c) == KindSize(kind)
  {
    match kind
    case NewMem(size, _) => MemCap(device, base, size, 0)
    case NewTask => TaskCap(base, ALL_RIGHTS)
    case NewEndpoint => EndpointCap(base)
    case NewPageTable => PageTableCap(base)
    case NewVirtPage(level) => VirtPageCap(base, level)
    case NewCapSpace => CapSpaceCap(base)
  }

  /** Device memory backs only memory and virtual pages; pages have a level. */
  predicate Allowed(kind: Kind, c: Cap)
    requires c.MemCap?
  {
    && (c.device ==> kind.NewMem? || kind.NewVirtPage?)
    && (kind.NewVirtPage? ==> kind.level <= MAX_LEVEL)
  }

  /** What `create_object` leaves, and how it ends. */
  ghost function Create(k: State, t: Task, s: Slot, kind: Kind): (r: (State, Outcome))
    requires Inv(k) && s in k.cap
  {
    if !k.cap[s].MemCap? || t in k.killed || t !in k.free || k.free[t] == NULL then (k, Refused)
    else
      var c := k.cap[s];
      if !Allowed(kind, c) then (PopPush(k, t), Refused)
      else
        match Carve(c, KindSize(kind), KindAlign(kind))
        case TooLittle => (PopPush(k, t), Refused)
        case OutOfRange => (k, Halted)
        case Carved(base, used) =>
          var n := NewCap(kind, c.device, base);
          var r := PutBehind(k, t, n, s, c.(used := used));
          (r.(made := if Shared(n) then k.made + [n] else k.made), Done(k.free[t]))
  }

  /** A slot is popped and, as nothing came of it, pushed back. */
  ghost function PopPush(k: State, t: Task): (r: State)
    requires Partitioned(k, NULL) && t in k.free && k.free[t] != NULL
  {
    PoppedPushable(k, t);
    Push(Pop(k, t), k.free[t])
  }

  lemma PoppedPushable(k: State, t: Task)
    requires Partitioned(k, NULL) && t in k.free && k.free[t] != NULL
    ensures HeadOk(k, t)
    ensures
      var m, d := Pop(k, t), k.free[t];
      && Partitioned(m, d) && d in m.lists.on && d in m.owner && m.owner[d] == t && d !in m.reserved
      && HeadOk(m, t) && !OnFreeOf(m, t, d)
  {
    PopPartitioned(k, t);
    assert HeadOk(k, t);
    var m, d := Pop(k, t), k.free[t];
    assert SlotOk(k, NULL, d) && FreeOwn(k, t, d) && SlotOk(m, d, d);
  }

  /** Nothing that was occupied changed. */
  ghost predicate Untouched(k: State, r: State) {
    && Partitioned(r, NULL)
    && (forall x :: Occupied(r, x) <==> Occupied(k, x))
    && (forall x :: CapKept(k, r, x))
    && (forall x :: Unmoved(k, r, x))
    && r.made == k.made && r.destroyed == k.destroyed
  }

  lemma UntouchedKeeps(k: State, r: State)
    requires Inv(k) && Untouched(k, r)
    ensures Inv(r)
  {
    forall x | x in r.cap && r.cap[x].ZombieCap? ensures NotLast(r, x) {
      assert CapKept(k, r, x) && NotLast(k, x) && Unmoved(k, r, x);
    }
    UntouchedOrder(k, r);
    DropEmbeds(k, r);
    EmbeddedLawful(r, k, Identity(k));
    forall x | x in k.cap && Shared(k.cap[x]) ensures Alive(r, k.cap[x]) {
      assert Occupied(k, x) && Occupied(r, x) && CapKept(k, r, x) && SameShared(r.cap[x], k.cap[x]);
    }
    LedgerSame(k, r, Identity(k));
  }

  lemma UntouchedOrder(k: State, r: State)
    requires Untouched(k, r)
    ensures Sub(k, r)
  {
    forall x, y ensures OrderKept(k, r, x, y) {
      assert Unmoved(k, r, x) && Unmoved(k, r, y);
    }
  }

  lemma PopPushUntouched(k: State, t: Task)
    requires Partitioned(k, NULL) && t in k.free && k.free[t] != NULL
    ensures Untouched(k, PopPush(k, t))
  {
    PoppedPushable(k, t);
    var m, d := Pop(k, t), k.free[t];
    PushPartitioned(m, d, d);
    assert SlotOk(k, NULL, d);
    forall x ensures Unmoved(k, m, x) {
      if Occupied(k, x) {
        NullsApart(k, d, x);
        PopUnmoved(k, t, x);
      }
    }
    PushBackUntouched(k, t, m, d, Push(m, d));
  }

  lemma PushBackUntouched(k: State, t: Task, m: State, d: Slot, r: State)
    requires Partitioned(m, d) && d in m.lists.on && d in m.owner && Pushed(m, d, r) && Partitioned(r, NULL)
    requires m.cap == k.cap && m.owner == k.owner && m.reserved == k.reserved && m.spaces == k.spaces
    requires m.made == k.made && m.destroyed == k.destroyed
    requires d in k.cap && k.cap[d].NullCap? && forall x :: Unmoved(k, m, x)
    ensures Untouched(k, r)
  {
    SameCaps(k, d, r);
    forall x ensures Unmoved(k, r, x) {
      if Occupied(k, x) { PushBackUnmoved(k, t, m, d, r, x); }
    }
  }

  lemma SameCaps(k: State, d: Slot, r: State)
    requires d in k.cap && k.cap[d].NullCap? && r.cap == k.cap[d := NullCap]
    ensures forall x :: Occupied(r, x) <==> Occupied(k, x)
    ensures forall x :: CapKept(k, r, x)
  {
  }

  lemma PushBackUnmoved(k: State, t: Task, m: State, d: Slot, r: State, x: Slot)
    requires Partitioned(m, d) && d in m.lists.on && d in m.owner && Pushed(m, d, r) && Occupied(m, x)
    requires Unmoved(k, m, x) && Occupied(k, x)
    ensures Unmoved(k, r, x)
  {
    var h := m.free[m.owner[d]];
    assert MovedTo(m.lists, r.lists, h, d, x) && SlotOk(m, d, x) && SlotOk(m, d, d);
    Same(m.lists, d, x);
    assert HeadOk(m, m.owner[d]);
    if h != NULL { assert FreeOwn(m, m.owner[d], h) && FreeOwn(m, m.owner[d], x) && SlotOk(m, d, h); }
  }

  // ---------------------------------------------------------------- an object behind the memory it came from

  /** `n` is carved from the unused part of `k.cap[s]`, whose used part then reaches to the end of `n`. */
  predicate CarvedFrom(c: Cap, n: Cap, used: nat) {
    && c.MemCap? && WellSized(c) && Placed(n) && 0 < Size(n)
    && c.base + c.used <= Lo(n) && Hi(n) == c.base + used && used <= c.size
  }

  /** Nothing held or destroyed overlaps the unused part of a held memory capability, but its ancestors. */
  lemma CarvedApart(k: State, s: Slot, n: Cap, used: nat, x: Slot)
    requires Lawful(k) && s in k.cap && x in k.cap && x != s && CarvedFrom(k.cap[s], n, used)
    ensures !SameShared(n, k.cap[x])
    ensures Placed(k.cap[x]) ==> Apart(n, k.cap[x]) || (Before(k, x, s) && Within(n, k.cap[x]))
  {
    assert Nested(k, s, x);
    assert WellSized(k.cap[x]);
  }

  /** The new object is in `d`, just behind `s`; only `s`'s used size changed besides. */
  lemma CreatedKeeps(k: State, s: Slot, d: Slot, n: Cap, used: nat, r: State)
    requires Inv(k) && s in k.cap && CarvedFrom(k.cap[s], n, used) && WellSized(n) && (n.MemCap? ==> n.used == 0)
    requires Grown(k, s, d, r) && Capped(k, n, s, d, k.cap[s].(used := used), r.(made := k.made))
    requires r.made == if Shared(n) then k.made + [n] else k.made
    ensures Inv(r)
  {
    forall x | x != s && x != d ensures CapKept(k, r, x) { assert CapKept(k, r.(made := k.made), x); }
    GrownZombies(k, s, d, r);
    CreatedLawful(k, s, d, n, used, r);
    CreatedLedger(k, s, d, n, used, r);
  }

  lemma CreatedLawful(k: State, s: Slot, d: Slot, n: Cap, used: nat, r: State)
    requires Created(k, s, d, n, used, r) && WellSized(n)
    ensures Lawful(r)
  {
    forall x, y, z ensures Unbroken(r, x, y, z) { CreatedUnbroken(k, s, d, n, used, r, x, y, z); }
    forall x, y ensures OneList(r, x, y) { CreatedOneList(k, s, d, n, used, r, x, y); }
    forall x, y ensures Nested(r, x, y) { CreatedNested(k, s, d, n, used, r, x, y); }
    forall x | x in r.cap ensures WellSized(r.cap[x]) { if x != s && x != d { assert CapKept(k, r, x); } }
  }

  /** What `CreatedKeeps` knows, without the record of objects. */
  ghost predicate Created(k: State, s: Slot, d: Slot, n: Cap, used: nat, r: State) {
    && Lawful(k) && s in k.cap && CarvedFrom(k.cap[s], n, used) && (n.MemCap? ==> n.used == 0)
    && Grown(k, s, d, r)
    && d != s && d in r.cap && s in r.cap && r.cap[d] == n && r.cap[s] == k.cap[s].(used := used)
    && (forall x :: x != s && x != d ==> CapKept(k, r, x))
  }

  lemma CreatedUnbroken(k: State, s: Slot, d: Slot, n: Cap, used: nat, r: State, x: Slot, y: Slot, z: Slot)
    requires Created(k, s, d, n, used, r)
    ensures Unbroken(r, x, y, z)
  {
    if
      && Holding(r, x) && Holding(r, y) && Holding(r, z)
      && Before(r, x, y) && Before(r, y, z) && SameShared(r.cap[x], r.cap[z])
    {
      CreatedShared(k, s, d, n, used, r, x, z);
      assert OrderGrown(k, s, d, r, x, y) && OrderGrown(k, s, d, r, y, z) && OrderGrown(k, s, d, r, x, z);
      assert Unbroken(k, x, y, z) && Unbroken(k, x, s, z);
      assert y != s && y != d ==> CapKept(k, r, y);
      assert Occupied(r, y) ==> y == d || Occupied(k, y);
    }
  }

  /** A new shared object is new: two slots that hold one object in `r` held it in `k`. */
  lemma CreatedShared(k: State, s: Slot, d: Slot, n: Cap, used: nat, r: State, x: Slot, z: Slot)
    requires Created(k, s, d, n, used, r) && Holding(r, x) && Holding(r, z) && x != z && SameShared(r.cap[x], r.cap[z])
    ensures x != d && z != d && x != s && z != s && Holding(k, x) && Holding(k, z)
    ensures k.cap[x] == r.cap[x] && k.cap[z] == r.cap[z]
  {
    assert x != s && x != d ==> CapKept(k, r, x);
    assert z != s && z != d ==> CapKept(k, r, z);
    if x == d {
      CarvedApart(k, s, n, used, z);
    } else if z == d {
      CarvedApart(k, s, n, used, x);
      SharedTrans(r.cap[x], r.cap[z], r.cap[x]);
    }
  }

  lemma CreatedOneList(k: State, s: Slot, d: Slot, n: Cap, used: nat, r: State, x: Slot, y: Slot)
    requires Created(k, s, d, n, used, r)
    ensures OneList(r, x, y)
  {
    if Holding(r, x) && Holding(r, y) && SameShared(r.cap[x], r.cap[y]) {
      assert x in r.lists.on;
      if x != y {
        CreatedShared(k, s, d, n, used, r, x, y);
        assert OneList(k, x, y) && OrderGrown(k, s, d, r, x, y);
      }
    }
  }

  lemma CreatedNested(k: State, s: Slot, d: Slot, n: Cap, used: nat, r: State, x: Slot, y: Slot)
    requires Created(k, s, d, n, used, r)
    ensures Nested(r, x, y)
  {
    if x != y && x in r.cap && y in r.cap && Placed(r.cap[x]) && Placed(r.cap[y]) {
      assert Occupied(r, x) && Occupied(r, y);
      assert OrderGrown(k, s, d, r, x, y) && OrderGrown(k, s, d, r, y, x);
      if x == d {
        CreatedNestedNew(k, s, d, n, used, r, y);
      } else if y == d {
        CreatedNestedNew(k, s, d, n, used, r, x);
        SharedTrans(r.cap[d], r.cap[x], r.cap[d]);
      } else {
        assert x != s ==> CapKept(k, r, x);
        assert y != s ==> CapKept(k, r, y);
        assert Nested(k, x, y);
      }
    }
  }

  lemma CreatedNestedNew(k: State, s: Slot, d: Slot, n: Cap, used: nat, r: State, y: Slot)
    requires Created(k, s, d, n, used, r) && y != d && y in r.cap && Placed(r.cap[y])
    ensures Nested(r, d, y)
  {
    assert Occupied(r, y) && OrderGrown(k, s, d, r, d, y) && OrderGrown(k, s, d, r, y, d);
    if y != s {
      assert CapKept(k, r, y);
      CarvedApart(k, s, n, used, y);
    }
  }

  lemma CreatedLedger(k: State, s: Slot, d: Slot, n: Cap, used: nat, r: State)
    requires Created(k, s, d, n, used, r) && Ledger(k) && r.destroyed == k.destroyed
    requires r.made == if Shared(n) then k.made + [n] else k.made
    ensures Ledger(r)
  {
    forall i, x | 0 <= i < |r.destroyed| && x in r.cap ensures DeadApart(r.destroyed[i], r.cap[x]) {
      assert DeadApart(k.destroyed[i], k.cap[s]);
      if x != s && x != d {
        assert CapKept(k, r, x);
        if Occupied(r, x) { assert DeadApart(k.destroyed[i], k.cap[x]); }
      }
    }
    forall i | 0 <= i < |r.made| ensures Alive(r, r.made[i]) || Gone(r, r.made[i]) {
      if i < |k.made| {
        CreatedMade(k, s, d, n, used, r, k.made[i]);
      } else {
        assert SameShared(r.cap[d], r.made[i]);
      }
    }
  }

  lemma CreatedMade(k: State, s: Slot, d: Slot, n: Cap, used: nat, r: State, c: Cap)
    requires Created(k, s, d, n, used, r) && r.destroyed == k.destroyed && (Alive(k, c) || Gone(k, c))
    ensures Alive(r, c) || Gone(r, c)
  {
    if Alive(k, c) {
      var x :| x in k.cap && SameShared(k.cap[x], c);
      assert x != s && x != d && Occupied(k, x) && Occupied(r, x) && CapKept(k, r, x);
    }
  }

  /**
   Creating an object keeps every invariant, provided the next aligned address does not pass the end of the memory.
   */
  lemma CreateKeeps(k: State, t: Task, s: Slot, kind: Kind)
    requires Inv(k) && s in k.cap && KindSize(kind) < WORD && KindAlign(kind) < WORD
    requires k.cap[s].MemCap? ==> Fits(k.cap[s], KindAlign(kind))
    ensures Inv(Create(k, t, s, kind).0)
  {
    if k.cap[s].MemCap? && CanTake(k, t) {
      var c := k.cap[s];
      var out := Carve(c, KindSize(kind), KindAlign(kind));
      if !Allowed(kind, c) || out.TooLittle? {
        PopPushUntouched(k, t);
        UntouchedKeeps(k, PopPush(k, t));
      } else if out.Carved? {
        CreateCarvedKeeps(k, t, s, kind, out.base, out.used);
      }
    }
  }

  /** The new object `n` lies, aligned, in the unused part of `c`, whose used part now ends where the object does. */
  predicate CarvedOut(c: Cap, d: Cap, n: Cap, kind: Kind) {
    && c.MemCap? && Placed(n) && (n.MemCap? <==> kind.NewMem?)
    && Size(n) == KindSize(kind) && (KindAlign(kind) > 0 ==> Lo(n) % KindAlign(kind) == 0)
    && c.base + c.used <= Lo(n) && Hi(n) <= c.base + c.size
    && d == c.(used := Hi(n) - c.base)
  }

  /**
   `r` is `k` with a new object in `d`, carved from the memory in `s` and just behind it, and nothing else changed.
   */
  ghost predicate MadeFrom(k: State, s: Slot, d: Slot, kind: Kind, r: State) {
    && d != s && Grown(k, s, d, r) && s in k.cap && s in r.cap && d in r.cap
    && CarvedOut(k.cap[s], r.cap[s], r.cap[d], kind)
    && (forall x :: x != s && x != d ==> CapKept(k, r, x))
    && r.made == (if Shared(r.cap[d]) then k.made + [r.cap[d]] else k.made)
  }

  /** What creating leaves when it succeeds. */
  lemma CreateCarves(k: State, t: Task, s: Slot, kind: Kind)
    requires Inv(k) && s in k.cap && KindSize(kind) < WORD && KindAlign(kind) < WORD
    requires k.cap[s].MemCap? ==> Fits(k.cap[s], KindAlign(kind))
    requires Create(k, t, s, kind).1.Done?
    ensures CanTake(k, t) && Create(k, t, s, kind).1.slot == k.free[t]
    ensures MadeFrom(k, s, k.free[t], kind, Create(k, t, s, kind).0)
  {
    hide MadeFrom, PutBehind, Carve, Fits;
    var c := k.cap[s];
    var out := Carve(c, KindSize(kind), KindAlign(kind));
    CarvedMade(k, t, s, kind, out.base, out.used);
  }

  lemma CarvedMade(k: State, t: Task, s: Slot, kind: Kind, base: nat, used: nat)
    requires Inv(k) && s in k.cap && k.cap[s].MemCap? && CanTake(k, t) && KindSize(kind) < WORD
    requires KindAlign(kind) < WORD
    requires Fits(k.cap[s], KindAlign(kind)) && Carve(k.cap[s], KindSize(kind), KindAlign(kind)) == Carved(base, used)
    ensures
      var c := k.cap[s];
      var n := NewCap(kind, c.device, base);
      MadeFrom(k, s, k.free[t], kind,
        PutBehind(k, t, n, s, c.(used := used)).(made := if Shared(n) then k.made + [n] else k.made))
  {
    hide Grown, Lawful, Sound, Ledger, PutBehind, Carve;
    var c := k.cap[s];
    var n := NewCap(kind, c.device, base);
    WellCarved(k, s, kind, base, used);
    Whole(k);
    PutBehindGrows(k, t, n, s, c.(used := used));
    var m := PutBehind(k, t, n, s, c.(used := used));
    var made := if Shared(n) then k.made + [n] else k.made;
    GrownMade(k, s, k.free[t], m, made);
    SameKept(k, s, k.free[t], m, m.(made := made));
  }

  lemma Whole(k: State)
    requires Inv(k)
    ensures Partitioned(k, NULL)
  {
  }

  lemma WellCarved(k: State, s: Slot, kind: Kind, base: nat, used: nat)
    requires Inv(k) && s in k.cap && k.cap[s].MemCap? && KindSize(kind) < WORD && KindAlign(kind) < WORD
    requires Fits(k.cap[s], KindAlign(kind)) && Carve(k.cap[s], KindSize(kind), KindAlign(kind)) == Carved(base, used)
    ensures CarvedOut(k.cap[s], k.cap[s].(used := used), NewCap(kind, k.cap[s].device, base), kind)
  {
    CarveExact(k.cap[s], KindSize(kind), KindAlign(kind));
  }

  lemma SameKept(k: State, s: Slot, d: Slot, m: State, r: State)
    requires r.cap == m.cap && forall x :: x != s && x != d ==> CapKept(k, m, x)
    ensures forall x :: x != s && x != d ==> CapKept(k, r, x)
  {
    forall x | x != s && x != d ensures CapKept(k, r, x) { assert CapKept(k, m, x); }
  }

  lemma CreateCarvedKeeps(k: State, t: Task, s: Slot, kind: Kind, base: nat, used: nat)
    requires Inv(k) && s in k.cap && k.cap[s].MemCap? && CanTake(k, t) && KindSize(kind) < WORD
    requires KindAlign(kind) < WORD
    requires Fits(k.cap[s], KindAlign(kind)) && Carve(k.cap[s], KindSize(kind), KindAlign(kind)) == Carved(base, used)
    ensures
      var c := k.cap[s];
      var n := NewCap(kind, c.device, base);
      Inv(PutBehind(k, t, n, s, c.(used := used)).(made := if Shared(n) then k.made + [n] else k.made))
  {
    hide PutBehind, Grown, Partitioned, ZombiesOk, Ledger;
    var c := k.cap[s];
    var n := NewCap(kind, c.device, base);
    CarveExact(c, KindSize(kind), KindAlign(kind));
    PutBehindGrows(k, t, n, s, c.(used := used));
    var m := PutBehind(k, t, n, s, c.(used := used));
    GrownMade(k, s, k.free[t], m, if Shared(n) then k.made + [n] else k.made);
    CreatedKeeps(k, s, k.free[t], n, used, m.(made := if Shared(n) then k.made + [n] else k.made));
  }

  lemma GrownMade(k: State, a: Slot, d: Slot, m: State, made: seq<Cap>)
    requires Grown(k, a, d, m)
    ensures Grown(k, a, d, m.(made := made))
  {
    var r := m.(made := made);
    SamePartition(m, r);
    forall x ensures Occupied(r, x) <==> x == d || Occupied(k, x) { assert Occupied(m, x) <==> Occupied(r, x); }
    forall x, y ensures OrderGrown(k, a, d, r, x, y) { assert OrderGrown(k, a, d, m, x, y); }
    forall x ensures StillNotLastAt(k, r, x) { assert StillNotLastAt(k, m, x); }
  }

  // ---------------------------------------------------------------- a capability on a list of its own

  /** `c` overlaps nothing that is held or was destroyed. */
  ghost predicate Foreign(k: State, c: Cap) {
    && WellSized(c) && Live(c)
    && (forall x :: x in k.cap && Placed(k.cap[x]) && Placed(c) ==> Apart(c, k.cap[x]) && !SameShared(c, k.cap[x]))
    && (forall i :: 0 <= i < |k.destroyed| ==> DeadApart(k.destroyed[i], c))
  }

  /** What `insert_cap` leaves, with the record of new objects. */
  ghost function Insert(k: State, t: Task, c: Cap): (r: State)
    requires Partitioned(k, NULL) && CanTake(k, t)
  {
    Take(k, t, c).(made := if Shared(c) then k.made + [c] else k.made)
  }

  /** Identifiers, fresh or copied, and capabilities handed out at boot stand alone and keep every invariant. */
  lemma InsertKeeps(k: State, t: Task, c: Cap)
    requires Inv(k) && CanTake(k, t) && Foreign(k, c)
    ensures Inv(Insert(k, t, c))
  {
    TakeTakes(k, t, c);
    AloneKeeps(k, t, c, k.free[t], Take(k, t, c), Insert(k, t, c));
  }

  lemma AloneKeeps(k: State, t: Task, c: Cap, d: Slot, m: State, r: State)
    requires Inv(k) && Foreign(k, c) && Took(k, t, c, d, m) && r == m.(made := r.made)
    requires r.made == if Shared(c) then k.made + [c] else k.made
    ensures Inv(r)
  {
    SamePartition(m, r);
    forall x | x in r.cap && r.cap[x].ZombieCap? ensures NotLast(r, x) {
      assert x != d && NotLast(k, x) && Unmoved(k, m, x);
    }
    AloneLawful(k, t, c, d, m, r);
    AloneLedger(k, c, d, r);
  }

  lemma AloneLawful(k: State, t: Task, c: Cap, d: Slot, m: State, r: State)
    requires Lawful(k) && Foreign(k, c) && Took(k, t, c, d, m) && r == m.(made := r.made) && Partitioned(r, NULL)
    ensures Lawful(r)
  {
    forall x, y ensures OrderAlone(k, d, r, x, y) { AloneOrder(k, t, c, d, m, r, x, y); }
    AloneOrdered(k, c, d, r);
  }

  predicate OrderAlone(k: State, d: Slot, r: State, x: Slot, y: Slot) {
    Occupied(r, x) && Occupied(r, y) ==>
      && x in r.lists.on
      && (Before(r, x, y) ==> x != d && y != d && Before(k, x, y))
      && (x != d && y != d ==> (Before(k, x, y) ==> Before(r, x, y)) && (SameList(k, x, y) ==> SameList(r, x, y)))
  }

  lemma AloneOrdered(k: State, c: Cap, d: Slot, r: State)
    requires Lawful(k) && Foreign(k, c) && d in k.cap && k.cap[d].NullCap? && r.cap == k.cap[d := c]
    requires forall x, y :: OrderAlone(k, d, r, x, y)
    ensures Lawful(r)
  {
    forall x, y ensures OneList(r, x, y) { AlonePair(k, c, d, r, x, y); }
    forall x, y ensures Nested(r, x, y) { AlonePair(k, c, d, r, x, y); }
    forall x, y, z ensures Unbroken(r, x, y, z) {
      assert OrderAlone(k, d, r, x, y) && OrderAlone(k, d, r, y, z);
      assert Unbroken(k, x, y, z);
    }
  }

  /** The new slot has neither predecessor nor successor; the order of the others did not change. */
  lemma AloneOrder(k: State, t: Task, c: Cap, d: Slot, m: State, r: State, x: Slot, y: Slot)
    requires Took(k, t, c, d, m) && r == m.(made := r.made) && Partitioned(r, NULL)
    ensures OrderAlone(k, d, r, x, y)
  {
    if Occupied(r, x) && Occupied(r, y) {
      assert Unmoved(k, m, x) && Unmoved(k, m, y);
      assert SlotOk(r, NULL, x) && SlotOk(r, NULL, y) && SlotOk(r, NULL, d);
    }
  }

  lemma AlonePair(k: State, c: Cap, d: Slot, r: State, x: Slot, y: Slot)
    requires Lawful(k) && Foreign(k, c) && d in k.cap && k.cap[d].NullCap? && r.cap == k.cap[d := c]
    requires forall x, y :: OrderAlone(k, d, r, x, y)
    ensures OneList(r, x, y) && Nested(r, x, y)
  {
    assert OrderAlone(k, d, r, x, y) && OrderAlone(k, d, r, y, x);
    assert OneList(k, x, y) && Nested(k, x, y);
    if x == d && y in k.cap {
      SharedTrans(c, k.cap[y], c);
    } else if y == d && x in k.cap {
      SharedTrans(c, k.cap[x], c);
      SharedTrans(k.cap[x], c, k.cap[x]);
    }
  }

  lemma AloneLedger(k: State, c: Cap, d: Slot, r: State)
    requires Ledger(k) && Foreign(k, c) && d in k.cap && k.cap[d].NullCap? && r.cap == k.cap[d := c]
    requires r.destroyed == k.destroyed
    requires r.made == if Shared(c) then k.made + [c] else k.made
    ensures Ledger(r)
  {
    forall i | 0 <= i < |r.made| ensures Alive(r, r.made[i]) || Gone(r, r.made[i]) {
      if i < |k.made| {
        if Alive(k, k.made[i]) {
          var x :| x in k.cap && SameShared(k.cap[x], k.made[i]);
          assert x != d && x in r.cap && r.cap[x] == k.cap[x];
        }
      } else {
        assert SameShared(r.cap[d], c);
      }
    }
  }

  // ---------------------------------------------------------------- new tasks and new capability spaces

  const SLOTS_PER_SPACE: nat := 101

  /** What `init_task` records of a task that has no slots yet. */
  function AddTask(k: State, t: Task): (r: State) {
    k.(free := k.free[t := NULL], count := k.count[t := 0], spaces := k.spaces[t := 0])
  }

  /** An empty, zeroed slot of a capability space of `t`, on no free list yet. */
  function Register(k: State, t: Task, s: Slot): (r: State) {
    var l := k.lists;
    k.(lists := Lists(l.on[s := l.limit], l.at[s := 0], l.seqs[l.limit := [s]], l.limit + 1),
       cap := k.cap[s := NullCap],
       owner := k.owner[s := t])
  }

  lemma RegisterHole(k: State, t: Task, s: Slot)
    requires Partitioned(k, NULL) && t in k.free && s != NULL && s !in k.lists.on && s !in k.reserved
    ensures Partitioned(Register(k, t, s), s)
  {
    var r := Register(k, t, s);
    forall x | x in r.lists.on ensures r.lists.Placed(x) { if x != s { assert k.lists.Placed(x); } }
    forall n, i | n in r.lists.seqs && 0 <= i < |r.lists.seqs[n]| ensures r.lists.Holds(n, r.lists.seqs[n][i], i) {
      if n != k.lists.limit { assert k.lists.Holds(n, k.lists.seqs[n][i], i); }
    }
    assert r.lists.at.Keys == r.lists.on.Keys;
    assert r.lists.Ok();
    RegisterSlots(k, t, s, r);
  }

  lemma RegisterSlots(k: State, t: Task, s: Slot, r: State)
    requires Partitioned(k, NULL) && t in k.free && s != NULL && s !in k.lists.on && s !in k.reserved
    requires r == Register(k, t, s) && r.lists.Ok()
    ensures Partitioned(r, s)
  {
    forall u | u in r.free ensures HeadOk(r, u) { assert HeadOk(k, u); }
    forall x | x in r.lists.on ensures SlotOk(r, s, x) { RegisterSlot(k, t, s, r, x); }
    forall u, x ensures FreeOwn(r, u, x) {
      assert FreeOwn(k, u, x);
      if u in k.free && k.free[u] != NULL { assert HeadOk(k, u); Fresh(k.lists, k.free[u]); }
    }
    forall x ensures Owned(r, x) { assert Owned(k, x); }
  }

  lemma RegisterSlot(k: State, t: Task, s: Slot, r: State, x: Slot)
    requires Partitioned(k, NULL) && t in k.free && s != NULL && s !in k.lists.on && s !in k.reserved
    requires r == Register(k, t, s) && r.lists.Ok() && x in r.lists.on
    ensures SlotOk(r, s, x)
  {
    if x != s { assert SlotOk(k, NULL, x); }
    var u := r.owner[x];
    assert HeadOk(k, u);
    if k.free[u] != NULL { Fresh(k.lists, k.free[u]); }
  }
}
