/** Runs of the capability system: what holds in every state that any sequence of operations reaches. */
module CapRuns {
  import opened SlotLinks
  import opened Capability
  import opened Carving
  import opened Derivation
  import opened Lineage
  import opened CapOps
  import opened CapMoves
  import opened CapCreate

  /** The kernel before it has made any task. */
  const EMPTY: State :=
    State(Lists(map[], map[], map[], 0), map[], map[], {}, map[], map[], map[], {}, [], [])

  /** A state in which every invariant holds. */
  type Kernel = k: State | Inv(k) ghost witness EMPTY

  // ---------------------------------------------------------------- new capability spaces

  /** One more null slot of `t`, pushed to its free list. */
  ghost function AddFree(k: State, t: Task, s: Slot): (r: State)
    requires Partitioned(k, NULL) && t in k.free && s != NULL && s !in k.lists.on && s !in k.reserved
  {
    RegisterHole(k, t, s);
    var m := Register(k, t, s);
    assert SlotOk(m, s, s) && HeadOk(m, t);
    Push(m, s)
  }

  lemma AddFreeUntouched(k: State, t: Task, s: Slot)
    requires Partitioned(k, NULL) && t in k.free && s != NULL && s !in k.lists.on && s !in k.reserved
    ensures Untouched(k, AddFree(k, t, s)) && Gained(k, t, s, AddFree(k, t, s))
  {
    RegisterHole(k, t, s);
    var m := Register(k, t, s);
    assert SlotOk(m, s, s) && HeadOk(m, t);
    PushPartitioned(m, s, s);
    RegisteredUntouched(k, t, s, m, Push(m, s));
  }

  /** `t` owns one more slot, `s`. */
  ghost predicate Gained(k: State, t: Task, s: Slot, r: State) {
    && r.owner == k.owner[s := t] && r.reserved == k.reserved && r.spaces == k.spaces && r.killed == k.killed
    && (forall u :: u in r.free <==> u in k.free)
    && (forall x :: x in r.lists.on <==> x in k.lists.on || x == s)
  }

  lemma RegisteredUntouched(k: State, t: Task, s: Slot, m: State, r: State)
    requires Partitioned(k, NULL) && s !in k.lists.on && m == Register(k, t, s) && t in k.free
    requires Partitioned(m, s) && s in m.lists.on && Pushed(m, s, r) && Partitioned(r, NULL)
    ensures Untouched(k, r) && Gained(k, t, s, r)
  {
    RegisteredCaps(k, s, r);
    forall x ensures Unmoved(k, r, x) {
      if Occupied(k, x) {
        RegisterUnmoved(k, t, s, x);
        PushBackUnmoved(k, t, m, s, r, x);
      }
    }
  }

  lemma RegisteredCaps(k: State, s: Slot, r: State)
    requires s !in k.cap && r.cap == k.cap[s := NullCap][s := NullCap]
    ensures forall x :: Occupied(r, x) <==> Occupied(k, x)
    ensures forall x :: CapKept(k, r, x)
  {
  }

  lemma RegisterUnmoved(k: State, t: Task, s: Slot, x: Slot)
    requires Partitioned(k, NULL) && s !in k.lists.on && Occupied(k, x)
    ensures Unmoved(k, Register(k, t, s), x) && Occupied(Register(k, t, s), x)
  {
    assert SlotOk(k, NULL, x);
    Fresh(k.lists, x);
  }

  const SPACE_HEADER: nat := 24
  const SLOT_SIZE: nat := 40

  /** The address of slot `i` of the capability space in the page at `p`. */
  function SlotAt(p: nat, i: nat): (s: Slot)
    ensures s != NULL
  {
    p + SPACE_HEADER + SLOT_SIZE * i
  }

  /** The slots `lo` to `n` of the page at `p` are not in use. */
  ghost predicate FreshSlots(k: State, p: nat, lo: nat, n: nat) {
    forall i :: lo <= i < n ==> SlotAt(p, i) !in k.lists.on && SlotAt(p, i) !in k.reserved
  }

  ghost function OwnedBy(k: State, t: Task): (ss: set<Slot>) {
    set s | s in k.owner && k.owner[s] == t
  }

  ghost function ReservedBy(k: State, t: Task): (ss: set<Slot>) {
    set s | s in k.reserved && s in k.owner && k.owner[s] == t
  }

  /** The loop of `insert_cap_space`: the slots are pushed last one first. */
  ghost function AddFrees(k: State, t: Task, p: nat, lo: nat, n: nat): (r: State)
    requires Partitioned(k, NULL) && t in k.free && lo <= n && FreshSlots(k, p, lo, n)
    decreases n
  {
    if n == lo then k
    else
      var s := SlotAt(p, n - 1);
      var m := AddFree(k, t, s);
      AddFreeUntouched(k, t, s);
      StillFresh(k, t, p, lo, n, m);
      AddFrees(m, t, p, lo, n - 1)
  }

  lemma StillFresh(k: State, t: Task, p: nat, lo: nat, n: nat, m: State)
    requires lo < n && FreshSlots(k, p, lo, n) && Gained(k, t, SlotAt(p, n - 1), m)
    ensures FreshSlots(m, p, lo, n - 1)
  {
  }

  lemma AddFreesKeeps(k: State, t: Task, p: nat, lo: nat, n: nat)
    requires Inv(k) && t in k.free && lo <= n && FreshSlots(k, p, lo, n)
    ensures Inv(AddFrees(k, t, p, lo, n)) && Untouched(k, AddFrees(k, t, p, lo, n))
    decreases n
  {
    if n == lo {
      SelfUntouched(k);
    } else {
      var s := SlotAt(p, n - 1);
      AddFreeUntouched(k, t, s);
      var m := AddFree(k, t, s);
      UntouchedKeeps(k, m);
      StillFresh(k, t, p, lo, n, m);
      AddFreesKeeps(m, t, p, lo, n - 1);
      UntouchedTwice(k, m, AddFrees(m, t, p, lo, n - 1));
    }
  }

  /** `t` owns `n` slots more; nobody else gained or lost a slot, and none was reserved. */
  ghost predicate OwnsMore(k: State, t: Task, n: nat, r: State) {
    && r.reserved == k.reserved && r.spaces == k.spaces && r.killed == k.killed
    && (forall u :: u in r.free <==> u in k.free)
    && (forall u :: |OwnedBy(r, u)| == |OwnedBy(k, u)| + (if u == t then n else 0))
    && (forall u :: ReservedBy(r, u) == ReservedBy(k, u))
  }

  lemma AddFreesOwns(k: State, t: Task, p: nat, lo: nat, n: nat)
    requires Partitioned(k, NULL) && t in k.free && lo <= n && FreshSlots(k, p, lo, n)
    ensures OwnsMore(k, t, n - lo, AddFrees(k, t, p, lo, n))
    decreases n
  {
    if n > lo {
      var s := SlotAt(p, n - 1);
      AddFreeUntouched(k, t, s);
      var m := AddFree(k, t, s);
      StillFresh(k, t, p, lo, n, m);
      assert Owned(k, s);
      GainedOwns(k, t, s, m);
      AddFreesOwns(m, t, p, lo, n - 1);
      OwnsMoreTwice(k, t, 1, m, n - 1 - lo, AddFrees(m, t, p, lo, n - 1));
    }
  }

  lemma OwnsMoreTwice(k: State, t: Task, a: nat, m: State, b: nat, r: State)
    requires OwnsMore(k, t, a, m) && OwnsMore(m, t, b, r)
    ensures OwnsMore(k, t, a + b, r)
  {
  }

  lemma GainedOwns(k: State, t: Task, s: Slot, m: State)
    requires s !in k.owner && s !in k.reserved && Gained(k, t, s, m)
    ensures OwnsMore(k, t, 1, m)
  {
    forall u ensures |OwnedBy(m, u)| == |OwnedBy(k, u)| + (if u == t then 1 else 0) {
      assert OwnedBy(m, u) == if u == t then OwnedBy(k, u) + {s} else OwnedBy(k, u);
    }
    forall u ensures ReservedBy(m, u) == ReservedBy(k, u) { }
  }

  lemma SelfUntouched(k: State)
    requires Partitioned(k, NULL)
    ensures Untouched(k, k)
  {
    forall x ensures Unmoved(k, k, x) { if Occupied(k, x) { assert SlotOk(k, NULL, x); } }
  }

  lemma UntouchedTwice(k: State, m: State, r: State)
    requires Untouched(k, m) && Untouched(m, r)
    ensures Untouched(k, r)
  {
    forall x ensures CapKept(k, r, x) { assert CapKept(m, r, x) && CapKept(k, m, x); }
    forall x ensures Unmoved(k, r, x) { assert Unmoved(m, r, x) && Unmoved(k, m, x); }
  }

  /** Slot 0 of a task's first capability space: null for good, and on no list. */
  ghost function AddReserved(k: State, t: Task, s: Slot): (r: State) {
    Register(k, t, s).(reserved := k.reserved + {s})
  }

  lemma AddReservedKeeps(k: State, t: Task, s: Slot)
    requires Inv(k) && t in k.free && s != NULL && s !in k.lists.on && s !in k.reserved
    ensures Inv(AddReserved(k, t, s))
  {
    RegisterHole(k, t, s);
    ReservedPartitioned(Register(k, t, s), s);
    var r := AddReserved(k, t, s);
    RegisteredCaps(k, s, r);
    forall x ensures Unmoved(k, r, x) { if Occupied(k, x) { RegisterUnmoved(k, t, s, x); } }
    UntouchedKeeps(k, r);
  }

  lemma ReservedPartitioned(m: State, s: Slot)
    requires Partitioned(m, s) && s in m.lists.on
    ensures Partitioned(m.(reserved := m.reserved + {s}), NULL)
  {
    var r := m.(reserved := m.reserved + {s});
    forall u | u in r.free ensures HeadOk(r, u) { assert HeadOk(m, u); }
    forall x | x in r.lists.on ensures SlotOk(r, NULL, x) { assert SlotOk(m, s, x); }
    forall u, x ensures FreeOwn(r, u, x) { assert FreeOwn(m, u, x); }
    forall x ensures Owned(r, x) { assert Owned(m, x); }
  }

  /** The slots of a new space of `t`; the first slot of the first space is reserved. */
  ghost function AddSlots(k: Kernel, t: Task, p: nat): (r: Kernel)
    requires t in k.free && t in k.spaces && FreshSlots(k, p, 0, SLOTS_PER_SPACE)
    ensures r.made == k.made && r.destroyed == k.destroyed && forall x :: CapKept(k, r, x)
    ensures forall x :: Occupied(r, x) <==> Occupied(k, x)
    ensures r.spaces == k.spaces && r.killed == k.killed
    ensures forall u :: |OwnedBy(r, u)| == |OwnedBy(k, u)| + (if u == t then SLOTS_PER_SPACE else 0)
    ensures forall u :: |ReservedBy(r, u)| == |ReservedBy(k, u)| + (if u == t && k.spaces[t] == 0 then 1 else 0)
  {
    if k.spaces[t] == 0 then
      var m := FirstSlot(k, t, SlotAt(p, 0));
      RestFresh(k, p, m);
      var r := RestOfSpace(m, t, p, 1);
      SpaceFilled(k, t, 1, m, SLOTS_PER_SPACE - 1, r);
      r
    else
      RestOfSpace(k, t, p, 0)
  }

  lemma SpaceFilled(k: State, t: Task, a: nat, m: State, b: nat, r: State)
    requires forall x :: CapKept(k, m, x)
    requires forall x :: CapKept(m, r, x)
    requires forall u :: |OwnedBy(m, u)| == |OwnedBy(k, u)| + (if u == t then a else 0)
    requires forall u :: |ReservedBy(m, u)| == |ReservedBy(k, u)| + (if u == t then a else 0)
    requires OwnsMore(m, t, b, r)
    ensures forall x :: CapKept(k, r, x)
    ensures forall u :: |OwnedBy(r, u)| == |OwnedBy(k, u)| + (if u == t then a + b else 0)
    ensures forall u :: |ReservedBy(r, u)| == |ReservedBy(k, u)| + (if u == t then a else 0)
  {
    forall x ensures CapKept(k, r, x) { assert CapKept(m, r, x) && CapKept(k, m, x); }
  }

  ghost function FirstSlot(k: Kernel, t: Task, s: Slot): (r: Kernel)
    requires t in k.free && s != NULL && s !in k.lists.on && s !in k.reserved
    ensures r.lists.on == k.lists.on[s := k.lists.limit] && r.reserved == k.reserved + {s} && r.free == k.free
    ensures r.spaces == k.spaces && r.killed == k.killed
    ensures r.made == k.made && r.destroyed == k.destroyed && forall x :: CapKept(k, r, x)
    ensures forall x :: Occupied(r, x) <==> Occupied(k, x)
    ensures forall u :: |OwnedBy(r, u)| == |OwnedBy(k, u)| + (if u == t then 1 else 0)
    ensures forall u :: |ReservedBy(r, u)| == |ReservedBy(k, u)| + (if u == t then 1 else 0)
  {
    AddReservedKeeps(k, t, s);
    var r := AddReserved(k, t, s);
    assert Owned(k, s);
    ReservedOwns(k, t, s, r);
    r
  }

  lemma ReservedOwns(k: State, t: Task, s: Slot, r: State)
    requires s !in k.owner && s !in k.reserved && r.owner == k.owner[s := t] && r.reserved == k.reserved + {s}
    ensures forall u :: |OwnedBy(r, u)| == |OwnedBy(k, u)| + (if u == t then 1 else 0)
    ensures forall u :: |ReservedBy(r, u)| == |ReservedBy(k, u)| + (if u == t then 1 else 0)
  {
    forall u ensures |OwnedBy(r, u)| == |OwnedBy(k, u)| + (if u == t then 1 else 0) { OwnedGrows(k, t, s, r, u); }
    forall u
      ensures |ReservedBy(r, u)| == |ReservedBy(k, u)| + (if u == t then 1 else 0)
    {
      ReservedGrows(k, t, s, r, u);
    }
  }

  lemma OwnedGrows(k: State, t: Task, s: Slot, r: State, u: Task)
    requires s !in k.owner && r.owner == k.owner[s := t]
    ensures |OwnedBy(r, u)| == |OwnedBy(k, u)| + (if u == t then 1 else 0)
  {
    assert OwnedBy(r, u) == if u == t then OwnedBy(k, u) + {s} else OwnedBy(k, u);
  }

  lemma ReservedGrows(k: State, t: Task, s: Slot, r: State, u: Task)
    requires s !in k.owner && s !in k.reserved && r.owner == k.owner[s := t] && r.reserved == k.reserved + {s}
    ensures |ReservedBy(r, u)| == |ReservedBy(k, u)| + (if u == t then 1 else 0)
  {
    assert ReservedBy(r, u) == if u == t then ReservedBy(k, u) + {s} else ReservedBy(k, u);
  }

  lemma RestFresh(k: State, p: nat, m: State)
    requires FreshSlots(k, p, 0, SLOTS_PER_SPACE)
    requires m.lists.on == k.lists.on[SlotAt(p, 0) := k.lists.limit] && m.reserved == k.reserved + {SlotAt(p, 0)}
    ensures FreshSlots(m, p, 1, SLOTS_PER_SPACE)
  {
  }

  ghost function RestOfSpace(k: Kernel, t: Task, p: nat, lo: nat): (r: Kernel)
    requires t in k.free && lo <= SLOTS_PER_SPACE && FreshSlots(k, p, lo, SLOTS_PER_SPACE)
    ensures r.made == k.made && r.destroyed == k.destroyed && forall x :: CapKept(k, r, x)
    ensures forall x :: Occupied(r, x) <==> Occupied(k, x)
    ensures OwnsMore(k, t, SLOTS_PER_SPACE - lo, r)
  {
    AddFreesKeeps(k, t, p, lo, SLOTS_PER_SPACE);
    AddFreesOwns(k, t, p, lo, SLOTS_PER_SPACE);
    AddFrees(k, t, p, lo, SLOTS_PER_SPACE)
  }

  /** The number of spaces and the set of killed tasks are not part of any invariant. */
  ghost function Record(k: Kernel, spaces: map<Task, nat>, killed: set<Task>): (r: Kernel) {
    SameInv(k, k.(spaces := spaces, killed := killed));
    k.(spaces := spaces, killed := killed)
  }

  /** What `insert_cap_space` leaves, given that its page is mapped. */
  ghost function AddSpace(k: Kernel, t: Task, p: nat): (r: Kernel)
    requires t in k.free && t in k.spaces && FreshSlots(k, p, 0, SLOTS_PER_SPACE)
  {
    Record(AddSlots(k, t, p), k.spaces[t := k.spaces[t] + 1], k.killed)
  }

  /** The invariants do not look at `spaces` or `killed`. */
  lemma SameInv(k: State, r: State)
    requires Inv(k)
    requires r == k.(spaces := r.spaces, killed := r.killed)
    ensures Inv(r)
  {
    SamePartition(k, r);
    SelfUntouched(k);
    forall x ensures CapKept(k, r, x) { }
    forall x ensures Unmoved(k, r, x) { assert Unmoved(k, k, x); }
    UntouchedKeeps(k, r);
  }

  lemma AddTaskKeeps(k: State, t: Task)
    requires Inv(k) && t !in k.free
    ensures Inv(AddTask(k, t))
  {
    var r := AddTask(k, t);
    forall u | u in r.free ensures HeadOk(r, u) { if u != t { assert HeadOk(k, u); } }
    forall x | x in r.lists.on ensures SlotOk(r, NULL, x) { assert SlotOk(k, NULL, x); }
    forall u, x ensures FreeOwn(r, u, x) { assert FreeOwn(k, u, x); }
    forall x ensures Owned(r, x) { assert Owned(k, x); }
    SelfUntouched(k);
    forall x ensures CapKept(k, r, x) { }
    forall x ensures Unmoved(k, r, x) { assert Unmoved(k, k, x); }
    UntouchedKeeps(k, r);
  }

  // ---------------------------------------------------------------- conservation of slots

  /** Every capability space of a task contributes its slots, and slot 0 of the first one is reserved. */
  ghost predicate Counted(k: State) {
    forall t :: t in k.spaces ==> CountedFor(k, t)
  }

  ghost predicate CountedFor(k: State, t: Task) {
    && t in k.spaces
    && |OwnedBy(k, t)| == SLOTS_PER_SPACE * k.spaces[t]
    && |ReservedBy(k, t)| == (if k.spaces[t] == 0 then 0 else 1)
  }

  ghost function OccupiedBy(k: State, t: Task): (ss: set<Slot>) {
    set s | s in k.owner && k.owner[s] == t && Occupied(k, s)
  }

  ghost function FreeSet(k: State, t: Task): (ss: set<Slot>) {
    set s | s in k.owner && k.owner[s] == t && !Occupied(k, s) && s !in k.reserved
  }

  /** `free_slots_count` counts the null slots that are not reserved. */
  lemma FreeCount(k: State, t: Task)
    requires Partitioned(k, NULL) && t in k.free
    ensures t in k.count && |FreeSet(k, t)| == k.count[t]
  {
    assert HeadOk(k, t);
    var h := k.free[t];
    if h == NULL {
      forall s | s in k.owner ensures s !in FreeSet(k, t) { assert Owned(k, s) && SlotOk(k, NULL, s); }
      assert FreeSet(k, t) == {};
    } else {
      var n := k.lists.on[h];
      var c := k.lists.seqs[n];
      forall s | s in c ensures s in FreeSet(k, t) {
        var i :| 0 <= i < |c| && c[i] == s;
        assert k.lists.Holds(n, k.lists.seqs[n][i], i);
        assert FreeOwn(k, t, s) && SlotOk(k, NULL, s);
      }
      forall s | s in FreeSet(k, t) ensures s in c {
        assert Owned(k, s) && SlotOk(k, NULL, s);
        assert c[k.lists.at[s]] == s;
      }
      forall i, j | 0 <= i < j < |c| ensures c[i] != c[j] {
        assert k.lists.Holds(n, k.lists.seqs[n][i], i) && k.lists.Holds(n, k.lists.seqs[n][j], j);
      }
      DistinctCount(c, FreeSet(k, t));
    }
  }

  lemma {:induction false} DistinctCount(c: seq<Slot>, ss: set<Slot>)
    requires forall i, j :: 0 <= i < j < |c| ==> c[i] != c[j]
    requires forall s :: s in ss <==> s in c
    ensures |ss| == |c|
  {
    if c == [] {
      assert ss == {};
    } else {
      var rest := ss - {c[0]};
      forall s ensures s in rest <==> s in c[1..] { assert c == [c[0]] + c[1..]; }
      DistinctCount(c[1..], rest);
    }
  }

  /** Free and occupied slots of a task add up to its capability spaces, less the reserved slot. */
  lemma SlotsConserved(k: State, t: Task)
    requires Inv(k) && Counted(k) && t in k.spaces && k.spaces[t] > 0
    ensures t in k.count && k.count[t] + |OccupiedBy(k, t)| == SLOTS_PER_SPACE * k.spaces[t] - 1
  {
    assert CountedFor(k, t);
    var o :| o in ReservedBy(k, t);
    assert Owned(k, o) && SlotOk(k, NULL, o);
    FreeCount(k, t);
    forall s | s in k.owner && k.owner[s] == t ensures s in k.reserved ==> !Occupied(k, s) {
      assert Owned(k, s) && SlotOk(k, NULL, s);
    }
    ThreeParts(OwnedBy(k, t), FreeSet(k, t), OccupiedBy(k, t), ReservedBy(k, t));
  }

  lemma ThreeParts(all: set<Slot>, a: set<Slot>, b: set<Slot>, c: set<Slot>)
    requires all == a + b + c && a !! b && a !! c && b !! c
    ensures |all| == |a| + |b| + |c|
  {
    assert |a + b| == |a| + |b|;
  }

  // ---------------------------------------------------------------- the operations, with their refusals

  /** `transfer_cap`. */
  ghost function Transfer(k: Kernel, t: Task, s: Slot): (r: (Kernel, Outcome))
    requires s in k.cap
  {
    assert SlotOk(k, NULL, s);
    if !Live(k.cap[s]) || t in k.killed || k.owner[s] in k.killed || !CanTake(k, t) then (k, Refused)
    else
      TransferKeeps(k, t, s);
      (Transferred(k, t, s), Done(k.free[t]))
  }

  /** `delegate_cap`. */
  ghost function Delegate(k: Kernel, t: Task, s: Slot): (r: (Kernel, Outcome))
    requires s in k.cap
  {
    assert SlotOk(k, NULL, s);
    if !Live(k.cap[s]) || t in k.killed || k.owner[s] in k.killed || !CanTake(k, t) then (k, Refused)
    else
      DelegateKeeps(k, t, s);
      (Delegated(k, t, s), Done(k.free[t]))
  }

  /** `copy_cap`; a task or endpoint for which there is no free slot trips an assertion of `insert_after`. */
  ghost function Copy(k: Kernel, s: Slot): (r: (Kernel, Outcome))
    requires s in k.cap
  {
    assert SlotOk(k, NULL, s);
    var t, c := k.owner[s], k.cap[s];
    if Shared(c) then
      if !CanTake(k, t) then (k, Halted)
      else
        CopyKeeps(k, t, s);
        (Copied(k, t, s), Done(k.free[t]))
    else if c.IdCap? && CanTake(k, t) then (InsertCap(k, t, c), Done(k.free[t]))
    else (k, Refused)
  }

  /** `insert_cap`, for a capability that overlaps nothing. */
  ghost function InsertCap(k: Kernel, t: Task, c: Cap): (r: Kernel)
    requires CanTake(k, t) && (c.IdCap? || Foreign(k, c))
  {
    InsertKeeps(k, t, c);
    Insert(k, t, c)
  }

  /** `revoke_cap`. */
  ghost function Revoke(k: Kernel, s: Slot): (r: (Kernel, Outcome))
    requires s in k.cap
  {
    if k.cap[s].MemCap? then (RevokeMem(k, s), Done(s))
    else if k.cap[s].ZombieCap? then
      RevokeZombieKeeps(k, s);
      (RevokeZombie(k, s), Done(s))
    else (k, Refused)
  }

  datatype Op =
    | NewTask(t: Task)
    | NewSpace(t: Task, page: nat)
    | Boot(t: Task, c: Cap)
    | NewId(t: Task, val1: nat, val2: nat, val3: nat)
    | CreateObject(t: Task, s: Slot, kind: Kind)
    | CopyCap(s: Slot)
    | TransferCap(t: Task, s: Slot)
    | DelegateCap(t: Task, s: Slot)
    | RevokeCap(s: Slot)
    | DestroyCap(s: Slot)
    | Kill(t: Task)

  /**
   What the kernel's callers see to: slots exist, new control blocks and pages are new, and carving does not pass the
   end.
   */
  ghost predicate Legal(k: Kernel, op: Op) {
    match op
    case NewTask(t) => t !in k.free
    case NewSpace(t, page) => t in k.free && t in k.spaces && FreshSlots(k, page, 0, SLOTS_PER_SPACE)
    case Boot(_, c) => Foreign(k, c)
    case NewId(_, _, _, _) => true
    case CreateObject(_, s, kind) =>
      && s in k.cap && KindSize(kind) < WORD && KindAlign(kind) < WORD
      && (k.cap[s].MemCap? ==> Fits(k.cap[s], KindAlign(kind)))
    case CopyCap(s) => s in k.cap
    case TransferCap(_, s) => s in k.cap
    case DelegateCap(_, s) => s in k.cap
    case RevokeCap(s) => s in k.cap
    case DestroyCap(s) => s in k.cap
    case Kill(_) => true
  }

  /** One operation; its result type says that it keeps every invariant. */
  ghost function Step(k: Kernel, op: Op): (r: (Kernel, Outcome))
    requires Legal(k, op)
  {
    match op
    case NewTask(t) =>
      AddTaskKeeps(k, t);
      (AddTask(k, t), Done(NULL))
    case NewSpace(t, page) => (AddSpace(k, t, page), Done(NULL))
    case Boot(t, c) => if CanTake(k, t) then (InsertCap(k, t, c), Done(k.free[t])) else (k, Halted)
    case NewId(t, v1, v2, v3) =>
      if CanTake(k, t) then (InsertCap(k, t, IdCap(v1, v2, v3)), Done(k.free[t])) else (k, Refused)
    case CreateObject(t, s, kind) =>
      CreateKeeps(k, t, s, kind);
      Create(k, t, s, kind)
    case CopyCap(s) => Copy(k, s)
    case TransferCap(t, s) => Transfer(k, t, s)
    case DelegateCap(t, s) => Delegate(k, t, s)
    case RevokeCap(s) => Revoke(k, s)
    case DestroyCap(s) => Destroy(k, s)
    case Kill(t) => (Record(k, k.spaces, k.killed + {t}), Done(NULL))
  }

  // ---------------------------------------------------------------- what a step does to ownership and to memory

  /** The records of made and of destroyed objects only grow. */
  predicate LogsGrow(k: State, r: State) { k.made <= r.made && k.destroyed <= r.destroyed }

  predicate OwnersKept(k: State, r: State) {
    r.owner == k.owner && r.reserved == k.reserved && r.spaces == k.spaces && LogsGrow(k, r)
  }

  /** The same memory, with no less given out. */
  predicate Grew(c: Cap, d: Cap) {
    c.MemCap? && d.MemCap? && d.device == c.device && d.base == c.base && d.size == c.size && c.used <= d.used
  }

  /** What a capability may become: itself, or the same memory with no less given out. */
  predicate Became(c: Cap, d: Cap) { d == c || Grew(c, d) }

  /** The capability held in `x` is the one that slot `g[x]` had. */
  predicate TrackAt(k: State, r: State, g: map<Slot, Slot>, x: Slot)
    requires x in r.cap
  {
    x in g && g[x] in k.cap && Became(k.cap[g[x]], r.cap[x])
  }

  predicate MemAt(r: State, x: Slot) { x in r.cap && r.cap[x].MemCap? }

  /** Two memory capabilities do not come from one slot. */
  predicate TrackTwo(r: State, d: Slot, g: map<Slot, Slot>, x: Slot, y: Slot) {
    x != y && x != d && y != d && x in g && y in g && MemAt(r, x) && MemAt(r, y) ==> g[x] != g[y]
  }

  /**
   `g` names, for every slot that holds a capability in `r`, the slot that had it in `k`, with no more of it
   given out; different memory comes from different slots.  Only `d`, which was null, holds something new.
   */
  ghost predicate Tracks(k: State, r: State, d: Slot, g: map<Slot, Slot>) {
    && (forall x :: Holding(r, x) && x != d ==> TrackAt(k, r, g, x))
    && (forall x, y :: TrackTwo(r, d, g, x, y))
    && (d != NULL ==> d in k.cap && k.cap[d].NullCap?)
  }

  lemma TracksSame(k: State, r: State, d: Slot)
    requires forall x :: x != d ==> CapKept(k, r, x)
    requires d != NULL ==> d in k.cap && k.cap[d].NullCap?
    ensures Tracks(k, r, d, Identity(k))
  {
    forall x | Holding(r, x) && x != d ensures TrackAt(k, r, Identity(k), x) { assert CapKept(k, r, x); }
  }

  /** The capability of `q` is in `p`; if `q` still holds one, it is not memory. */
  lemma TracksMoved(k: State, r: State, p: Slot, q: Slot)
    requires forall x :: x != p && x != q ==> CapKept(k, r, x)
    requires q in k.cap && p in r.cap && p != q && r.cap[p] == k.cap[q]
    requires q in r.cap && Live(r.cap[q]) ==> r.cap[q] == k.cap[q] && !r.cap[q].MemCap?
    ensures Tracks(k, r, NULL, Identity(k)[p := q])
  {
    var g := Identity(k)[p := q];
    forall x | Holding(r, x) ensures TrackAt(k, r, g, x) {
      assert x != p && x != q ==> CapKept(k, r, x);
    }
  }

  /** First through `g`, then through `h`. */
  function Compose(g: map<Slot, Slot>, h: map<Slot, Slot>): (f: map<Slot, Slot>) {
    map x | x in g && g[x] in h :: h[g[x]]
  }

  lemma TracksTwice(k: State, m: State, r: State, g: map<Slot, Slot>, h: map<Slot, Slot>)
    requires Tracks(k, m, NULL, h) && Tracks(m, r, NULL, g)
    requires NULL !in m.cap && NULL !in r.cap
    ensures Tracks(k, r, NULL, Compose(g, h))
  {
    var f := Compose(g, h);
    forall x | Holding(r, x) ensures TrackAt(k, r, f, x) { TrackTwice(k, m, r, g, h, x); }
    forall x, y ensures TrackTwo(r, NULL, f, x, y) {
      if MemAt(r, x) && MemAt(r, y) && x in f && y in f {
        TrackTwice(k, m, r, g, h, x);
        TrackTwice(k, m, r, g, h, y);
        assert TrackTwo(r, NULL, g, x, y) && TrackTwo(m, NULL, h, g[x], g[y]);
      }
    }
  }

  lemma TrackTwice(k: State, m: State, r: State, g: map<Slot, Slot>, h: map<Slot, Slot>, x: Slot)
    requires Tracks(k, m, NULL, h) && Tracks(m, r, NULL, g) && NULL !in m.cap && NULL !in r.cap && Holding(r, x)
    ensures TrackAt(m, r, g, x) && TrackAt(k, m, h, g[x]) && TrackAt(k, r, Compose(g, h), x)
  {
    assert TrackAt(m, r, g, x) && Holding(m, g[x]);
    assert TrackAt(k, m, h, g[x]);
  }

  lemma NoNullSlot(k: State)
    requires Partitioned(k, NULL)
    ensures NULL !in k.cap
  {
    assert NULL in k.lists.on ==> k.lists.Placed(NULL);
  }

  /** Where the capabilities were before `revoke_cap`. */
  ghost function RevokeOrigin(k: Kernel, s: Slot): (g: map<Slot, Slot>)
    requires s in k.cap
  {
    if k.cap[s].ZombieCap? then
      ResolveBehind(k, s);
      Identity(k)[s := Resolve(k, s)]
    else Identity(k)
  }

  lemma RevokeConduct(k: Kernel, s: Slot)
    requires s in k.cap
    ensures OwnersKept(k, Revoke(k, s).0) && Tracks(k, Revoke(k, s).0, NULL, RevokeOrigin(k, s))
  {
    var r := Revoke(k, s).0;
    if k.cap[s].ZombieCap? {
      ResolveBehind(k, s);
      RevokeZombieTakes(k, s);
      TakenTracks(k, s, Resolve(k, s), r);
    } else {
      if k.cap[s].MemCap? { assert Cut(k, s, r); } else { forall x ensures CapKept(k, r, x) { } }
      TracksSame(k, r, NULL);
    }
  }

  lemma TakenTracks(k: State, s: Slot, q: Slot, r: State)
    requires Before(k, s, q) && Occupied(k, q) && TakenBack(k, s, q, r)
    ensures Tracks(k, r, NULL, Identity(k)[s := q])
  {
    assert !Occupied(r, q);
    TracksMoved(k, r, s, q);
  }

  /** Where the capabilities were before the rest of `destroy_cap`. */
  ghost function HeldOrigin(k: Kernel, s: Slot): (g: map<Slot, Slot>)
    requires Holding(k, s)
  {
    assert SlotOk(k, NULL, s);
    if ZombieBefore(k, s) && (SameBefore(k, s) || SameBehind(k, s)) then
      Backward(k.lists, s);
      RevokeOrigin(k, k.lists.Prev(s))
    else Identity(k)
  }

  ghost function DestroyOrigin(k: Kernel, s: Slot): (g: map<Slot, Slot>)
    requires s in k.cap
  {
    if k.cap[s].NullCap? then Identity(k) else Compose(HeldOrigin(Strip(k, s), s), RevokeOrigin(k, s))
  }

  lemma DestroyConduct(k: Kernel, s: Slot)
    requires s in k.cap
    ensures OwnersKept(k, Destroy(k, s).0) && Tracks(k, Destroy(k, s).0, NULL, DestroyOrigin(k, s))
  {
    if !k.cap[s].NullCap? {
      StripConduct(k, s, Strip(k, s));
      HeldConduct(Strip(k, s), s);
      NoNullSlot(Strip(k, s));
      NoNullSlot(Destroy(k, s).0);
      TracksTwice(k, Strip(k, s), Destroy(k, s).0, HeldOrigin(Strip(k, s), s), RevokeOrigin(k, s));
    } else {
      SelfConduct(k);
    }
  }

  lemma StripConduct(k: Kernel, s: Slot, m: State)
    requires Occupied(k, s) && m == Strip(k, s)
    ensures OwnersKept(k, m) && Tracks(k, m, NULL, RevokeOrigin(k, s))
  {
    RevokeConduct(k, s);
    if Live(k.cap[s]) && !k.cap[s].MemCap? { SelfConduct(k); }
  }

  lemma HeldConduct(k: Kernel, s: Slot)
    requires Holding(k, s)
    ensures OwnersKept(k, DestroyHeld(k, s).0) && Tracks(k, DestroyHeld(k, s).0, NULL, HeldOrigin(k, s))
  {
    hide Tracks, RevokeZombie, CapKept;
    assert SlotOk(k, NULL, s);
    var r := DestroyHeld(k, s).0;
    if ZombieBefore(k, s) && (SameBefore(k, s) || SameBehind(k, s)) {
      Backward(k.lists, s);
      RevokeConduct(k, k.lists.Prev(s));
    } else {
      HeldKept(k, s);
      TracksSame(k, r, NULL);
    }
  }

  lemma HeldKept(k: Kernel, s: Slot)
    requires Holding(k, s) && s in k.lists.on && !(ZombieBefore(k, s) && (SameBefore(k, s) || SameBehind(k, s)))
    ensures forall x :: CapKept(k, DestroyHeld(k, s).0, x)
    ensures OwnersKept(k, DestroyHeld(k, s).0)
  {
    hide Push, RevokeZombie, SameBefore, SameBehind, ZombieBefore, Last;
    if DestroyHeld(k, s).1.Done? {
      DestroyPartitioned(k, s);
      Pushable(k, s);
      Pushable(CapOps.DestroyObject(k, s), s);
      PushCaps(k, s);
      PushCaps(CapOps.DestroyObject(k, s), s);
    }
  }

  lemma PushCaps(k: State, s: Slot)
    requires k.lists.Ok() && s in k.lists.on && s in k.owner && HeadOk(k, k.owner[s]) && !OnFreeOf(k, k.owner[s], s)
    ensures var r := Push(k, s); r.cap == k.cap[s := NullCap] && OwnersKept(k, r) && r.destroyed == k.destroyed
  {
  }

  lemma SelfConduct(k: State)
    ensures OwnersKept(k, k) && Tracks(k, k, NULL, Identity(k))
  {
    forall x ensures CapKept(k, k, x) { }
    TracksSame(k, k, NULL);
  }

  /** Where the capabilities were before the one of `s` was put in a free slot, if it was. */
  function PutOrigin(k: State, s: Slot, out: Outcome): (g: map<Slot, Slot>) {
    if out.Done? then Identity(k)[out.slot := s] else Identity(k)
  }

  lemma TransferConduct(k: Kernel, t: Task, s: Slot)
    requires s in k.cap
    ensures OwnersKept(k, Transfer(k, t, s).0)
    ensures Tracks(k, Transfer(k, t, s).0, NULL, PutOrigin(k, s, Transfer(k, t, s).1))
  {
    var r := Transfer(k, t, s);
    if r.1.Done? {
      TransferKeeps(k, t, s);
      assert !Occupied(r.0, s);
      TracksMoved(k, r.0, k.free[t], s);
    } else {
      SelfConduct(k);
    }
  }

  /** Delegating and copying: the new slot holds what the old one did. */
  lemma PutConduct(k: State, c: Cap, a: Slot, d: Slot, b: Cap, r: State)
    requires Capped(k, c, a, d, b, r) && a in k.cap && c == k.cap[a]
    requires b.ZombieCap? || (b == c && !c.MemCap?)
    ensures OwnersKept(k, r) && Tracks(k, r, NULL, Identity(k)[d := a])
  {
    TracksMoved(k, r, d, a);
  }

  lemma DelegateConduct(k: Kernel, t: Task, s: Slot)
    requires s in k.cap
    ensures OwnersKept(k, Delegate(k, t, s).0)
    ensures Tracks(k, Delegate(k, t, s).0, NULL, PutOrigin(k, s, Delegate(k, t, s).1))
  {
    var r := Delegate(k, t, s);
    if r.1.Done? {
      PutBehindGrows(k, t, k.cap[s], s, ZombieCap);
      PutConduct(k, k.cap[s], s, k.free[t], ZombieCap, r.0);
    } else {
      SelfConduct(k);
    }
  }

  lemma CopyConduct(k: Kernel, s: Slot)
    requires s in k.cap
    ensures OwnersKept(k, Copy(k, s).0) && Tracks(k, Copy(k, s).0, NULL, PutOrigin(k, s, Copy(k, s).1))
  {
    assert SlotOk(k, NULL, s);
    var r, d := Copy(k, s), k.free[k.owner[s]];
    if r.1.Done? {
      if Shared(k.cap[s]) {
        PutBehindGrows(k, k.owner[s], k.cap[s], s, k.cap[s]);
        PutConduct(k, k.cap[s], s, d, k.cap[s], r.0);
      } else {
        InsertConduct(k, k.owner[s], k.cap[s]);
        assert r.0.cap == k.cap[d := k.cap[s]] && d != s;
        forall x | x != d && x != s ensures CapKept(k, r.0, x) { }
        TracksMoved(k, r.0, d, s);
      }
    } else {
      SelfConduct(k);
    }
  }

  lemma InsertConduct(k: Kernel, t: Task, c: Cap)
    requires CanTake(k, t) && (c.IdCap? || Foreign(k, c))
    ensures OwnersKept(k, InsertCap(k, t, c)) && Tracks(k, InsertCap(k, t, c), k.free[t], Identity(k))
    ensures InsertCap(k, t, c).cap == k.cap[k.free[t] := c] && k.free[t] in k.cap && k.cap[k.free[t]].NullCap?
  {
    TakeTakes(k, t, c);
    var r := InsertCap(k, t, c);
    assert r.cap == k.cap[k.free[t] := c];
    forall x | x != k.free[t] ensures CapKept(k, r, x) { }
    TracksSame(k, r, k.free[t]);
  }

  lemma CreateConduct(k: Kernel, t: Task, s: Slot, kind: Kind)
    requires Legal(k, CreateObject(t, s, kind))
    ensures
      var r := Create(k, t, s, kind);
      OwnersKept(k, r.0) && Tracks(k, r.0, if r.1.Done? then r.1.slot else NULL, Identity(k))
  {
    var r := Create(k, t, s, kind);
    if r.1.Done? {
      var c, out := k.cap[s], Carve(k.cap[s], KindSize(kind), KindAlign(kind));
      CarveExact(c, KindSize(kind), KindAlign(kind));
      var n := NewCap(kind, c.device, out.base);
      PutBehindGrows(k, t, n, s, c.(used := out.used));
      CreatedConduct(k, s, k.free[t], n, out.used, PutBehind(k, t, n, s, c.(used := out.used)), r.0);
    } else if k.cap[s].MemCap? && CanTake(k, t) {
      PopPushConduct(k, t);
      SelfConduct(k);
    } else {
      SelfConduct(k);
    }
  }

  lemma PopPushConduct(k: Kernel, t: Task)
    requires CanTake(k, t)
    ensures OwnersKept(k, PopPush(k, t)) && Tracks(k, PopPush(k, t), NULL, Identity(k))
  {
    PopPushUntouched(k, t);
    TracksSame(k, PopPush(k, t), NULL);
    PoppedPushable(k, t);
  }

  lemma CreatedConduct(k: State, s: Slot, d: Slot, n: Cap, used: nat, m: State, r: State)
    requires s in k.cap && k.cap[s].MemCap? && k.cap[s].used <= used && d in k.cap && k.cap[d].NullCap?
    requires Capped(k, n, s, d, k.cap[s].(used := used), m) && r == m.(made := r.made) && k.made <= r.made
    ensures OwnersKept(k, r) && Tracks(k, r, d, Identity(k))
  {
    forall x | Holding(r, x) && x != d ensures TrackAt(k, r, Identity(k), x) {
      assert x != s ==> CapKept(k, m, x);
      assert x == s ==> Grew(k.cap[s], r.cap[s]);
    }
  }

  /** The slot that a step filled with something new, if any. */
  function NewSlot(op: Op, out: Outcome): (d: Slot) {
    if out.Done? && (op.CreateObject? || op.Boot? || op.NewId?) then out.slot else NULL
  }

  /** For each slot after a step, the slot that had its capability before. */
  ghost function Origin(k: Kernel, op: Op): (g: map<Slot, Slot>)
    requires Legal(k, op)
  {
    match op
    case CopyCap(s) => PutOrigin(k, s, Copy(k, s).1)
    case TransferCap(t, s) => PutOrigin(k, s, Transfer(k, t, s).1)
    case DelegateCap(t, s) => PutOrigin(k, s, Delegate(k, t, s).1)
    case RevokeCap(s) => RevokeOrigin(k, s)
    case DestroyCap(s) => DestroyOrigin(k, s)
    case _ => Identity(k)
  }

  /**
   Every capability after a step is one from before it, in the slot that `Origin` names, with no more of it
   given out, or is in the new slot.  Slots change hands only when a task gets a new capability space.
   */
  lemma StepConduct(k: Kernel, op: Op)
    requires Legal(k, op)
    ensures Tracks(k, Step(k, op).0, NewSlot(op, Step(k, op).1), Origin(k, op))
    ensures LogsGrow(k, Step(k, op).0)
    ensures !op.NewTask? && !op.NewSpace? ==> OwnersKept(k, Step(k, op).0)
  {
    match op
    case NewTask(t) =>
      forall x ensures CapKept(k, AddTask(k, t), x) { }
      TracksSame(k, AddTask(k, t), NULL);
    case NewSpace(t, page) =>
      AddSpaceConduct(k, t, page);
    case Boot(t, c) =>
      if CanTake(k, t) { InsertConduct(k, t, c); } else { SelfConduct(k); }
    case NewId(t, v1, v2, v3) =>
      if CanTake(k, t) { InsertConduct(k, t, IdCap(v1, v2, v3)); } else { SelfConduct(k); }
    case CreateObject(t, s, kind) => CreateConduct(k, t, s, kind);
    case CopyCap(s) => CopyConduct(k, s);
    case TransferCap(t, s) => TransferConduct(k, t, s);
    case DelegateCap(t, s) => DelegateConduct(k, t, s);
    case RevokeCap(s) => RevokeConduct(k, s);
    case DestroyCap(s) => DestroyConduct(k, s);
    case Kill(t) => RecordedSelf(k, k.killed + {t});
  }

  lemma RecordedSelf(k: Kernel, killed: set<Task>)
    ensures OwnersKept(k, Record(k, k.spaces, killed)) && Tracks(k, Record(k, k.spaces, killed), NULL, Identity(k))
  {
    var r := Record(k, k.spaces, killed);
    forall x ensures CapKept(k, r, x) { }
    TracksSame(k, r, NULL);
  }

  lemma AddSpaceConduct(k: Kernel, t: Task, p: nat)
    requires t in k.free && t in k.spaces && FreshSlots(k, p, 0, SLOTS_PER_SPACE)
    ensures Tracks(k, AddSpace(k, t, p), NULL, Identity(k)) && LogsGrow(k, AddSpace(k, t, p))
  {
    hide Tracks, Inv, Partitioned, AddSlots, FreshSlots;
    RecordedConduct(k, AddSlots(k, t, p), k.spaces[t := k.spaces[t] + 1]);
  }

  lemma RecordedConduct(k: State, m: Kernel, spaces: map<Task, nat>)
    requires LogsGrow(k, m) && forall x :: CapKept(k, m, x)
    ensures Tracks(k, Record(m, spaces, k.killed), NULL, Identity(k)) && LogsGrow(k, Record(m, spaces, k.killed))
  {
    var r := Record(m, spaces, k.killed);
    forall x ensures CapKept(k, r, x) { assert CapKept(k, m, x); }
    TracksSame(k, r, NULL);
  }

  // ---------------------------------------------------------------- runs

  /** Every operation is legal where it is performed. */
  ghost predicate LegalRun(k: Kernel, ops: seq<Op>)
    decreases |ops|
  {
    ops == [] || (Legal(k, ops[0]) && LegalRun(Step(k, ops[0]).0, ops[1..]))
  }

  /** The state after a run. */
  ghost function Run(k: Kernel, ops: seq<Op>): (r: Kernel)
    requires LegalRun(k, ops)
    decreases |ops|
  {
    if ops == [] then k else Run(Step(k, ops[0]).0, ops[1..])
  }

  lemma StepCounted(k: Kernel, op: Op)
    requires Legal(k, op) && Counted(k)
    ensures Counted(Step(k, op).0)
  {
    if op.NewTask? {
      TaskCounted(k, op.t);
    } else if op.NewSpace? {
      AddSpaceCounted(k, op.t, op.page);
    } else {
      StepConduct(k, op);
      OwnersCounted(k, Step(k, op).0);
    }
  }

  lemma TaskCounted(k: Kernel, t: Task)
    requires t !in k.free && Counted(k)
    ensures Counted(AddTask(k, t))
  {
    var r := AddTask(k, t);
    forall s | s in k.owner ensures k.owner[s] != t { assert Owned(k, s) && SlotOk(k, NULL, s); }
    forall u | u in r.spaces ensures CountedFor(r, u) {
      assert OwnedBy(r, u) == OwnedBy(k, u) && ReservedBy(r, u) == ReservedBy(k, u);
      if u == t { assert OwnedBy(r, u) == {} && ReservedBy(r, u) == {}; } else { assert CountedFor(k, u); }
    }
  }

  lemma OwnersCounted(k: State, r: State)
    requires Counted(k) && OwnersKept(k, r)
    ensures Counted(r)
  {
    forall u | u in r.spaces ensures CountedFor(r, u) {
      assert CountedFor(k, u) && OwnedBy(r, u) == OwnedBy(k, u) && ReservedBy(r, u) == ReservedBy(k, u);
    }
  }

  lemma AddSpaceCounted(k: Kernel, t: Task, p: nat)
    requires t in k.free && t in k.spaces && FreshSlots(k, p, 0, SLOTS_PER_SPACE) && Counted(k)
    ensures Counted(AddSpace(k, t, p))
  {
    hide AddSlots;
    RecordCounted(k, t, AddSlots(k, t, p));
  }

  lemma RecordCounted(k: State, t: Task, m: Kernel)
    requires Counted(k) && t in k.spaces && m.spaces == k.spaces
    requires forall u :: |OwnedBy(m, u)| == |OwnedBy(k, u)| + (if u == t then SLOTS_PER_SPACE else 0)
    requires forall u :: |ReservedBy(m, u)| == |ReservedBy(k, u)| + (if u == t && k.spaces[t] == 0 then 1 else 0)
    ensures Counted(Record(m, k.spaces[t := k.spaces[t] + 1], k.killed))
  {
    SpaceCounted(k, t, m, Record(m, k.spaces[t := k.spaces[t] + 1], k.killed));
  }

  lemma SpaceCounted(k: State, t: Task, m: State, r: State)
    requires Counted(k) && t in k.spaces && m.spaces == k.spaces
    requires r.owner == m.owner && r.reserved == m.reserved && r.spaces == k.spaces[t := k.spaces[t] + 1]
    requires forall u :: |OwnedBy(m, u)| == |OwnedBy(k, u)| + (if u == t then SLOTS_PER_SPACE else 0)
    requires forall u :: |ReservedBy(m, u)| == |ReservedBy(k, u)| + (if u == t && k.spaces[t] == 0 then 1 else 0)
    ensures Counted(r)
  {
    forall u | u in r.spaces ensures CountedFor(r, u) {
      assert CountedFor(k, u) && OwnedBy(r, u) == OwnedBy(m, u) && ReservedBy(r, u) == ReservedBy(m, u);
    }
  }

  lemma {:induction false} RunCounted(k: Kernel, ops: seq<Op>)
    requires LegalRun(k, ops) && Counted(k)
    ensures Counted(Run(k, ops))
    decreases |ops|
  {
    if ops != [] {
      StepCounted(k, ops[0]);
      RunCounted(Step(k, ops[0]).0, ops[1..]);
    }
  }

  lemma EmptyCounted()
    ensures Inv(EMPTY) && Counted(EMPTY)
  {
  }

  /** In every run, the free and the occupied slots of a task add up to its capability spaces less one slot. */
  lemma SlotsAlwaysConserved(ops: seq<Op>, t: Task)
    requires LegalRun(EMPTY, ops)
    requires var k := Run(EMPTY, ops); t in k.spaces && k.spaces[t] > 0
    ensures
      var k := Run(EMPTY, ops);
      t in k.count && k.count[t] + |OccupiedBy(k, t)| == SLOTS_PER_SPACE * k.spaces[t] - 1
  {
    hide Inv, LegalRun, Counted, Step, Run;
    EmptyCounted();
    RunCounted(EMPTY, ops);
    SlotsConserved(Run(EMPTY, ops), t);
  }

  /** A list holds either occupied slots only, or is one task's free list, or is a reserved slot alone. */
  lemma SlotsPartitioned(k: Kernel, s: Slot, x: Slot)
    requires s in k.cap && x in k.cap && SameList(k, s, x)
    ensures Occupied(k, s) ==> Occupied(k, x)
    ensures s in k.reserved ==> x == s
    ensures !Occupied(k, s) && s !in k.reserved ==>
      s in k.owner && x in k.owner && k.owner[x] == k.owner[s] && OnFreeOf(k, k.owner[s], s)
  {
    assert SlotOk(k, NULL, s) && SlotOk(k, NULL, x);
    Same(k.lists, s, x);
    if !Occupied(k, s) && s !in k.reserved {
      assert FreeOwn(k, k.owner[s], x);
    } else if Occupied(k, s) && !Occupied(k, x) {
      NullsApart(k, x, s);
    }
  }

  /** All slots that stand for one task or endpoint form one unbroken stretch of one list. */
  lemma DenotationContiguous(k: Kernel, s: Slot, x: Slot, y: Slot)
    requires Occupied(k, s) && Occupied(k, x) && Occupied(k, y) && s in k.lists.on && x in k.lists.on && y in k.lists.on
    requires SameShared(k.cap[Resolve(k, s)], k.cap[Resolve(k, y)])
    ensures SameList(k, s, y)
    ensures Before(k, s, x) && Before(k, x, y) ==> SameShared(k.cap[Resolve(k, s)], k.cap[Resolve(k, x)])
  {
    ResolveLive(k, s);
    ResolveLive(k, x);
    ResolveLive(k, y);
    var a, b, c := Resolve(k, s), Resolve(k, x), Resolve(k, y);
    assert OneList(k, a, c);
    if Before(k, s, x) && Before(k, x, y) {
      ResolveOrder(k, s, x);
      ResolveOrder(k, x, y);
      Same(k.lists, a, b);
      Same(k.lists, b, c);
      assert Unbroken(k, a, b, c);
    }
  }

  lemma ResolveOrder(k: Kernel, s: Slot, x: Slot)
    requires Occupied(k, s) && Occupied(k, x) && Before(k, s, x)
    ensures k.lists.at[Resolve(k, s)] <= k.lists.at[Resolve(k, x)] && SameList(k, Resolve(k, s), Resolve(k, x))
  {
    ResolveLive(k, s);
    ResolveLive(k, x);
  }

  /**
   Two capabilities for different objects cover disjoint memory, unless one was carved from the other and stands
   behind it.
   */
  lemma LiveObjectsApart(k: Kernel, s: Slot, x: Slot)
    requires s != x && s in k.cap && x in k.cap && Placed(k.cap[s]) && Placed(k.cap[x])
    requires !SameShared(k.cap[s], k.cap[x])
    ensures Apart(k.cap[s], k.cap[x]) || Under(k, s, x) || Under(k, x, s)
  {
    assert Nested(k, s, x);
  }

  /** An object that was made is held or destroyed, never both. */
  lemma HeldOrDestroyed(k: Kernel, c: Cap)
    requires c in k.made
    ensures Alive(k, c) <==> !Gone(k, c)
  {
    var i :| 0 <= i < |k.made| && k.made[i] == c;
    assert Alive(k, k.made[i]) || Gone(k, k.made[i]);
    forall s, j | s in k.cap && 0 <= j < |k.destroyed| && SameShared(k.destroyed[j], c)
      ensures !SameShared(k.cap[s], c)
    {
      assert DeadApart(k.destroyed[j], k.cap[s]);
      SharedTrans(k.cap[s], c, k.destroyed[j]);
      SharedTrans(k.destroyed[j], c, k.cap[s]);
    }
  }

  /** `destroy_object` runs on a task or endpoint in exactly the step that takes away the last slot holding it. */
  lemma DestroyedWithLastSlot(k: Kernel, op: Op, c: Cap)
    requires Legal(k, op) && c in k.made
    ensures
      var r := Step(k, op).0;
      (Alive(k, c) && !Alive(r, c)) <==> (!Gone(k, c) && Gone(r, c))
    ensures Gone(k, c) ==> !Alive(Step(k, op).0, c)
  {
    StepConduct(k, op);
    var r := Step(k, op).0;
    assert c in r.made by {
      var i :| 0 <= i < |k.made| && k.made[i] == c;
      assert r.made[i] == c;
    }
    HeldOrDestroyed(k, c);
    HeldOrDestroyed(r, c);
    if Gone(k, c) {
      var i :| 0 <= i < |k.destroyed| && SameShared(k.destroyed[i], c);
      assert r.destroyed[i] == k.destroyed[i];
    }
  }
}
