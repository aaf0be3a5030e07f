/**
 The kernel's operations on capability slots, as functions on the whole slot state, and what
 each of them keeps.
 */
module CapOps {
  import opened SlotLinks
  import opened Capability
  import opened Derivation
  import opened Lineage

  /** What every operation may rely on about slots and lists. */
  ghost predicate Sound(k: State) { Partitioned(k, NULL) && ZombiesOk(k) }

  lemma Pushable(k: State, s: Slot)
    requires Partitioned(k, NULL) && Occupied(k, s)
    ensures k.lists.Ok() && k.lists.Placed(s) && s in k.owner && s !in k.reserved
    ensures HeadOk(k, k.owner[s]) && !OnFreeOf(k, k.owner[s], s)
  {
    assert SlotOk(k, NULL, s);
  }

  /** The two states agree on everything that places slots. */
  lemma SamePartition(k: State, r: State)
    requires Partitioned(k, NULL)
    requires r.lists == k.lists && r.cap == k.cap && r.owner == k.owner && r.reserved == k.reserved
    requires r.free == k.free && r.count == k.count
    ensures Partitioned(r, NULL)
  {
    forall t | t in r.free ensures HeadOk(r, t) { assert HeadOk(k, t); }
    forall s | s in r.lists.on ensures SlotOk(r, NULL, s) { assert SlotOk(k, NULL, s); }
    forall t, s ensures FreeOwn(r, t, s) { assert FreeOwn(k, t, s); }
    forall s ensures Owned(r, s) { assert Owned(k, s); }
  }

  // ---------------------------------------------------------------- freeing one slot

  predicate OrderKept(k: State, r: State, x: Slot, y: Slot) {
    Occupied(r, x) && Occupied(r, y) ==>
      && Occupied(k, x) && Occupied(k, y)
      && (SameList(r, x, y) <==> SameList(k, x, y))
      && (Before(r, x, y) <==> Before(k, x, y))
  }

  /** What is occupied in `r` was occupied in `k`, in the same order. */
  ghost predicate Sub(k: State, r: State) {
    forall x, y :: OrderKept(k, r, x, y)
  }

  /** Exactly the slots `gone` were freed. */
  ghost predicate Freed(k: State, r: State, gone: set<Slot>) {
    && Sub(k, r)
    && r.owner == k.owner && r.reserved == k.reserved && r.spaces == k.spaces
    && (forall x :: Occupied(r, x) <==> Occupied(k, x) && x !in gone)
  }

  lemma Stays(k: State, r: State, gone: set<Slot>, x: Slot)
    requires Freed(k, r, gone) && Occupied(k, x) && x !in gone
    ensures Occupied(r, x)
  {
  }

  /** Freeing a slot keeps the order of all others and their capabilities. */
  lemma PushFrees(k: State, s: Slot)
    requires Partitioned(k, NULL) && Occupied(k, s)
    ensures k.lists.Ok() && s in k.owner && HeadOk(k, k.owner[s]) && !OnFreeOf(k, k.owner[s], s)
    ensures Partitioned(Push(k, s), NULL)
    ensures Freed(k, Push(k, s), {s}) && Pushed(k, s, Push(k, s))
  {
    Pushable(k, s);
    PushPartitioned(k, NULL, s);
    PushedFrees(k, s, Push(k, s));
  }

  lemma PushedFrees(k: State, s: Slot, r: State)
    requires Partitioned(k, NULL) && Occupied(k, s) && s in k.owner && HeadOk(k, k.owner[s]) && Pushed(k, s, r)
    ensures Freed(k, r, {s})
  {
    forall x, y ensures OrderKept(k, r, x, y) {
      if Occupied(r, x) && Occupied(r, y) { PushOrder(k, s, r, x, y); }
    }
  }

  lemma PushOrder(k: State, s: Slot, r: State, x: Slot, y: Slot)
    requires Partitioned(k, NULL) && Occupied(k, s) && s in k.owner && HeadOk(k, k.owner[s]) && Pushed(k, s, r)
    requires Occupied(r, x) && Occupied(r, y)
    ensures OrderKept(k, r, x, y)
  {
    var h := k.free[k.owner[s]];
    assert MovedTo(k.lists, r.lists, h, s, x) && MovedTo(k.lists, r.lists, h, s, y);
    if h != NULL {
      assert SlotOk(k, NULL, h) && FreeOwn(k, k.owner[s], h);
      NullsApart(k, h, x);
      NullsApart(k, h, y);
    }
    Same(k.lists, s, x);
    Same(k.lists, s, y);
  }

  /** Freeing a slot strands no zombie unless it was the last slot behind one. */
  lemma FreedZombiesOk(k: State, r: State, s: Slot)
    requires Partitioned(k, NULL) && Partitioned(r, NULL) && Occupied(k, s) && Freed(k, r, {s})
    requires forall x :: Occupied(r, x) && r.cap[x].ZombieCap? ==> NotLast(k, x)
    requires forall x :: Occupied(r, x) && r.cap[x].ZombieCap? && k.lists.Next(x) == s ==> NotLast(k, s)
    ensures ZombiesOk(r)
  {
    forall x | x in r.cap && r.cap[x].ZombieCap? ensures NotLast(r, x) {
      assert OrderKept(k, r, x, x);
      Neighbour(k.lists, x);
      Behind(k, x, s);
      var y := if k.lists.Next(x) == s then k.lists.Next(s) else k.lists.Next(x);
      StillNotLast(k, r, s, x, y);
    }
  }

  lemma Behind(k: State, x: Slot, s: Slot)
    requires Partitioned(k, NULL) && Occupied(k, x) && NotLast(k, x)
    ensures Occupied(k, k.lists.Next(x)) && Before(k, x, k.lists.Next(x))
    ensures k.lists.Next(x) == s && NotLast(k, s) ==>
      Occupied(k, k.lists.Next(s)) && Before(k, x, k.lists.Next(s)) && k.lists.Next(s) != s
  {
    Neighbour(k.lists, x);
    NextOccupied(k, x);
    if k.lists.Next(x) == s && NotLast(k, s) { Neighbour(k.lists, s); NextOccupied(k, s); }
  }

  lemma NextOccupied(k: State, x: Slot)
    requires Partitioned(k, NULL) && Occupied(k, x) && NotLast(k, x)
    ensures Occupied(k, k.lists.Next(x))
  {
    Neighbour(k.lists, x);
    var y := k.lists.Next(x);
    assert y in k.cap;
    if k.cap[y].NullCap? { NullsApart(k, y, x); }
  }

  lemma StillNotLast(k: State, r: State, s: Slot, x: Slot, y: Slot)
    requires Partitioned(r, NULL) && Freed(k, r, {s}) && Occupied(r, x) && Occupied(k, y) && y != s && Before(k, x, y)
    ensures NotLast(r, x)
  {
    assert OrderKept(k, r, x, y);
    assert SlotOk(r, NULL, x) && SlotOk(r, NULL, y);
  }

  function Identity(k: State): (g: map<Slot, Slot>) {
    map x | x in k.cap :: x
  }

  predicate CapKept(k: State, r: State, x: Slot) {
    Occupied(r, x) ==> x in k.cap && r.cap[x] == k.cap[x]
  }

  /** Dropping slots and changing no other capability. */
  lemma DropEmbeds(k: State, r: State)
    requires Sub(k, r) && forall x :: CapKept(k, r, x)
    ensures Embeds(r, k, Identity(k))
  {
    var g := Identity(k);
    forall x ensures ImageAt(r, k, g, x) { assert CapKept(k, r, x); }
    forall x, y ensures ImagePair(r, k, g, x, y) { assert OrderKept(k, r, x, y); }
  }

  /** In what follows `q`, `p` may stand for it. */
  predicate StandsFor(k: State, r: State, p: Slot, q: Slot, x: Slot) {
    Occupied(r, x) && x != p ==>
      && (SameList(k, q, x) ==> SameList(k, p, x))
      && (Before(k, p, x) ==> Before(k, q, x))
      && (Before(k, x, p) ==> Before(k, x, q))
  }

  /** Dropping slots, one of which, `q`, passes its capability to the zombie `p`. */
  lemma MoveEmbeds(k: State, r: State, gone: set<Slot>, p: Slot, q: Slot)
    requires Freed(k, r, gone) && Occupied(r, p) && p in r.lists.on && q in gone && q in k.cap && r.cap[p] == k.cap[q]
    requires forall x :: x != p ==> CapKept(k, r, x)
    requires forall x :: StandsFor(k, r, p, q, x)
    ensures Embeds(r, k, Identity(k)[p := q])
  {
    var g := Identity(k)[p := q];
    forall x ensures ImageAt(r, k, g, x) { if x != p { assert CapKept(k, r, x); } }
    forall x, y ensures ImagePair(r, k, g, x, y) {
      assert OrderKept(k, r, x, y) && StandsFor(k, r, p, q, x) && StandsFor(k, r, p, q, y);
      assert q in gone ==> !Occupied(r, q);
    }
  }

  // ---------------------------------------------------------------- destroying the last slot of a list

  /** What `destroy_object` leaves; it is called on held capabilities only. */
  function DestroyObject(k: State, s: Slot): (r: State)
    requires s in k.cap
  {
    var c := k.cap[s];
    k.(cap := if c.MemCap? then k.cap[s := c.(used := 0)] else k.cap,
       killed := if c.TaskCap? then k.killed + {c.task} else k.killed,
       destroyed := k.destroyed + [c])
  }

  predicate Last(k: State, s: Slot) {
    k.lists.Placed(s) && k.lists.at[s] + 1 == |k.lists.Of(s)|
  }

  /** What `destroy_cap_slot` does before it frees the slot: hand the capability back, or destroy the object. */
  function Release(k: State, s: Slot): (r: State)
    requires k.lists.Ok() && Occupied(k, s) && s in k.lists.on && (forall x :: x in k.lists.on ==> x in k.cap)
  {
    Backward(k.lists, s);
    var p := k.lists.Prev(s);
    if p == NULL then DestroyObject(k, s)
    else if k.cap[p].ZombieCap? then SetCap(k, p, k.cap[s])
    else if !IsSame(k, p, s) then DestroyObject(k, s)
    else k
  }

  lemma Backward(L: Lists, s: Slot)
    requires L.Ok() && s in L.on
    ensures L.Placed(s)
    ensures L.Prev(s) != NULL ==> L.Holds(L.on[s], L.Prev(s), L.at[s] - 1)
    ensures L.Prev(s) == NULL <==> L.at[s] == 0
  {
    assert L.Placed(s);
    if 0 < L.at[s] {
      assert L.Holds(L.on[s], L.seqs[L.on[s]][L.at[s] - 1], L.at[s] - 1);
      assert L.Placed(L.Prev(s));
    }
  }

  lemma ReleasePartitioned(k: State, s: Slot)
    requires Partitioned(k, NULL) && Occupied(k, s)
    ensures Partitioned(Release(k, s), NULL) && Occupied(Release(k, s), s)
  {
    assert SlotOk(k, NULL, s);
    Backward(k.lists, s);
    var p := k.lists.Prev(s);
    if p != NULL && k.cap[p].ZombieCap? {
      SetCapPartitioned(k, p, k.cap[s]);
    } else if p == NULL || !IsSame(k, p, s) {
      DestroyPartitioned(k, s);
    }
  }

  lemma DestroyPartitioned(k: State, s: Slot)
    requires Partitioned(k, NULL) && Occupied(k, s)
    ensures Partitioned(DestroyObject(k, s), NULL) && Occupied(DestroyObject(k, s), s)
  {
    var c := k.cap[s];
    if c.MemCap? {
      SetCapPartitioned(k, s, c.(used := 0));
      SamePartition(SetCap(k, s, c.(used := 0)), DestroyObject(k, s));
    } else {
      SamePartition(k, DestroyObject(k, s));
    }
  }

  /** What `destroy_cap_slot` leaves. */
  function DestroyTail(k: State, s: Slot): (r: State)
    requires Partitioned(k, NULL) && Occupied(k, s)
  {
    ReleasePartitioned(k, s);
    PushFrees(Release(k, s), s);
    Push(Release(k, s), s)
  }

  // What `destroy_cap_slot` keeps when the slot is the last of its list.

  lemma DestroyTailFrees(k: State, s: Slot)
    requires Partitioned(k, NULL) && Occupied(k, s)
    ensures Partitioned(DestroyTail(k, s), NULL)
    ensures Freed(k, DestroyTail(k, s), {s})
  {
    ReleasePartitioned(k, s);
    var m := Release(k, s);
    PushFrees(m, s);
    ReleaseOrder(k, s);
    var r := Push(m, s);
    forall x, y ensures OrderKept(k, r, x, y) {
      assert OrderKept(m, r, x, y) && OrderKept(k, m, x, y);
    }
  }

  lemma ReleaseOrder(k: State, s: Slot)
    requires Partitioned(k, NULL) && Occupied(k, s)
    ensures Freed(k, Release(k, s), {})
  {
    assert SlotOk(k, NULL, s);
    Backward(k.lists, s);
    SameOrder(k, Release(k, s));
  }

  lemma SameOrder(k: State, r: State)
    requires r.lists == k.lists && r.owner == k.owner && r.reserved == k.reserved && r.spaces == k.spaces
    requires forall x :: Occupied(r, x) <==> Occupied(k, x)
    ensures Freed(k, r, {})
  {
  }

  /** What holds in every reachable state. */
  ghost predicate Inv(k: State) { Sound(k) && Lawful(k) && Ledger(k) }

  /** The zombies between a slot and the slot it resolves to; a held slot resolves to itself. */
  lemma ResolveLive(k: State, s: Slot)
    requires Sound(k) && Occupied(k, s)
    ensures s in k.lists.on && Holding(k, Resolve(k, s))
  {
    assert SlotOk(k, NULL, s);
    var r := Resolve(k, s);
    assert SlotOk(k, NULL, r);
    assert k.cap[r].ZombieCap? ==> NotLast(k, r);
    if k.cap[r].NullCap? { NullsApart(k, r, s); }
  }

  /** A second slot for the same kernel object shows in a neighbour. */
  lemma SharedNeighbour(k: State, s: Slot, y: Slot)
    requires Sound(k) && Lawful(k) && Holding(k, s) && Holding(k, y) && s != y && SameShared(k.cap[s], k.cap[y])
    ensures k.lists.Placed(s)
    ensures
      || (k.lists.Prev(s) != NULL && k.lists.Prev(s) in k.lists.on && IsSame(k, k.lists.Prev(s), s))
      || (k.lists.Next(s) != NULL && k.lists.Next(s) in k.lists.on && IsSame(k, k.lists.Next(s), s))
  {
    assert SlotOk(k, NULL, s) && SlotOk(k, NULL, y) && OneList(k, s, y);
    Same(k.lists, s, y);
    if k.lists.at[y] < k.lists.at[s] {
      Backward(k.lists, s);
      SharedBefore(k, s, y, k.lists.Prev(s));
    } else {
      Neighbour(k.lists, s);
      SharedBehind(k, s, y, k.lists.Next(s));
    }
  }

  lemma SharedBefore(k: State, s: Slot, y: Slot, p: Slot)
    requires Sound(k) && Lawful(k) && Holding(k, s) && Holding(k, y) && SameShared(k.cap[s], k.cap[y])
    requires Before(k, y, s)
    requires p in k.lists.on && SameList(k, p, s) && k.lists.at[p] == k.lists.at[s] - 1
    ensures IsSame(k, p, s)
  {
    assert SlotOk(k, NULL, p);
    if k.cap[p].NullCap? { NullsApart(k, p, s); }
    ResolveLive(k, p);
    var q := Resolve(k, p);
    if k.cap[p].ZombieCap? {
      Same(k.lists, p, q);
      Same(k.lists, s, q);
      assert q == s;
    } else {
      Same(k.lists, y, p);
      assert Unbroken(k, y, p, s);
      SharedTrans(k.cap[s], k.cap[y], k.cap[p]);
      SharedTrans(k.cap[y], k.cap[s], k.cap[p]);
    }
  }

  lemma SharedBehind(k: State, s: Slot, y: Slot, n: Slot)
    requires Sound(k) && Lawful(k) && Holding(k, s) && Holding(k, y) && SameShared(k.cap[s], k.cap[y])
    requires Before(k, s, y)
    requires n in k.lists.on && SameList(k, n, s) && k.lists.at[n] == k.lists.at[s] + 1
    ensures IsSame(k, n, s)
  {
    assert SlotOk(k, NULL, n);
    if k.cap[n].NullCap? { NullsApart(k, n, s); }
    ResolveLive(k, n);
    var q := Resolve(k, n);
    assert k.lists.at[q] <= k.lists.at[y];
    Same(k.lists, q, y);
    assert Unbroken(k, s, q, y);
    SharedTrans(k.cap[s], k.cap[q], k.cap[y]);
    SharedTrans(k.cap[q], k.cap[s], k.cap[y]);
  }

  ghost predicate HeldElsewhere(k: State, s: Slot)
    requires s in k.cap
  {
    exists y :: y in k.cap && y != s && SameShared(k.cap[y], k.cap[s])
  }

  /** The held slot `s` is freed, and its object destroyed exactly when no other slot holds it. */
  lemma DropKeeps(k: State, s: Slot, r: State, more: seq<Cap>)
    requires Inv(k) && Holding(k, s) && Partitioned(r, NULL) && ZombiesOk(r) && Freed(k, r, {s})
    requires forall x :: CapKept(k, r, x)
    requires r.made == k.made && r.destroyed == k.destroyed + more
    requires Shared(k.cap[s]) && HeldElsewhere(k, s) ==> more == []
    requires Shared(k.cap[s]) && !HeldElsewhere(k, s) ==> more == [k.cap[s]]
    requires more == [] || more == [k.cap[s]]
    requires more != [] && k.cap[s].MemCap? ==> Last(k, s)
    ensures Inv(r)
  {
    DropEmbeds(k, r);
    EmbeddedLawful(r, k, Identity(k));
    DropLedger(k, s, r, more);
  }

  lemma DropLedger(k: State, s: Slot, r: State, more: seq<Cap>)
    requires Inv(k) && Holding(k, s) && Freed(k, r, {s}) && Embeds(r, k, Identity(k))
    requires forall x :: CapKept(k, r, x)
    requires r.made == k.made && r.destroyed == k.destroyed + more
    requires Shared(k.cap[s]) && HeldElsewhere(k, s) ==> more == []
    requires Shared(k.cap[s]) && !HeldElsewhere(k, s) ==> more == [k.cap[s]]
    requires more == [] || more == [k.cap[s]]
    requires more != [] && k.cap[s].MemCap? ==> Last(k, s)
    ensures Ledger(r)
  {
    forall x | x in k.cap && Shared(k.cap[x]) ensures Alive(r, k.cap[x]) || Gone(r, k.cap[x]) {
      DropAccounted(k, s, r, more, x);
    }
    forall i, x | 0 <= i < |more| && x in r.cap ensures DeadApart(more[i], r.cap[x]) {
      DropDeadApart(k, s, r, x);
    }
    forall i, j | 0 <= i < |k.destroyed| && 0 <= j < |more| ensures !SameShared(k.destroyed[i], more[j]) {
      assert DeadApart(k.destroyed[i], k.cap[s]);
    }
    LedgerKept(k, r, Identity(k), more);
  }

  lemma DropAccounted(k: State, s: Slot, r: State, more: seq<Cap>, x: Slot)
    requires s in k.cap && Freed(k, r, {s}) && forall x :: CapKept(k, r, x)
    requires r.destroyed == k.destroyed + more
    requires Shared(k.cap[s]) && !HeldElsewhere(k, s) ==> more == [k.cap[s]]
    requires x in k.cap && Shared(k.cap[x])
    ensures Alive(r, k.cap[x]) || Gone(r, k.cap[x])
  {
    if x != s {
      assert Occupied(r, x) && CapKept(k, r, x) && SameShared(r.cap[x], k.cap[x]);
    } else if HeldElsewhere(k, s) {
      var y :| y in k.cap && y != s && SameShared(k.cap[y], k.cap[s]);
      assert Occupied(r, y) && CapKept(k, r, y);
    } else {
      assert r.destroyed[|k.destroyed|] == k.cap[s];
    }
  }

  lemma DropDeadApart(k: State, s: Slot, r: State, x: Slot)
    requires Inv(k) && Holding(k, s) && Freed(k, r, {s}) && CapKept(k, r, x) && x in r.cap
    requires !(Shared(k.cap[s]) && HeldElsewhere(k, s)) && (k.cap[s].MemCap? ==> Last(k, s))
    ensures DeadApart(k.cap[s], r.cap[x])
  {
    assert Occupied(r, x) ==> x in k.cap && x != s && r.cap[x] == k.cap[x];
    if Occupied(r, x) {
      assert Nested(k, s, x) && SlotOk(k, NULL, x);
      SharedTrans(k.cap[s], k.cap[x], k.cap[s]);
    }
  }

  /** What `DestroyTail` does to the capabilities that stay, and to the record of destroyed ones. */
  ghost predicate TailDone(k: State, s: Slot, r: State)
    requires k.lists.Ok() && s in k.lists.on && (forall x :: x in k.lists.on ==> x in k.cap)
  {
    Backward(k.lists, s);
    var p := k.lists.Prev(s);
    && Partitioned(r, NULL) && Freed(k, r, {s}) && r.made == k.made
    && if p != NULL && k.cap[p].ZombieCap? then
         p in r.cap && r.cap[p] == k.cap[s] && (forall x :: x != p ==> CapKept(k, r, x)) && r.destroyed == k.destroyed
       else
         && (forall x :: CapKept(k, r, x))
         && r.destroyed == k.destroyed + (if p == NULL || !IsSame(k, p, s) then [k.cap[s]] else [])
  }

  lemma DestroyTailDone(k: State, s: Slot)
    requires Partitioned(k, NULL) && Occupied(k, s)
    ensures TailDone(k, s, DestroyTail(k, s))
  {
    DestroyTailFrees(k, s);
    ReleaseDone(k, s);
    Backward(k.lists, s);
    var m, r := Release(k, s), DestroyTail(k, s);
    assert r.cap == m.cap[s := NullCap] && r.made == m.made && r.destroyed == m.destroyed;
  }

  lemma ReleaseDone(k: State, s: Slot)
    requires Partitioned(k, NULL) && Occupied(k, s)
    ensures k.lists.Placed(s) && Release(k, s).made == k.made
    ensures
      var p, m := k.lists.Prev(s), Release(k, s);
      if p != NULL && p in k.cap && k.cap[p].ZombieCap? then m.cap == k.cap[p := k.cap[s]] && m.destroyed == k.destroyed
      else
        && (p != NULL ==> p in k.lists.on)
        && (forall x :: x != s && x in m.cap ==> x in k.cap && m.cap[x] == k.cap[x])
        && m.destroyed == k.destroyed + (if p == NULL || !IsSame(k, p, s) then [k.cap[s]] else [])
  {
    Backward(k.lists, s);
  }

  /** Destroying the last slot of a list keeps every invariant. */
  lemma DestroyTailKeeps(k: State, s: Slot)
    requires Inv(k) && Occupied(k, s) && Last(k, s)
    ensures Inv(DestroyTail(k, s)) && Freed(k, DestroyTail(k, s), {s}) && Holding(k, s)
    ensures TailDone(k, s, DestroyTail(k, s))
  {
    DestroyTailDone(k, s);
    TailDoneKeeps(k, s, DestroyTail(k, s));
  }

  lemma TailDoneKeeps(k: State, s: Slot, r: State)
    requires Inv(k) && Occupied(k, s) && Last(k, s) && TailDone(k, s, r)
    ensures Inv(r) && Holding(k, s)
  {
    assert k.cap[s].ZombieCap? ==> NotLast(k, s);
    Backward(k.lists, s);
    var p := k.lists.Prev(s);
    TailZombies(k, s, r);
    if p != NULL && k.cap[p].ZombieCap? {
      TailHandsBack(k, s, p, r);
    } else {
      ReleaseCases(k, s);
      DropKeeps(k, s, r, if p == NULL || !IsSame(k, p, s) then [k.cap[s]] else []);
    }
  }

  /** With no zombie before it, the last slot's object is destroyed exactly when the slot before holds another. */
  lemma ReleaseCases(k: State, s: Slot)
    requires Inv(k) && Holding(k, s) && Last(k, s) && s in k.lists.on
    requires k.lists.Prev(s) != NULL ==> k.lists.Prev(s) in k.cap && !k.cap[k.lists.Prev(s)].ZombieCap?
    ensures k.lists.Prev(s) != NULL ==> k.lists.Prev(s) in k.lists.on
    ensures k.lists.Prev(s) != NULL && IsSame(k, k.lists.Prev(s), s) ==> Shared(k.cap[s]) ==> HeldElsewhere(k, s)
    ensures k.lists.Prev(s) == NULL || !IsSame(k, k.lists.Prev(s), s) ==> !HeldElsewhere(k, s)
  {
    Backward(k.lists, s);
    Neighbour(k.lists, s);
    var p := k.lists.Prev(s);
    if p != NULL {
      assert Resolve(k, p) == p && Resolve(k, s) == s && p != s;
      if IsSame(k, p, s) && Shared(k.cap[s]) { assert SameShared(k.cap[p], k.cap[s]); }
    }
    forall y | y in k.cap && y != s && SameShared(k.cap[y], k.cap[s]) ensures p != NULL && IsSame(k, p, s) {
      SharedTrans(k.cap[y], k.cap[s], k.cap[y]);
      SharedNeighbour(k, s, y);
    }
  }

  lemma TailZombies(k: State, s: Slot, r: State)
    requires Sound(k) && Holding(k, s) && Last(k, s) && s in k.lists.on && TailDone(k, s, r)
    ensures ZombiesOk(r)
  {
    forall x | Occupied(r, x) && r.cap[x].ZombieCap? ensures NotLast(k, x) && k.lists.Next(x) != s {
      TailZombie(k, s, r, x);
    }
    FreedZombiesOk(k, r, s);
  }

  lemma TailZombie(k: State, s: Slot, r: State, x: Slot)
    requires Sound(k) && Holding(k, s) && Last(k, s) && s in k.lists.on && TailDone(k, s, r)
    requires Occupied(r, x) && r.cap[x].ZombieCap?
    ensures NotLast(k, x) && k.lists.Next(x) != s
  {
    Backward(k.lists, s);
    var p := k.lists.Prev(s);
    assert x != p ==> CapKept(k, r, x);
    assert k.cap[x].ZombieCap? && NotLast(k, x);
    Neighbour(k.lists, x);
    if p != NULL { Same(k.lists, x, p); }
  }

  lemma TailHandsBack(k: State, s: Slot, p: Slot, r: State)
    requires Inv(k) && Holding(k, s) && Last(k, s) && s in k.lists.on && TailDone(k, s, r) && ZombiesOk(r)
    requires p == k.lists.Prev(s) && p != NULL && p in k.cap && k.cap[p].ZombieCap?
    ensures Inv(r)
  {
    Backward(k.lists, s);
    assert Occupied(k, p) && p != s;
    assert Occupied(r, p);
    assert p in r.lists.on;
    forall x ensures StandsFor(k, r, p, s, x) { TailStandsFor(k, s, p, r, x); }
    MoveEmbeds(k, r, {s}, p, s);
    forall x | x in k.cap && Shared(k.cap[x]) && x != s ensures x in r.cap && r.cap[x] == k.cap[x] {
      Stays(k, r, {s}, x);
      assert x != p && CapKept(k, r, x);
    }
    MovedKeeps(k, r, p, s);
  }

  lemma TailStandsFor(k: State, s: Slot, p: Slot, r: State, x: Slot)
    requires Partitioned(k, NULL) && Last(k, s) && s in k.lists.on && Freed(k, r, {s})
    requires p in k.lists.on && SameList(k, p, s) && k.lists.at[p] + 1 == k.lists.at[s]
    ensures StandsFor(k, r, p, s, x)
  {
    if Occupied(r, x) {
      assert SlotOk(k, NULL, x);
      Same(k.lists, s, x);
    }
  }

  /** Dropping slots, one of which passes its capability on, keeps what the invariants say of capabilities. */
  lemma MovedKeeps(k: State, r: State, p: Slot, q: Slot)
    requires Inv(k) && Partitioned(r, NULL) && ZombiesOk(r) && Embeds(r, k, Identity(k)[p := q])
    requires r.made == k.made && r.destroyed == k.destroyed
    requires forall x :: x in k.cap && Shared(k.cap[x]) && x != q ==> x in r.cap && r.cap[x] == k.cap[x]
    requires q in k.cap && p in r.cap && r.cap[p] == k.cap[q]
    ensures Inv(r)
  {
    var g := Identity(k)[p := q];
    EmbeddedLawful(r, k, g);
    forall x | x in k.cap && Shared(k.cap[x]) ensures Alive(r, k.cap[x]) {
      var y := if x == q then p else x;
      assert SameShared(r.cap[y], k.cap[x]);
    }
    LedgerSame(k, r, g);
  }

  lemma LedgerSame(k: State, r: State, g: map<Slot, Slot>)
    requires Ledger(k) && Embeds(r, k, g) && r.made == k.made && r.destroyed == k.destroyed
    requires forall s :: s in k.cap && Shared(k.cap[s]) ==> Alive(r, k.cap[s])
    ensures Ledger(r)
  {
    assert r.destroyed == k.destroyed + [];
    LedgerKept(k, r, g, []);
  }

  // ---------------------------------------------------------------- revoking a memory capability

  /** The last slot of the list of `s`. */
  function Tail(k: State, s: Slot): (t: Slot)
    requires k.lists.Ok() && s in k.lists.on
    ensures SameList(k, s, t) && Last(k, t)
  {
    assert k.lists.Placed(s);
    var n := k.lists.on[s];
    var i := |k.lists.seqs[n]| - 1;
    assert k.lists.Holds(n, k.lists.seqs[n][i], i) && k.lists.Placed(k.lists.seqs[n][i]);
    k.lists.seqs[n][i]
  }

  lemma TailOccupied(k: State, s: Slot)
    requires Partitioned(k, NULL) && Occupied(k, s)
    ensures s in k.lists.on && Occupied(k, Tail(k, s))
    ensures !Last(k, s) ==> Tail(k, s) != s && Before(k, s, Tail(k, s))
  {
    assert SlotOk(k, NULL, s);
    var t := Tail(k, s);
    assert SlotOk(k, NULL, t);
    if k.cap[t].NullCap? { NullsApart(k, t, s); }
    Same(k.lists, s, t);
  }

  /** Taking the last slot away leaves the others in place. */
  lemma TailLeaves(k: State, t: Slot, s: Slot)
    requires Partitioned(k, NULL) && Occupied(k, t) && Last(k, t) && Occupied(k, s) && Before(k, s, t)
    ensures DestroyTail(k, t).lists.Placed(s)
    ensures DestroyTail(k, t).lists.at[s] == k.lists.at[s]
    ensures k.lists.Placed(s) && |DestroyTail(k, t).lists.Of(s)| == |k.lists.Of(s)| - 1
  {
    ReleasePartitioned(k, t);
    var m := Release(k, t);
    ReleaseSame(k, t);
    Pushable(m, t);
    PushPartitioned(m, NULL, t);
    LastLeaves(m, t, Push(m, t), s);
  }

  lemma ReleaseSame(k: State, t: Slot)
    requires Partitioned(k, NULL) && Occupied(k, t)
    ensures Release(k, t).lists == k.lists
    ensures Occupied(Release(k, t), t)
    ensures forall x :: Occupied(k, x) ==> Occupied(Release(k, t), x)
  {
    Backward(k.lists, t);
  }

  lemma LastLeaves(m: State, t: Slot, r: State, s: Slot)
    requires Partitioned(m, NULL) && Occupied(m, t) && Last(m, t) && Occupied(m, s) && Before(m, s, t)
    requires t in m.owner && HeadOk(m, m.owner[t]) && Pushed(m, t, r)
    ensures r.lists.Placed(s) && m.lists.Placed(s)
    ensures r.lists.at[s] == m.lists.at[s] && |r.lists.Of(s)| == |m.lists.Of(s)| - 1
  {
    var h := m.free[m.owner[t]];
    assert MovedTo(m.lists, r.lists, h, t, s);
    if h != NULL {
      assert SlotOk(m, NULL, h) && FreeOwn(m, m.owner[t], h);
      NullsApart(m, h, s);
    }
  }

  /** Exactly what stands behind `s` is gone; the rest keeps its capability and its order. */
  ghost predicate Cut(k: State, s: Slot, r: State) {
    && Sub(k, r) && r.owner == k.owner && r.reserved == k.reserved && r.spaces == k.spaces && r.made == k.made
    && k.destroyed <= r.destroyed
    && (forall x :: Occupied(r, x) <==> Occupied(k, x) && !Before(k, s, x))
    && (forall x :: CapKept(k, r, x))
  }

  /** What `revoke_cap` leaves on a memory capability: everything behind it is destroyed, last slot first. */
  ghost function RevokeMem(k: State, s: Slot): (r: State)
    requires Inv(k) && Holding(k, s)
    ensures Inv(r) && Holding(r, s) && Last(r, s) && Cut(k, s, r)
    decreases |k.lists.Of(s)| - k.lists.at[s]
  {
    assert SlotOk(k, NULL, s);
    if Last(k, s) then
      CutNothing(k, s);
      k
    else
      TailOccupied(k, s);
      var t := Tail(k, s);
      DestroyTailKeeps(k, t);
      TailLeaves(k, t, s);
      var m := DestroyTail(k, t);
      TailCaps(k, s, t, m);
      var r := RevokeMem(m, s);
      CutMore(k, s, t, m, r);
      r
  }

  lemma CutNothing(k: State, s: Slot)
    requires Partitioned(k, NULL) && Occupied(k, s) && Last(k, s)
    ensures Cut(k, s, k)
  {
    forall x | Occupied(k, x) ensures !Before(k, s, x) { assert SlotOk(k, NULL, x); }
  }

  /** Where `t` is the last slot of the list of `s`, what is not behind `s` keeps its capability. */
  lemma TailCaps(k: State, s: Slot, t: Slot, m: State)
    requires Inv(k) && Holding(k, s) && Occupied(k, t) && Last(k, t) && Before(k, s, t) && TailDone(k, t, m)
    ensures Holding(m, s) && forall x :: Occupied(m, x) && !Before(k, s, x) ==> x in k.cap && m.cap[x] == k.cap[x]
  {
    Backward(k.lists, t);
    var p := k.lists.Prev(t);
    Same(k.lists, s, p);
    assert Holding(m, s) by { Stays(k, m, {t}, s); assert CapKept(k, m, s); }
    forall x | Occupied(m, x) && !Before(k, s, x) ensures x in k.cap && m.cap[x] == k.cap[x] {
      assert x != p ==> CapKept(k, m, x);
    }
  }

  lemma CutMore(k: State, s: Slot, t: Slot, m: State, r: State)
    requires Before(k, s, t) && Freed(k, m, {t}) && m.made == k.made && k.destroyed <= m.destroyed && Cut(m, s, r)
    requires Occupied(k, s) && Occupied(m, s)
    requires forall x :: Occupied(m, x) && !Before(k, s, x) ==> x in k.cap && m.cap[x] == k.cap[x]
    ensures Cut(k, s, r)
  {
    forall x, y ensures OrderKept(k, r, x, y) { assert OrderKept(k, m, x, y) && OrderKept(m, r, x, y); }
    forall x ensures Occupied(r, x) <==> Occupied(k, x) && !Before(k, s, x) { assert OrderKept(k, m, s, x); }
    forall x ensures CapKept(k, r, x) { assert CapKept(m, r, x); }
  }

  /** After revoking a memory capability, nothing overlaps its memory but what it was itself carved from. */
  lemma RevokeReclaims(k: State, s: Slot, x: Slot)
    requires Inv(k) && Holding(k, s) && k.cap[s].MemCap?
    requires var r := RevokeMem(k, s); x in r.cap && Placed(r.cap[x]) && x != s
    ensures
      var r := RevokeMem(k, s);
      r.cap[s] == k.cap[s] && (Apart(r.cap[x], r.cap[s]) || Under(r, s, x))
  {
    var r := RevokeMem(k, s);
    assert CapKept(k, r, s);
    NothingUnder(r, s, x);
  }

  lemma NothingUnder(r: State, s: Slot, x: Slot)
    requires Inv(r) && Holding(r, s) && Last(r, s) && r.cap[s].MemCap? && x in r.cap && Placed(r.cap[x]) && x != s
    ensures Apart(r.cap[x], r.cap[s]) || Under(r, s, x)
  {
    assert Nested(r, s, x) && SlotOk(r, NULL, x);
  }

  // ---------------------------------------------------------------- revoking a delegated capability

  /** `x` is behind `s` and not behind `q`. */
  predicate Between(k: State, s: Slot, q: Slot, x: Slot) {
    Before(k, s, x) && !Before(k, q, x)
  }

  /** Exactly the slots behind `s` up to `q` are free; nothing else changed. */
  ghost predicate CutOut(k: State, s: Slot, q: Slot, r: State) {
    && Sub(k, r) && r.owner == k.owner && r.reserved == k.reserved && r.spaces == k.spaces
    && r.made == k.made && r.destroyed == k.destroyed && r.killed == k.killed
    && (forall x :: Occupied(r, x) <==> Occupied(k, x) && !Between(k, s, q, x))
    && (forall x :: CapKept(k, r, x))
  }

  /** The second loop of `revoke_cap`: free the slots from `q` back to `s`, `s` not included. */
  ghost function FreeBack(k: State, s: Slot, q: Slot): (r: State)
    requires Partitioned(k, NULL) && Occupied(k, s) && Occupied(k, q) && (q == s || Before(k, s, q))
    ensures Partitioned(r, NULL) && CutOut(k, s, q, r)
    decreases if q in k.lists.at then k.lists.at[q] else 0
  {
    if q == s then
      CutOutNothing(k, s);
      k
    else
      PushFrees(k, q);
      var m := Push(k, q);
      StepBack(k, s, q);
      var p := k.lists.Prev(q);
      var r := FreeBack(m, s, p);
      CutOutMore(k, s, q, p, m, r);
      r
  }

  lemma CutOutNothing(k: State, s: Slot)
    requires Partitioned(k, NULL) && Occupied(k, s)
    ensures CutOut(k, s, s, k)
  {
  }

  lemma StepBack(k: State, s: Slot, q: Slot)
    requires Partitioned(k, NULL) && Occupied(k, s) && Occupied(k, q) && Before(k, s, q)
    ensures k.lists.Placed(q)
    ensures k.lists.Ok() && q in k.owner && HeadOk(k, k.owner[q]) && !OnFreeOf(k, k.owner[q], q)
    ensures
      var p, m := k.lists.Prev(q), Push(k, q);
      && Occupied(k, p) && SameList(k, p, q) && k.lists.at[p] + 1 == k.lists.at[q] && (p == s || Before(k, s, p))
      && Occupied(m, s) && Occupied(m, p) && (p == s || Before(m, s, p))
      && p in m.lists.at && m.lists.at[p] < k.lists.at[q]
  {
    PushFrees(k, q);
    Backward(k.lists, q);
    var p, m := k.lists.Prev(q), Push(k, q);
    assert SlotOk(k, NULL, p);
    if k.cap[p].NullCap? { NullsApart(k, p, q); }
    Same(k.lists, s, p);
    Stays(k, m, {q}, s);
    Stays(k, m, {q}, p);
    assert OrderKept(k, m, s, p);
    assert SlotOk(m, NULL, p);
    PushMovesBack(k, q, p);
  }

  lemma PushMovesBack(k: State, q: Slot, p: Slot)
    requires Partitioned(k, NULL) && Occupied(k, q) && Occupied(k, p) && SameList(k, p, q)
    requires k.lists.at[p] < k.lists.at[q]
    requires q in k.owner && HeadOk(k, k.owner[q]) && !OnFreeOf(k, k.owner[q], q)
    ensures p in Push(k, q).lists.at && Push(k, q).lists.at[p] == k.lists.at[p]
  {
    PushMoves(k, q);
    var h := k.free[k.owner[q]];
    assert MovedTo(k.lists, Push(k, q).lists, h, q, p);
  }

  lemma CutOutMore(k: State, s: Slot, q: Slot, p: Slot, m: State, r: State)
    requires Partitioned(k, NULL) && Occupied(k, s) && Before(k, s, q)
    requires Occupied(k, p) && SameList(k, p, q) && k.lists.at[p] + 1 == k.lists.at[q]
    requires Freed(k, m, {q}) && Occupied(m, s) && Occupied(m, p) && CutOut(m, s, p, r)
    requires m.made == k.made && m.destroyed == k.destroyed && m.killed == k.killed && forall x :: CapKept(k, m, x)
    ensures CutOut(k, s, q, r)
  {
    forall x, y ensures OrderKept(k, r, x, y) { assert OrderKept(k, m, x, y) && OrderKept(m, r, x, y); }
    forall x ensures Occupied(r, x) <==> Occupied(k, x) && !Between(k, s, q, x) {
      CutOutStep(k, s, q, p, m, r, x);
    }
    forall x ensures CapKept(k, r, x) { assert CapKept(m, r, x) && CapKept(k, m, x); }
  }

  lemma CutOutStep(k: State, s: Slot, q: Slot, p: Slot, m: State, r: State, x: Slot)
    requires Partitioned(k, NULL) && Occupied(k, s) && Before(k, s, q)
    requires Occupied(k, p) && SameList(k, p, q) && k.lists.at[p] + 1 == k.lists.at[q]
    requires Freed(k, m, {q}) && Occupied(m, s) && Occupied(m, p) && CutOut(m, s, p, r)
    ensures Occupied(r, x) <==> Occupied(k, x) && !Between(k, s, q, x)
  {
    if Occupied(k, x) {
      assert SlotOk(k, NULL, x) && SlotOk(k, NULL, s);
      Same(k.lists, q, x);
      if x != q {
        Stays(k, m, {q}, x);
        assert OrderKept(k, m, s, x) && OrderKept(k, m, p, x);
      }
    }
  }

  /** What `revoke_cap` leaves on a delegated capability. */
  ghost function RevokeZombie(k: State, s: Slot): (r: State)
    requires Inv(k) && Occupied(k, s) && k.cap[s].ZombieCap?
  {
    ResolveBehind(k, s);
    var q := Resolve(k, s);
    SetCap(FreeBack(k, s, q), s, k.cap[q])
  }

  lemma ResolveBehind(k: State, s: Slot)
    requires Sound(k) && Occupied(k, s) && k.cap[s].ZombieCap?
    ensures s in k.lists.on && Holding(k, Resolve(k, s)) && Before(k, s, Resolve(k, s))
  {
    ResolveLive(k, s);
    Same(k.lists, s, Resolve(k, s));
  }

  /** `s` takes the capability of `q` over; what was between them is free, and nothing else changed. */
  ghost predicate TakenBack(k: State, s: Slot, q: Slot, r: State) {
    && Partitioned(r, NULL) && Sub(k, r) && r.owner == k.owner && r.reserved == k.reserved && r.spaces == k.spaces
    && r.made == k.made && r.destroyed == k.destroyed && r.killed == k.killed
    && (forall x :: Occupied(r, x) <==> Occupied(k, x) && !Between(k, s, q, x))
    && s in r.cap && q in k.cap && r.cap[s] == k.cap[q]
    && (forall x :: x != s ==> CapKept(k, r, x))
  }

  lemma RevokeZombieTakes(k: State, s: Slot)
    requires Inv(k) && Occupied(k, s) && k.cap[s].ZombieCap?
    ensures s in k.lists.on && TakenBack(k, s, Resolve(k, s), RevokeZombie(k, s))
  {
    ResolveBehind(k, s);
    var q := Resolve(k, s);
    SetTaken(k, s, q, FreeBack(k, s, q));
  }

  lemma SetTaken(k: State, s: Slot, q: Slot, m: State)
    requires Occupied(k, s) && Holding(k, q) && Partitioned(m, NULL) && CutOut(k, s, q, m)
    ensures TakenBack(k, s, q, SetCap(m, s, k.cap[q]))
  {
    assert Occupied(m, s);
    SetCapPartitioned(m, s, k.cap[q]);
    var r := SetCap(m, s, k.cap[q]);
    forall x, y ensures OrderKept(k, r, x, y) { assert OrderKept(k, m, x, y); }
    forall x ensures Occupied(r, x) <==> Occupied(m, x) { }
    forall x | x != s ensures CapKept(k, r, x) { assert CapKept(k, m, x); }
  }

  /** Revoking a delegation keeps every invariant. */
  lemma RevokeZombieKeeps(k: State, s: Slot)
    requires Inv(k) && Occupied(k, s) && k.cap[s].ZombieCap?
    ensures Inv(RevokeZombie(k, s))
  {
    RevokeZombieTakes(k, s);
    ResolveBehind(k, s);
    TakenBackKeeps(k, s, Resolve(k, s), RevokeZombie(k, s));
  }

  lemma TakenBackKeeps(k: State, s: Slot, q: Slot, r: State)
    requires Inv(k) && Occupied(k, s) && k.cap[s].ZombieCap? && Holding(k, q) && Before(k, s, q)
    requires TakenBack(k, s, q, r)
    requires forall x :: Before(k, s, x) && Before(k, x, q) ==> x in k.cap && k.cap[x].ZombieCap?
    ensures Inv(r)
  {
    forall x | x in r.cap && r.cap[x].ZombieCap? ensures NotLast(r, x) { TakenBackZombie(k, s, q, r, x); }
    forall x ensures StandsFor(k, r, s, q, x) { TakenBackStandsFor(k, s, q, r, x); }
    TakenBackEmbeds(k, s, q, r);
    forall x | x in k.cap && Shared(k.cap[x]) && x != q ensures x in r.cap && r.cap[x] == k.cap[x] {
      assert SlotOk(k, NULL, x);
      if Between(k, s, q, x) { Same(k.lists, x, q); }
      assert CapKept(k, r, x);
    }
    MovedKeeps(k, r, s, q);
  }

  lemma TakenBackEmbeds(k: State, s: Slot, q: Slot, r: State)
    requires Inv(k) && Occupied(k, s) && Holding(k, q) && Before(k, s, q) && TakenBack(k, s, q, r)
    requires forall x :: StandsFor(k, r, s, q, x)
    ensures Embeds(r, k, Identity(k)[s := q])
  {
    var gone := set x | x in k.cap && Between(k, s, q, x);
    assert Freed(k, r, gone) by {
      forall x ensures Occupied(r, x) <==> Occupied(k, x) && x !in gone { }
    }
    assert s in r.lists.on;
    MoveEmbeds(k, r, gone, s, q);
  }

  lemma TakenBackStandsFor(k: State, s: Slot, q: Slot, r: State, x: Slot)
    requires Partitioned(k, NULL) && Before(k, s, q) && TakenBack(k, s, q, r)
    ensures StandsFor(k, r, s, q, x)
  {
    if Occupied(r, x) { assert SlotOk(k, NULL, x); }
  }

  lemma TakenBackZombie(k: State, s: Slot, q: Slot, r: State, x: Slot)
    requires Sound(k) && Occupied(k, s) && Holding(k, q) && Before(k, s, q) && TakenBack(k, s, q, r)
    requires x in r.cap && r.cap[x].ZombieCap?
    ensures NotLast(r, x)
  {
    assert x != s && CapKept(k, r, x) && NotLast(k, x);
    Behind(k, x, NULL);
    Neighbour(k.lists, x);
    var y := k.lists.Next(x);
    Same(k.lists, s, x);
    Same(k.lists, q, x);
    assert Occupied(r, x) && !Between(k, s, q, x) && x != q;
    assert !Between(k, s, q, y);
    assert Occupied(r, y) && OrderKept(k, r, x, y);
    assert SlotOk(r, NULL, x) && SlotOk(r, NULL, y);
  }

  // ---------------------------------------------------------------- destroying a capability

  /** How an operation ends: with a slot, with an error code, or in a failed assertion. */
  datatype Outcome = Done(slot: Slot) | Refused | Halted

  /** Does a neighbour of `s` stand for the same object? */
  predicate SameBefore(k: State, s: Slot)
    requires k.lists.Ok() && s in k.lists.on && (forall x :: x in k.lists.on ==> x in k.cap)
  {
    Backward(k.lists, s);
    k.lists.Prev(s) != NULL && IsSame(k, k.lists.Prev(s), s)
  }

  predicate SameBehind(k: State, s: Slot)
    requires k.lists.Ok() && s in k.lists.on && (forall x :: x in k.lists.on ==> x in k.cap)
  {
    Neighbour(k.lists, s);
    k.lists.Next(s) != NULL && IsSame(k, k.lists.Next(s), s)
  }

  predicate ZombieBefore(k: State, s: Slot)
    requires k.lists.Ok() && s in k.lists.on && (forall x :: x in k.lists.on ==> x in k.cap)
  {
    Backward(k.lists, s);
    k.lists.Prev(s) != NULL && k.cap[k.lists.Prev(s)].ZombieCap?
  }

  /** What `destroy_cap` leaves, once `s` holds a capability itself. */
  ghost function DestroyHeld(k: State, s: Slot): (r: (State, Outcome))
    requires Inv(k) && Holding(k, s)
  {
    assert SlotOk(k, NULL, s);
    if !SameBefore(k, s) && !SameBehind(k, s) then
      if k.cap[s].MemCap? && !Last(k, s) then (k, Halted)
      else
        DestroyPartitioned(k, s);
        PushFrees(DestroyObject(k, s), s);
        (Push(DestroyObject(k, s), s), Done(s))
    else if ZombieBefore(k, s) then
      Backward(k.lists, s);
      (RevokeZombie(k, k.lists.Prev(s)), Done(s))
    else
      PushFrees(k, s);
      (Push(k, s), Done(s))
  }

  lemma DestroyHeldKeeps(k: State, s: Slot)
    requires Inv(k) && Holding(k, s)
    ensures Inv(DestroyHeld(k, s).0)
  {
    assert SlotOk(k, NULL, s);
    if !SameBefore(k, s) && !SameBehind(k, s) {
      if !k.cap[s].MemCap? || Last(k, s) { DestroyAloneKeeps(k, s); }
    } else if ZombieBefore(k, s) {
      Backward(k.lists, s);
      RevokeZombieKeeps(k, k.lists.Prev(s));
    } else {
      DestroyCopyKeeps(k, s);
    }
  }

  lemma DestroyAloneKeeps(k: State, s: Slot)
    requires Inv(k) && Holding(k, s) && s in k.lists.on && !SameBefore(k, s) && !SameBehind(k, s)
    requires k.cap[s].MemCap? ==> Last(k, s)
    ensures Partitioned(DestroyObject(k, s), NULL) && Occupied(DestroyObject(k, s), s)
    ensures
      var m := DestroyObject(k, s);
      && m.lists.Ok() && s in m.lists.on && s in m.owner && HeadOk(m, m.owner[s]) && !OnFreeOf(m, m.owner[s], s)
      && Inv(Push(m, s))
  {
    DestroyPartitioned(k, s);
    var m := DestroyObject(k, s);
    PushDropped(k, s, m, [k.cap[s]]);
    NoZombieBefore(k, s);
    NotHeldElsewhere(k, s);
    DroppedAlone(k, s, Push(m, s), [k.cap[s]]);
  }

  lemma DestroyCopyKeeps(k: State, s: Slot)
    requires Inv(k) && Holding(k, s) && s in k.lists.on && (SameBefore(k, s) || SameBehind(k, s)) && !ZombieBefore(k, s)
    ensures s in k.owner && HeadOk(k, k.owner[s]) && !OnFreeOf(k, k.owner[s], s) && Inv(Push(k, s))
  {
    PushDropped(k, s, k, []);
    SameHeldElsewhere(k, s);
    DroppedAlone(k, s, Push(k, s), []);
  }

  /** `r` is `k` with `s` freed and the capabilities `more` recorded as destroyed. */
  ghost predicate Dropped(k: State, s: Slot, r: State, more: seq<Cap>) {
    && Freed(k, r, {s}) && Partitioned(r, NULL)
    && (forall x :: CapKept(k, r, x))
    && r.made == k.made && r.destroyed == k.destroyed + more
  }

  lemma PushDropped(k: State, s: Slot, m: State, more: seq<Cap>)
    requires Partitioned(m, NULL) && Occupied(k, s) && Occupied(m, s)
    requires m.lists == k.lists && m.owner == k.owner && m.reserved == k.reserved && m.spaces == k.spaces
    requires m.made == k.made
    requires m.destroyed == k.destroyed + more
    requires forall x :: x in m.cap <==> x in k.cap
    requires forall x :: x != s && x in k.cap ==> m.cap[x] == k.cap[x]
    ensures m.lists.Ok() && s in m.lists.on && s in m.owner && HeadOk(m, m.owner[s]) && !OnFreeOf(m, m.owner[s], s)
    ensures Dropped(k, s, Push(m, s), more)
  {
    PushFrees(m, s);
    PushedDropped(k, s, m, Push(m, s), more);
  }

  lemma PushedDropped(k: State, s: Slot, m: State, r: State, more: seq<Cap>)
    requires Occupied(k, s) && Occupied(m, s)
    requires m.lists == k.lists && m.owner == k.owner && m.reserved == k.reserved && m.spaces == k.spaces
    requires m.made == k.made
    requires m.destroyed == k.destroyed + more
    requires forall x :: x in m.cap <==> x in k.cap
    requires forall x :: x != s && x in k.cap ==> m.cap[x] == k.cap[x]
    requires Freed(m, r, {s}) && Partitioned(r, NULL) && Pushed(m, s, r)
    ensures Dropped(k, s, r, more)
  {
    forall x ensures Occupied(m, x) <==> Occupied(k, x) { }
    SameOrder(k, m);
    FreedAfter(k, m, r, s);
    assert r.cap == m.cap[s := NullCap];
  }

  /** A zombie in front of a held slot stands for it. */
  lemma NoZombieBefore(k: State, s: Slot)
    requires Sound(k) && Holding(k, s) && s in k.lists.on
    ensures ZombieBefore(k, s) ==> SameBefore(k, s)
  {
    Backward(k.lists, s);
    if ZombieBefore(k, s) {
      var p := k.lists.Prev(s);
      ResolveLive(k, p);
      Same(k.lists, s, Resolve(k, p));
      assert Resolve(k, p) == s;
    }
  }

  lemma NotHeldElsewhere(k: State, s: Slot)
    requires Sound(k) && Lawful(k) && Holding(k, s) && s in k.lists.on && !SameBefore(k, s) && !SameBehind(k, s)
    ensures !HeldElsewhere(k, s)
  {
    forall y | y in k.cap && y != s ensures !SameShared(k.cap[y], k.cap[s]) {
      if SameShared(k.cap[y], k.cap[s]) {
        SharedTrans(k.cap[y], k.cap[s], k.cap[y]);
        SharedNeighbour(k, s, y);
      }
    }
  }

  lemma SameHeldElsewhere(k: State, s: Slot)
    requires Sound(k) && Holding(k, s) && s in k.lists.on && (SameBefore(k, s) || SameBehind(k, s))
    requires !ZombieBefore(k, s)
    ensures Shared(k.cap[s]) ==> HeldElsewhere(k, s)
  {
    Backward(k.lists, s);
    Neighbour(k.lists, s);
    var y := Resolve(k, if SameBefore(k, s) then k.lists.Prev(s) else k.lists.Next(s));
    assert y != s && Resolve(k, s) == s;
    if Shared(k.cap[s]) { assert SameShared(k.cap[y], k.cap[s]); }
  }

  /** A held slot with no zombie before it is freed. */
  lemma DroppedAlone(k: State, s: Slot, r: State, more: seq<Cap>)
    requires Inv(k) && Holding(k, s) && s in k.lists.on && !ZombieBefore(k, s) && Dropped(k, s, r, more)
    requires Shared(k.cap[s]) && HeldElsewhere(k, s) ==> more == []
    requires Shared(k.cap[s]) && !HeldElsewhere(k, s) ==> more == [k.cap[s]]
    requires more == [] || more == [k.cap[s]]
    requires more != [] && k.cap[s].MemCap? ==> Last(k, s)
    ensures Inv(r)
  {
    DroppedZombies(k, s, r);
    DropKeeps(k, s, r, more);
  }

  lemma FreedAfter(k: State, m: State, r: State, s: Slot)
    requires Freed(k, m, {}) && Freed(m, r, {s})
    ensures Freed(k, r, {s})
  {
    forall x, y ensures OrderKept(k, r, x, y) { assert OrderKept(k, m, x, y) && OrderKept(m, r, x, y); }
  }

  lemma DroppedZombies(k: State, s: Slot, r: State)
    requires Sound(k) && Holding(k, s) && s in k.lists.on && !ZombieBefore(k, s)
    requires Freed(k, r, {s}) && Partitioned(r, NULL) && forall x :: CapKept(k, r, x)
    ensures ZombiesOk(r)
  {
    Backward(k.lists, s);
    forall x | Occupied(r, x) && r.cap[x].ZombieCap? ensures NotLast(k, x) && k.lists.Next(x) != s {
      assert CapKept(k, r, x) && k.cap[x].ZombieCap? && NotLast(k, x);
      Neighbour(k.lists, x);
      if k.lists.Prev(s) != NULL { Same(k.lists, x, k.lists.Prev(s)); }
    }
    FreedZombiesOk(k, r, s);
  }

  /** What `revoke_cap` makes of the slot that `destroy_cap` is called on. */
  ghost function Strip(k: State, s: Slot): (m: State)
    requires Inv(k) && Occupied(k, s)
    ensures Inv(m) && Holding(m, s)
  {
    if k.cap[s].MemCap? then RevokeMem(k, s)
    else if k.cap[s].ZombieCap? then
      ResolveBehind(k, s);
      RevokeZombieKeeps(k, s);
      RevokeZombieTakes(k, s);
      RevokeZombie(k, s)
    else k
  }

  /** What `destroy_cap` leaves. */
  ghost function Destroy(k: State, s: Slot): (r: (State, Outcome))
    requires Inv(k) && s in k.cap
    ensures Inv(r.0)
  {
    if k.cap[s].NullCap? then (k, Refused)
    else
      DestroyHeldKeeps(Strip(k, s), s);
      DestroyHeld(Strip(k, s), s)
  }

  /** The slot is a zombie, with none before it, for memory behind which another slot stands on the list. */
  ghost predicate DelegatedNotLast(k: State, s: Slot)
    requires Inv(k) && Occupied(k, s)
  {
    assert SlotOk(k, NULL, s);
    && k.cap[s].ZombieCap?
    && k.cap[Resolve(k, s)].MemCap?
    && !Last(k, Resolve(k, s))
    && !ZombieBefore(k, s)
  }

  /** `destroy_cap` trips the assertion of `destroy_memory_object` on exactly these slots. */
  lemma DestroyHalts(k: State, s: Slot)
    requires Inv(k) && Occupied(k, s)
    ensures Destroy(k, s).1.Halted? <==> DelegatedNotLast(k, s)
  {
    HeldHalts(Strip(k, s), s);
    StripHalts(k, s, Strip(k, s));
  }

  lemma HeldHalts(m: State, s: Slot)
    requires Inv(m) && Holding(m, s)
    ensures s in m.lists.on
    ensures DestroyHeld(m, s).1.Halted? <==> m.cap[s].MemCap? && !Last(m, s) && !ZombieBefore(m, s)
  {
    assert SlotOk(m, NULL, s);
    if m.cap[s].MemCap? { MemNeighbours(m, s); }
  }

  lemma StripHalts(k: State, s: Slot, m: State)
    requires Inv(k) && Occupied(k, s) && m == Strip(k, s) && s in m.lists.on
    ensures m.cap[s].MemCap? && !Last(m, s) && !ZombieBefore(m, s) <==> DelegatedNotLast(k, s)
  {
    if k.cap[s].ZombieCap? {
      ResolveBehind(k, s);
      RevokeZombieTakes(k, s);
      ZombieHalts(k, s, Resolve(k, s), m);
    } else if k.cap[s].MemCap? {
      assert Last(m, s);
    }
  }

  lemma ZombieHalts(k: State, s: Slot, q: Slot, m: State)
    requires Inv(k) && Inv(m) && Occupied(k, s) && k.cap[s].ZombieCap? && Holding(k, q) && Before(k, s, q)
    requires TakenBack(k, s, q, m)
    requires q == Resolve(k, s) && s in m.lists.on
    ensures m.cap[s].MemCap? && !Last(m, s) && !ZombieBefore(m, s) <==> DelegatedNotLast(k, s)
  {
    BeforeTakenBack(k, s, q, m);
    BehindTakenBack(k, s, q, m);
  }

  lemma MemNeighbours(k: State, s: Slot)
    requires Inv(k) && Holding(k, s) && s in k.lists.on && k.cap[s].MemCap?
    ensures SameBefore(k, s) <==> ZombieBefore(k, s)
    ensures !SameBehind(k, s)
  {
    Backward(k.lists, s);
    Neighbour(k.lists, s);
    NoZombieBefore(k, s);
    assert Resolve(k, s) == s;
  }

  lemma BeforeTakenBack(k: State, s: Slot, q: Slot, r: State)
    requires Inv(k) && Occupied(k, s) && Before(k, s, q) && TakenBack(k, s, q, r) && s in k.lists.on && s in r.lists.on
    ensures ZombieBefore(r, s) <==> ZombieBefore(k, s)
  {
    Backward(k.lists, s);
    Backward(r.lists, s);
    var p, o := k.lists.Prev(s), r.lists.Prev(s);
    assert OrderKept(k, r, s, s) && Occupied(r, s);
    if p != NULL {
      PrevOccupied(k, s);
      assert Occupied(r, p) && OrderKept(k, r, p, s);
    }
    if o != NULL {
      PrevOccupied(r, s);
      assert OrderKept(k, r, o, s) && CapKept(k, r, o);
      if p != NULL { assert OrderKept(k, r, o, p); Same(k.lists, o, p); Same(r.lists, o, p); }
    }
  }

  lemma PrevOccupied(k: State, s: Slot)
    requires Partitioned(k, NULL) && Occupied(k, s) && k.lists.Placed(s) && k.lists.Prev(s) != NULL
    ensures Occupied(k, k.lists.Prev(s))
  {
    Backward(k.lists, s);
    var p := k.lists.Prev(s);
    assert p in k.cap;
    if k.cap[p].NullCap? { NullsApart(k, p, s); }
  }

  lemma BehindTakenBack(k: State, s: Slot, q: Slot, r: State)
    requires Inv(k) && Occupied(k, s) && Holding(k, q) && Before(k, s, q) && TakenBack(k, s, q, r) && s in r.lists.on
    ensures Last(r, s) <==> Last(k, q)
  {
    assert SlotOk(k, NULL, q) && SlotOk(r, NULL, s) && Occupied(r, s);
    if !Last(k, q) {
      Behind(k, q, NULL);
      var y := k.lists.Next(q);
      assert Occupied(r, y) && OrderKept(k, r, s, y) && SlotOk(r, NULL, y);
    }
    if !Last(r, s) {
      Behind(r, s, NULL);
      var y := r.lists.Next(s);
      assert OrderKept(k, r, s, y) && SlotOk(k, NULL, y);
    }
  }
}
