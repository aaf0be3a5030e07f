/** Filling a free slot: transferring, delegating, copying and creating capabilities. */
module CapMoves {
  import opened SlotLinks
  import opened Capability
  import opened Derivation
  import opened Lineage
  import opened CapOps

  /** Task `t` is not killed and has a free slot. */
  predicate CanTake(k: State, t: Task) {
    t !in k.killed && t in k.free && k.free[t] != NULL
  }

  /** What `insert_cap` leaves. */
  ghost function Take(k: State, t: Task, c: Cap): (r: State)
    requires Partitioned(k, NULL) && CanTake(k, t)
  {
    assert HeadOk(k, t);
    SetCap(Pop(k, t), k.free[t], c)
  }

  /** The slot did not move. */
  predicate Unmoved(k: State, r: State, x: Slot) {
    Occupied(k, x) ==>
      && k.lists.Placed(x) && r.lists.Placed(x)
      && r.lists.on[x] == k.lists.on[x] && r.lists.at[x] == k.lists.at[x] && |r.lists.Of(x)| == |k.lists.Of(x)|
  }

  /** The null slot `d` of task `t` was taken off the free list, holds `c` and stands alone. */
  ghost predicate Took(k: State, t: Task, c: Cap, d: Slot, r: State) {
    && Partitioned(r, NULL)
    && d in k.cap && k.cap[d].NullCap? && r.cap == k.cap[d := c]
    && d in r.lists.on && r.lists.Placed(d) && r.lists.Alone(d)
    && r.owner == k.owner && d in k.owner && k.owner[d] == t && r.reserved == k.reserved && r.spaces == k.spaces
    && r.killed == k.killed
    && r.made == k.made && r.destroyed == k.destroyed
    && (forall x :: Unmoved(k, r, x))
  }

  lemma TakeTakes(k: State, t: Task, c: Cap)
    requires Partitioned(k, NULL) && CanTake(k, t) && !c.NullCap?
    ensures Took(k, t, c, k.free[t], Take(k, t, c))
  {
    var d := k.free[t];
    assert HeadOk(k, t) && FreeOwn(k, t, d) && SlotOk(k, NULL, d);
    PopPartitioned(k, t);
    FillPartitioned(Pop(k, t), d, c);
    assert SlotOk(Pop(k, t), d, d);
    forall x ensures Unmoved(k, Take(k, t, c), x) {
      if Occupied(k, x) {
        NullsApart(k, d, x);
        PopUnmoved(k, t, x);
      }
    }
  }

  lemma PopUnmoved(k: State, t: Task, x: Slot)
    requires Partitioned(k, NULL) && t in k.free && HeadOk(k, t) && k.free[t] != NULL && Occupied(k, x)
    requires k.lists.on[x] != k.lists.on[k.free[t]]
    ensures Unmoved(k, Pop(k, t), x)
  {
    assert SlotOk(k, NULL, x);
    Fresh(k.lists, x);
  }

  // ---------------------------------------------------------------- transfer

  /** `d` stands where `s` stood in `k`, `s` stands alone, and nothing else moved. */
  ghost predicate Replaced(k: State, s: Slot, d: Slot, n: State) {
    && Partitioned(n, NULL) && Occupied(k, s) && k.lists.Placed(s) && d in k.cap && k.cap[d].NullCap?
    && n.cap == k.cap[d := k.cap[s]] && n.owner == k.owner && n.reserved == k.reserved && n.spaces == k.spaces
    && n.made == k.made && n.destroyed == k.destroyed
    && (forall x :: x != s ==> Unmoved(k, n, x))
    && n.lists.Placed(d) && n.lists.on[d] == k.lists.on[s] && n.lists.at[d] == k.lists.at[s]
    && |n.lists.Of(d)| == |k.lists.Of(s)|
    && n.lists.Placed(s) && n.lists.Alone(s)
  }

  /** The state in which `transfer_cap` frees the source slot. */
  ghost function Replacing(k: State, t: Task, s: Slot): (n: State)
    requires Partitioned(k, NULL) && CanTake(k, t) && Holding(k, s)
    ensures Replaced(k, s, k.free[t], n)
  {
    TakeTakes(k, t, k.cap[s]);
    var d, m := k.free[t], Take(k, t, k.cap[s]);
    assert Unmoved(k, m, s);
    SubstituteSwaps(m.lists, d, s);
    var n := m.(lists := m.lists.Substitute(d, s));
    SwapPartitioned(m, d, s, n.lists);
    SwapReplaces(k, t, s, d, m, n);
    n
  }

  lemma SwapReplaces(k: State, t: Task, s: Slot, d: Slot, m: State, n: State)
    requires Holding(k, s) && Took(k, t, k.cap[s], d, m) && n == m.(lists := n.lists)
    requires Swapped(m.lists, n.lists, d, s) && Partitioned(n, NULL)
    ensures Replaced(k, s, d, n)
  {
    assert Unmoved(k, m, s) && SwappedAt(m.lists, n.lists, d, s, s) && SwappedAt(m.lists, n.lists, d, s, d);
    forall x | x != s ensures Unmoved(k, n, x) {
      assert Unmoved(k, m, x);
      if Occupied(k, x) { assert SwappedAt(m.lists, n.lists, d, s, x); }
    }
  }

  /** What `transfer_cap` leaves when nothing refuses it. */
  ghost function Transferred(k: State, t: Task, s: Slot): (r: State)
    requires Partitioned(k, NULL) && CanTake(k, t) && Holding(k, s)
  {
    var n := Replacing(k, t, s);
    PushFrees(n, s);
    Push(n, s)
  }

  /** A transfer moves the capability to the new slot, in the old one's place, and keeps every invariant. */
  lemma TransferKeeps(k: State, t: Task, s: Slot)
    requires Inv(k) && CanTake(k, t) && Holding(k, s)
    ensures Inv(Transferred(k, t, s)) && Moved(k, s, k.free[t], Transferred(k, t, s))
  {
    var n := Replacing(k, t, s);
    PushFrees(n, s);
    ReplacedKeeps(k, s, k.free[t], n, Push(n, s));
  }

  /** `d` stands for `s`. */
  function Back(s: Slot, d: Slot, x: Slot): (y: Slot) { if x == d then s else x }

  predicate OrderMoved(k: State, s: Slot, d: Slot, r: State, x: Slot, y: Slot) {
    Occupied(r, x) && Occupied(r, y) ==>
      && (SameList(r, x, y) <==> SameList(k, Back(s, d, x), Back(s, d, y)))
      && (Before(r, x, y) <==> Before(k, Back(s, d, x), Back(s, d, y)))
  }

  /** `r` is `k` with the capability of `s` in `d`, at the same place of the list, and `s` free. */
  ghost predicate Moved(k: State, s: Slot, d: Slot, r: State) {
    && s in k.cap && d in k.cap && k.cap[d].NullCap? && d in r.cap && r.cap[d] == k.cap[s]
    && r.owner == k.owner && r.reserved == k.reserved && r.spaces == k.spaces
    && (forall x :: Occupied(r, x) <==> x == d || (Occupied(k, x) && x != s))
    && (forall x :: x != d ==> CapKept(k, r, x))
    && (forall x, y :: OrderMoved(k, s, d, r, x, y))
  }

  lemma ReplacedKeeps(k: State, s: Slot, d: Slot, n: State, r: State)
    requires Inv(k) && Holding(k, s) && Replaced(k, s, d, n) && Partitioned(r, NULL) && Pushed(n, s, r)
    requires Freed(n, r, {s})
    ensures Inv(r) && Moved(k, s, d, r)
  {
    ReplacedMoves(k, s, d, n, r);
    ReplacedZombies(k, s, d, n, r);
    MovedInv(k, s, d, r);
  }

  lemma ReplacedMoves(k: State, s: Slot, d: Slot, n: State, r: State)
    requires Holding(k, s) && Replaced(k, s, d, n) && Pushed(n, s, r) && Freed(n, r, {s})
    ensures Moved(k, s, d, r) && r.made == k.made && r.destroyed == k.destroyed
  {
    ReplacedCaps(k, s, d, n, r);
    forall x, y ensures OrderMoved(k, s, d, r, x, y) {
      if Occupied(r, x) && Occupied(r, y) { ReplacedOrder(k, s, d, n, r, x, y); }
    }
  }

  lemma ReplacedCaps(k: State, s: Slot, d: Slot, n: State, r: State)
    requires Holding(k, s) && d in k.cap && k.cap[d].NullCap? && n.cap == k.cap[d := k.cap[s]] && Pushed(n, s, r)
    ensures r.cap == n.cap[s := NullCap] && d in r.cap && r.cap[d] == k.cap[s]
    ensures forall x :: Occupied(r, x) <==> x == d || (Occupied(k, x) && x != s)
    ensures forall x :: x != d ==> CapKept(k, r, x)
  {
  }

  lemma ReplacedOrder(k: State, s: Slot, d: Slot, n: State, r: State, x: Slot, y: Slot)
    requires Replaced(k, s, d, n) && OrderKept(n, r, x, y) && Occupied(r, x) && Occupied(r, y)
    requires (x == d || Occupied(k, x)) && (y == d || Occupied(k, y)) && x != s && y != s
    ensures OrderMoved(k, s, d, r, x, y)
  {
    assert Unmoved(k, n, x) && Unmoved(k, n, y);
  }

  lemma ReplacedZombies(k: State, s: Slot, d: Slot, n: State, r: State)
    requires Sound(k) && Holding(k, s) && Replaced(k, s, d, n) && Partitioned(r, NULL) && Freed(n, r, {s})
    requires r.cap == n.cap[s := NullCap]
    ensures ZombiesOk(r)
  {
    forall x | Occupied(r, x) && r.cap[x].ZombieCap? ensures NotLast(n, x) && n.lists.Next(x) != s {
      ReplacedZombie(k, s, d, n, x);
    }
    FreedZombiesOk(n, r, s);
  }

  lemma ReplacedZombie(k: State, s: Slot, d: Slot, n: State, x: Slot)
    requires Sound(k) && Holding(k, s) && Replaced(k, s, d, n) && x in n.cap && n.cap[x].ZombieCap?
    ensures NotLast(n, x) && n.lists.Next(x) != s
  {
    assert x != s && x != d && NotLast(k, x) && Unmoved(k, n, x);
    Neighbour(n.lists, x);
    Same(n.lists, x, s);
  }

  lemma MovedInv(k: State, s: Slot, d: Slot, r: State)
    requires Inv(k) && Holding(k, s) && Moved(k, s, d, r) && Partitioned(r, NULL) && ZombiesOk(r)
    requires r.made == k.made && r.destroyed == k.destroyed
    ensures Inv(r)
  {
    MovedEmbeds(k, s, d, r);
    forall x | x in k.cap && Shared(k.cap[x]) && x != s ensures x in r.cap && r.cap[x] == k.cap[x] {
      assert Occupied(r, x) && CapKept(k, r, x);
    }
    MovedKeeps(k, r, d, s);
  }

  lemma MovedEmbeds(k: State, s: Slot, d: Slot, r: State)
    requires Holding(k, s) && Moved(k, s, d, r)
    ensures Embeds(r, k, Identity(k)[d := s])
  {
    var g := Identity(k)[d := s];
    assert !Occupied(r, s);
    forall x ensures ImageAt(r, k, g, x) { if x != d { assert CapKept(k, r, x); } }
    forall x, y ensures ImagePair(r, k, g, x, y) {
      assert OrderMoved(k, s, d, r, x, y);
      assert (x != d ==> CapKept(k, r, x)) && (y != d ==> CapKept(k, r, y));
      if Holding(r, x) && Holding(r, y) { assert g[x] == Back(s, d, x) && g[y] == Back(s, d, y); }
    }
  }

  // ---------------------------------------------------------------- a new slot behind an old one

  /** In the order of the lists, `d` is new just behind `a`, and everything else is as it was. */
  predicate OrderGrown(k: State, a: Slot, d: Slot, r: State, x: Slot, y: Slot) {
    (x == d || Occupied(k, x)) && (y == d || Occupied(k, y)) ==>
      && (SameList(r, x, y) <==> SameList(k, Back(a, d, x), Back(a, d, y)))
      && (Before(r, x, y) <==> Before(k, Back(a, d, x), Back(a, d, y)) || (x == a && y == d))
  }

  predicate StillNotLastAt(k: State, r: State, x: Slot) {
    Occupied(k, x) && NotLast(k, x) ==> NotLast(r, x)
  }

  /** The null slot `d` was filled and put just behind `a`; who holds what is said elsewhere. */
  ghost predicate Grown(k: State, a: Slot, d: Slot, r: State) {
    && Partitioned(r, NULL) && Occupied(k, a) && d in k.cap && k.cap[d].NullCap? && Occupied(r, d)
    && (forall x :: Occupied(r, x) <==> x == d || Occupied(k, x))
    && (forall x, y :: OrderGrown(k, a, d, r, x, y))
    && (forall x :: StillNotLastAt(k, r, x))
    && NotLast(r, a)
  }

  /** `insert_after` on a slot that was just taken. */
  lemma InsertGrows(k: State, t: Task, c: Cap, a: Slot, d: Slot, m: State, r: State)
    requires Occupied(k, a) && !c.NullCap? && Took(k, t, c, d, m) && Inserted(m.lists, r.lists, a, d)
    requires Partitioned(r, NULL)
    requires forall x :: Occupied(r, x) <==> x == d || Occupied(k, x)
    ensures Grown(k, a, d, r)
  {
    forall x, y ensures OrderGrown(k, a, d, r, x, y) {
      if (x == d || Occupied(k, x)) && (y == d || Occupied(k, y)) { InsertOrder(k, t, c, a, d, m, r, x, y); }
    }
    forall x ensures StillNotLastAt(k, r, x) { InsertNotLast(k, t, c, a, d, m, r, x); }
    assert Unmoved(k, m, a) && InsertedAt(m.lists, r.lists, a, d, a);
  }

  lemma InsertNotLast(k: State, t: Task, c: Cap, a: Slot, d: Slot, m: State, r: State, x: Slot)
    requires Occupied(k, a) && Took(k, t, c, d, m) && Inserted(m.lists, r.lists, a, d)
    ensures StillNotLastAt(k, r, x)
  {
    assert Unmoved(k, m, x);
    if Occupied(k, x) { assert InsertedAt(m.lists, r.lists, a, d, x); }
  }

  lemma InsertOrder(k: State, t: Task, c: Cap, a: Slot, d: Slot, m: State, r: State, x: Slot, y: Slot)
    requires Occupied(k, a) && Took(k, t, c, d, m) && Inserted(m.lists, r.lists, a, d)
    requires (x == d || Occupied(k, x)) && (y == d || Occupied(k, y))
    ensures OrderGrown(k, a, d, r, x, y)
  {
    InsertPlace(k, t, c, a, d, m, r, x);
    InsertPlace(k, t, c, a, d, m, r, y);
    PlaceOrder(k, a, d, r, x, y);
  }

  /** Where `x` stands once `d` is just behind `a`. */
  predicate Shifted(k: State, a: Slot, d: Slot, r: State, x: Slot) {
    && a != d && k.lists.Placed(Back(a, d, x)) && k.lists.Placed(a) && x in r.lists.on && x in r.lists.at
    && r.lists.on[x] == k.lists.on[Back(a, d, x)]
    && r.lists.at[x] == k.lists.at[Back(a, d, x)]
         + (if x == d || (k.lists.on[x] == k.lists.on[a] && k.lists.at[a] < k.lists.at[x]) then 1 else 0)
  }

  lemma PlaceOrder(k: State, a: Slot, d: Slot, r: State, x: Slot, y: Slot)
    requires Shifted(k, a, d, r, x) && Shifted(k, a, d, r, y)
    ensures OrderGrown(k, a, d, r, x, y)
  {
  }

  lemma InsertPlace(k: State, t: Task, c: Cap, a: Slot, d: Slot, m: State, r: State, x: Slot)
    requires Occupied(k, a) && Took(k, t, c, d, m) && Inserted(m.lists, r.lists, a, d)
    requires x == d || Occupied(k, x)
    ensures Shifted(k, a, d, r, x)
  {
    assert Unmoved(k, m, a) && Unmoved(k, m, x);
    assert InsertedAt(m.lists, r.lists, a, d, x);
  }

  // ---------------------------------------------------------------- delegating and copying

  /** Taking a slot for `c` and putting it behind `a`, whose capability becomes `b`. */
  ghost function PutBehind(k: State, t: Task, c: Cap, a: Slot, b: Cap): (r: State)
    requires Partitioned(k, NULL) && CanTake(k, t) && Occupied(k, a) && !c.NullCap? && !b.NullCap?
  {
    TakeTakes(k, t, c);
    var d, m := k.free[t], Take(k, t, c);
    assert Unmoved(k, m, a);
    var n := SetCap(m, a, b);
    SpliceInserts(n.lists, a, d);
    n.(lists := n.lists.SpliceAfter(a, d))
  }

  lemma PutBehindGrows(k: State, t: Task, c: Cap, a: Slot, b: Cap)
    requires Partitioned(k, NULL) && CanTake(k, t) && Occupied(k, a) && !c.NullCap? && !b.NullCap?
    ensures Grown(k, a, k.free[t], PutBehind(k, t, c, a, b))
    ensures Capped(k, c, a, k.free[t], b, PutBehind(k, t, c, a, b))
  {
    TakeTakes(k, t, c);
    var d, m := k.free[t], Take(k, t, c);
    assert Unmoved(k, m, a);
    SetCapPartitioned(m, a, b);
    var n := SetCap(m, a, b);
    SpliceInserts(n.lists, a, d);
    SplicedGrows(k, t, c, a, b, d, m, PutBehind(k, t, c, a, b));
  }

  /** `d` was given `c` and `a` was given `b`. */
  ghost predicate Capped(k: State, c: Cap, a: Slot, d: Slot, b: Cap, r: State) {
    && d in r.cap && a in r.cap && d != a && r.cap[d] == c && r.cap[a] == b
    && (forall x :: x != a && x != d ==> CapKept(k, r, x))
    && r.owner == k.owner && r.reserved == k.reserved && r.spaces == k.spaces && r.killed == k.killed
    && r.made == k.made && r.destroyed == k.destroyed
  }

  lemma SplicedGrows(k: State, t: Task, c: Cap, a: Slot, b: Cap, d: Slot, m: State, r: State)
    requires Occupied(k, a) && !c.NullCap? && !b.NullCap? && Took(k, t, c, d, m) && Partitioned(SetCap(m, a, b), NULL)
    requires r == SetCap(m, a, b).(lists := r.lists) && Inserted(m.lists, r.lists, a, d)
    ensures Grown(k, a, d, r) && Capped(k, c, a, d, b, r)
  {
    InsertPartitioned(SetCap(m, a, b), a, d, r.lists);
    assert r.cap == k.cap[d := c][a := b];
    CapsGrown(k, c, a, b, d, r);
    InsertGrows(k, t, c, a, d, m, r);
  }

  lemma CapsGrown(k: State, c: Cap, a: Slot, b: Cap, d: Slot, r: State)
    requires Occupied(k, a) && !c.NullCap? && !b.NullCap? && d in k.cap && k.cap[d].NullCap?
    requires r.cap == k.cap[d := c][a := b]
    ensures forall x :: Occupied(r, x) <==> x == d || Occupied(k, x)
    ensures forall x :: x != a && x != d ==> CapKept(k, r, x)
  {
  }

  /** What `delegate_cap` leaves when nothing refuses it. */
  ghost function Delegated(k: State, t: Task, s: Slot): (r: State)
    requires Partitioned(k, NULL) && CanTake(k, t) && Holding(k, s)
  {
    PutBehind(k, t, k.cap[s], s, ZombieCap)
  }

  /** What `copy_cap` leaves of a task or an endpoint. */
  ghost function Copied(k: State, t: Task, s: Slot): (r: State)
    requires Partitioned(k, NULL) && CanTake(k, t) && Holding(k, s)
  {
    PutBehind(k, t, k.cap[s], s, k.cap[s])
  }

  lemma GrownZombies(k: State, a: Slot, d: Slot, r: State)
    requires Sound(k) && Grown(k, a, d, r)
    requires forall x :: x != a && x != d ==> CapKept(k, r, x)
    requires d in r.cap && !r.cap[d].ZombieCap?
    ensures ZombiesOk(r)
  {
    forall x | x in r.cap && r.cap[x].ZombieCap? ensures NotLast(r, x) {
      if x != a { assert CapKept(k, r, x) && NotLast(k, x) && StillNotLastAt(k, r, x); }
    }
  }

  /** `d` holds what `a` held, and `a` either passed it on or holds a copy of a shared object. */
  lemma GrownKeeps(k: State, a: Slot, d: Slot, r: State)
    requires Inv(k) && Holding(k, a) && Grown(k, a, d, r) && r.made == k.made && r.destroyed == k.destroyed
    requires r.cap[d] == k.cap[a] && a in r.cap && (r.cap[a].ZombieCap? || (r.cap[a] == k.cap[a] && Shared(k.cap[a])))
    requires forall x :: x != a && x != d ==> CapKept(k, r, x)
    ensures Inv(r)
  {
    GrownZombies(k, a, d, r);
    GrownEmbeds(k, a, d, r);
    forall x | x in k.cap && Shared(k.cap[x]) && x != a ensures x in r.cap && r.cap[x] == k.cap[x] {
      assert x != d && Occupied(k, x) && Occupied(r, x) && CapKept(k, r, x);
    }
    MovedKeeps(k, r, d, a);
  }

  lemma GrownEmbeds(k: State, a: Slot, d: Slot, r: State)
    requires Holding(k, a) && Grown(k, a, d, r)
    requires r.cap[d] == k.cap[a] && a in r.cap && (r.cap[a].ZombieCap? || (r.cap[a] == k.cap[a] && Shared(k.cap[a])))
    requires forall x :: x != a && x != d ==> CapKept(k, r, x)
    ensures Embeds(r, k, Identity(k)[d := a])
  {
    var g := Identity(k)[d := a];
    forall x ensures ImageAt(r, k, g, x) { if x != d && x != a { assert CapKept(k, r, x); } }
    forall x, y ensures ImagePair(r, k, g, x, y) {
      assert OrderGrown(k, a, d, r, x, y);
      assert Occupied(r, x) ==> x == d || Occupied(k, x);
      assert Occupied(r, y) ==> y == d || Occupied(k, y);
      if Holding(r, x) && Holding(r, y) { assert g[x] == Back(a, d, x) && g[y] == Back(a, d, y); }
    }
  }

  /** Delegating leaves a zombie, with the capability in a slot of `t` just behind it, and keeps every invariant. */
  lemma DelegateKeeps(k: State, t: Task, s: Slot)
    requires Inv(k) && CanTake(k, t) && Holding(k, s)
    ensures Inv(Delegated(k, t, s)) && Grown(k, s, k.free[t], Delegated(k, t, s))
    ensures Capped(k, k.cap[s], s, k.free[t], ZombieCap, Delegated(k, t, s))
  {
    PutBehindGrows(k, t, k.cap[s], s, ZombieCap);
    GrownKeeps(k, s, k.free[t], Delegated(k, t, s));
  }

  /** Copying leaves the capability where it is, with another just behind it, and keeps every invariant. */
  lemma CopyKeeps(k: State, t: Task, s: Slot)
    requires Inv(k) && CanTake(k, t) && Holding(k, s) && Shared(k.cap[s])
    ensures Inv(Copied(k, t, s)) && Grown(k, s, k.free[t], Copied(k, t, s))
    ensures Capped(k, k.cap[s], s, k.free[t], k.cap[s], Copied(k, t, s))
  {
    PutBehindGrows(k, t, k.cap[s], s, k.cap[s]);
    GrownKeeps(k, s, k.free[t], Copied(k, t, s));
  }
}
