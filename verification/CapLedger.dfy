/** Memory, page tables, pages and capability spaces: none is lost without being destroyed. */
module CapLedger {
  import opened SlotLinks
  import opened Capability
  import opened Carving
  import opened Derivation
  import opened Lineage
  import opened CapOps
  import opened CapMoves
  import opened CapCreate
  import opened CapRuns
  import opened CapTracks

  /** Objects that no two capabilities share. */
  predicate Unshared(c: Cap) { Placed(c) && !Shared(c) }

  /** Some slot of `r`, not the new one, holds the capability that `y` had. */
  ghost predicate StillHeld(r: State, d: Slot, g: map<Slot, Slot>, y: Slot) {
    exists x :: Holding(r, x) && x != d && x in g && g[x] == y
  }

  /** From number `n` on, the record of destroyed capabilities has what `c` was or became. */
  ghost predicate Logged(r: State, n: nat, c: Cap) {
    exists i :: n <= i < |r.destroyed| && Became(c, r.destroyed[i])
  }

  /** The unshared capability of `y` is still held, or was destroyed. */
  ghost predicate Accounted(k: State, r: State, d: Slot, g: map<Slot, Slot>, y: Slot) {
    y in k.cap && Unshared(k.cap[y]) ==> StillHeld(r, d, g, y) || Logged(r, |k.destroyed|, k.cap[y])
  }

  lemma StaysAccounted(k: State, r: State, d: Slot, g: map<Slot, Slot>, y: Slot)
    requires y != d && y in g && g[y] == y && (Occupied(k, y) ==> Holding(r, y))
    ensures Accounted(k, r, d, g, y)
  {
  }

  lemma MovedAccounted(k: State, r: State, x: Slot, y: Slot, g: map<Slot, Slot>)
    requires Holding(r, x) && x in g && g[x] == y && x != NULL
    ensures Accounted(k, r, NULL, g, y)
  {
  }

  // ---------------------------------------------------------------- revoking

  /** What stands behind a revoked memory capability is destroyed. */
  lemma {:induction false} RevokeLogs(k: State, s: Slot, y: Slot)
    requires Inv(k) && Holding(k, s) && Before(k, s, y) && y in k.cap && Unshared(k.cap[y]) && k.lists.Placed(s)
    ensures Logged(RevokeMem(k, s), |k.destroyed|, k.cap[y])
    decreases |k.lists.Of(s)| - k.lists.at[s]
  {
    hide Lawful, ZombiesOk, Ledger, DestroyTail, Became;
    TailFacts(k, s, y);
    var t := Tail(k, s);
    var m := DestroyTail(k, t);
    TailStep(k, s, y, t, m);
    if Logged(m, |k.destroyed|, k.cap[y]) {
      LoggedLater(m, RevokeMem(m, s), |k.destroyed|, k.cap[y]);
    } else {
      var x := if y == t then k.lists.Prev(t) else y;
      RevokeLogs(m, s, x);
      LoggedEarlier(RevokeMem(m, s), |k.destroyed|, |m.destroyed|, k.cap[y]);
    }
  }

  lemma LoggedLater(m: State, r: State, n: nat, c: Cap)
    requires Logged(m, n, c) && m.destroyed <= r.destroyed
    ensures Logged(r, n, c)
  {
    var i :| n <= i < |m.destroyed| && Became(c, m.destroyed[i]);
    assert r.destroyed[i] == m.destroyed[i];
  }

  lemma LoggedEarlier(r: State, n: nat, l: nat, c: Cap)
    requires Logged(r, l, c) && n <= l
    ensures Logged(r, n, c)
  {
    var i :| l <= i < |r.destroyed| && Became(c, r.destroyed[i]);
  }

  /** The first step of revoking, and that the rest is revoking. */
  lemma TailFacts(k: State, s: Slot, y: Slot)
    requires Inv(k) && Holding(k, s) && Before(k, s, y) && k.lists.Placed(s) && y in k.cap
    ensures Partitioned(k, NULL) && Occupied(k, Tail(k, s)) && Before(k, s, Tail(k, s)) && Last(k, Tail(k, s))
    ensures !Last(k, s)
    ensures
      var t := Tail(k, s);
      var m := DestroyTail(k, t);
      && Inv(m) && Holding(m, s) && TailDone(k, t, m) && RevokeMem(k, s) == RevokeMem(m, s)
      && Cut(m, s, RevokeMem(m, s))
      && m.lists.Placed(s) && m.lists.at[s] == k.lists.at[s] && |m.lists.Of(s)| < |k.lists.Of(s)|
  {
    hide Lawful, ZombiesOk, Ledger, DestroyTail;
    assert SlotOk(k, NULL, y);
    TailOccupied(k, s);
    var t := Tail(k, s);
    DestroyTailKeeps(k, t);
    TailLeaves(k, t, s);
    TailCaps(k, s, t, DestroyTail(k, t));
  }

  /** Taking the tail away destroys the capability in question, or leaves it behind `s`. */
  lemma TailStep(k: State, s: Slot, y: Slot, t: Slot, m: State)
    requires Inv(k) && Inv(m) && Holding(k, s) && Holding(m, s) && Before(k, s, y) && y in k.cap && Unshared(k.cap[y])
    requires Occupied(k, t) && Last(k, t) && Before(k, s, t) && TailDone(k, t, m)
    ensures k.lists.Placed(t) && k.destroyed <= m.destroyed
    ensures
      var x := if y == t then k.lists.Prev(t) else y;
      || Logged(m, |k.destroyed|, k.cap[y])
      || (Before(m, s, x) && x in m.cap && m.cap[x] == k.cap[y])
  {
    Backward(k.lists, t);
    var p := k.lists.Prev(t);
    assert SlotOk(k, NULL, p) && SlotOk(k, NULL, y);
    if y == t {
      if k.cap[p].ZombieCap? {
        PassedOn(k, s, t, p, m);
      } else {
        NotSame(k, p, t);
        assert m.destroyed[|k.destroyed|] == k.cap[t];
      }
    } else {
      assert Occupied(m, y) && OrderKept(k, m, s, y) && CapKept(k, m, y);
    }
  }

  lemma PassedOn(k: State, s: Slot, t: Slot, p: Slot, m: State)
    requires Inv(k) && Holding(k, s) && Occupied(k, t) && Before(k, s, t) && k.lists.Placed(t) && p == k.lists.Prev(t)
    requires p in k.cap && k.cap[p].ZombieCap? && Freed(k, m, {t}) && SameList(k, p, t) && p in k.lists.at
    requires k.lists.at[p] + 1 == k.lists.at[t]
    ensures Before(m, s, p)
  {
    Same(k.lists, s, p);
    assert p != t && Occupied(m, p) && Occupied(m, s) && OrderKept(k, m, s, p);
  }

  /** Two different slots never stand for one unshared object. */
  lemma NotSame(k: State, p: Slot, t: Slot)
    requires Sound(k) && p in k.lists.on && t in k.lists.on && p != t && Holding(k, t) && Unshared(k.cap[t])
    requires !k.cap[p].ZombieCap?
    ensures !IsSame(k, p, t)
  {
    assert Resolve(k, p) == p && Resolve(k, t) == t;
  }

  lemma RevokeAccounts(k: Kernel, s: Slot, y: Slot)
    requires s in k.cap
    ensures Accounted(k, Revoke(k, s).0, NULL, RevokeOrigin(k, s), y)
  {
    hide RevokeMem, RevokeZombie, Lawful, ZombiesOk, Ledger, StillHeld, Logged;
    NoNullSlot(k);
    if y in k.cap && Unshared(k.cap[y]) {
      if k.cap[s].MemCap? {
        CutAccounts(k, s, y);
      } else if k.cap[s].ZombieCap? {
        ResolveBehind(k, s);
        RevokeZombieTakes(k, s);
        TakenAccounts(k, s, Resolve(k, s), RevokeZombie(k, s), y);
      } else {
        StaysAccounted(k, k, NULL, Identity(k), y);
      }
    }
  }

  lemma CutAccounts(k: Kernel, s: Slot, y: Slot)
    requires s in k.cap && k.cap[s].MemCap? && y in k.cap && Unshared(k.cap[y]) && y != NULL
    ensures Accounted(k, RevokeMem(k, s), NULL, Identity(k), y)
  {
    var r := RevokeMem(k, s);
    if Before(k, s, y) {
      RevokeLogs(k, s, y);
    } else {
      assert Occupied(r, y) && CapKept(k, r, y);
      StaysAccounted(k, r, NULL, Identity(k), y);
    }
  }

  lemma TakenAccounts(k: State, s: Slot, q: Slot, r: State, y: Slot)
    requires Partitioned(k, NULL) && Occupied(k, s) && k.cap[s].ZombieCap? && Holding(k, q) && Before(k, s, q)
    requires s != NULL && y != NULL && y in k.cap && Unshared(k.cap[y]) && TakenBack(k, s, q, r)
    requires forall x :: Before(k, s, x) && Before(k, x, q) ==> x in k.cap && k.cap[x].ZombieCap?
    ensures Accounted(k, r, NULL, Identity(k)[s := q], y)
  {
    assert SlotOk(k, NULL, y) && SlotOk(k, NULL, q);
    if y == q {
      MovedAccounted(k, r, s, q, Identity(k)[s := q]);
    } else {
      Same(k.lists, y, q);
      assert !Between(k, s, q, y) && CapKept(k, r, y);
      StaysAccounted(k, r, NULL, Identity(k)[s := q], y);
    }
  }

  // ---------------------------------------------------------------- destroying

  lemma HeldAccounts(k: Kernel, s: Slot, y: Slot)
    requires Holding(k, s)
    ensures Accounted(k, DestroyHeld(k, s).0, NULL, HeldOrigin(k, s), y)
  {
    hide RevokeZombie, Push, Lawful, ZombiesOk, Ledger, StillHeld, Logged, IsSame, Resolve;
    assert SlotOk(k, NULL, s);
    NoNullSlot(k);
    if y in k.cap && Unshared(k.cap[y]) {
      if ZombieBefore(k, s) && (SameBefore(k, s) || SameBehind(k, s)) {
        Backward(k.lists, s);
        RevokeAccounts(k, k.lists.Prev(s), y);
      } else {
        DropAccounts(k, s, y);
      }
    }
  }

  lemma DropAccounts(k: Kernel, s: Slot, y: Slot)
    requires Holding(k, s) && s in k.lists.on && !(ZombieBefore(k, s) && (SameBefore(k, s) || SameBehind(k, s)))
    requires y in k.cap && Unshared(k.cap[y]) && y != NULL
    ensures Accounted(k, DestroyHeld(k, s).0, NULL, Identity(k), y)
  {
    hide Push, RevokeZombie, Last, Resolve, IsSame, StillHeld, Logged;
    var r := DestroyHeld(k, s);
    DestroyPartitioned(k, s);
    Pushable(k, s);
    Pushable(CapOps.DestroyObject(k, s), s);
    PushCaps(k, s);
    PushCaps(CapOps.DestroyObject(k, s), s);
    if y != s || r.1.Halted? {
      StaysAccounted(k, r.0, NULL, Identity(k), y);
    } else {
      Lone(k, s);
      LoggedLast(k, r.0, k.cap[s]);
    }
  }

  lemma LoggedLast(k: State, r: State, c: Cap)
    requires r.destroyed == k.destroyed + [c]
    ensures Logged(r, |k.destroyed|, c)
  {
    assert r.destroyed[|k.destroyed|] == c;
  }

  /** No neighbour of an unshared object stands for it but a zombie before it. */
  lemma Lone(k: Kernel, s: Slot)
    requires Holding(k, s) && s in k.lists.on && Unshared(k.cap[s])
    requires !(ZombieBefore(k, s) && (SameBefore(k, s) || SameBehind(k, s)))
    ensures !SameBefore(k, s) && !SameBehind(k, s)
  {
    Backward(k.lists, s);
    Neighbour(k.lists, s);
    NoZombieBefore(k, s);
    assert Resolve(k, s) == s;
  }

  lemma StripAccounts(k: Kernel, s: Slot, y: Slot)
    requires Occupied(k, s)
    ensures Accounted(k, Strip(k, s), NULL, RevokeOrigin(k, s), y)
  {
    hide RevokeMem, RevokeZombie, Accounted;
    RevokeAccounts(k, s, y);
  }

  // ---------------------------------------------------------------- one step after another

  /** What is accounted for from `k` to `m`, and from `m` to `r`, is accounted for from `k` to `r`. */
  lemma AccountTwice(k: State, m: State, r: State, d: Slot, h: map<Slot, Slot>, g: map<Slot, Slot>, y: Slot)
    requires Tracks(k, m, d, h) && Accounted(k, m, d, h, y) && (forall x :: Accounted(m, r, NULL, g, x))
    requires NULL !in r.cap
    requires k.destroyed <= m.destroyed <= r.destroyed
    ensures Accounted(k, r, NULL, Compose(g, h - {d}), y)
  {
    if y in k.cap && Unshared(k.cap[y]) {
      if Logged(m, |k.destroyed|, k.cap[y]) {
        LoggedLater(m, r, |k.destroyed|, k.cap[y]);
      } else {
        var x :| Holding(m, x) && x != d && x in h && h[x] == y;
        assert TrackAt(k, m, h, x) && Accounted(m, r, NULL, g, x);
        if Logged(r, |m.destroyed|, m.cap[x]) {
          LoggedThrough(k.cap[y], m.cap[x], r, |m.destroyed|, |k.destroyed|);
        } else {
          var z :| Holding(r, z) && z != NULL && z in g && g[z] == x;
          assert z in Compose(g, h - {d}) && Compose(g, h - {d})[z] == y;
        }
      }
    }
  }

  lemma LoggedThrough(b: Cap, c: Cap, r: State, l: nat, n: nat)
    requires Logged(r, l, c) && Became(b, c) && n <= l
    ensures Logged(r, n, b)
  {
    var i :| l <= i < |r.destroyed| && Became(c, r.destroyed[i]);
    assert Became(b, r.destroyed[i]);
  }

  lemma DestroyAccounts(k: Kernel, s: Slot, y: Slot)
    requires s in k.cap
    ensures Accounted(k, Destroy(k, s).0, NULL, DestroyOrigin(k, s), y)
  {
    hide Accounted, DestroyHeld, Tracks, Lawful, ZombiesOk, Ledger, RevokeMem, RevokeZombie, HeldOrigin, RevokeOrigin;
    NoNullSlot(k);
    if k.cap[s].NullCap? {
      SelfAccounts(k, y);
    } else {
      var m := Strip(k, s);
      StripAccounts(k, s, y);
      StripConduct(k, s, m);
      HeldConduct(m, s);
      NoNull(Destroy(k, s).0);
      forall x ensures Accounted(m, Destroy(k, s).0, NULL, HeldOrigin(m, s), x) { HeldAccounts(m, s, x); }
      AccountTwice(k, m, Destroy(k, s).0, NULL, RevokeOrigin(k, s), HeldOrigin(m, s), y);
      NoNullOrigin(k, s);
    }
  }

  lemma NoNullOrigin(k: Kernel, s: Slot)
    requires s in k.cap
    ensures RevokeOrigin(k, s) - {NULL} == RevokeOrigin(k, s)
  {
    NoNullSlot(k);
  }

  lemma SelfAccounts(k: State, y: Slot)
    requires NULL !in k.cap
    ensures Accounted(k, k, NULL, Identity(k), y)
  {
    if y in k.cap && Unshared(k.cap[y]) { StaysAccounted(k, k, NULL, Identity(k), y); }
  }

  // ---------------------------------------------------------------- every operation

  /** Every unshared capability of `k` is where it was in `r`. */
  lemma SameAccounts(k: State, r: State, d: Slot, y: Slot)
    requires forall x :: Occupied(k, x) ==> Occupied(r, x)
    requires forall x :: x != d && Occupied(k, x) && Live(k.cap[x]) ==> x in r.cap && Live(r.cap[x])
    requires d != NULL ==> d in k.cap && k.cap[d].NullCap?
    requires NULL !in k.cap
    ensures Accounted(k, r, d, Identity(k), y)
  {
    if y in k.cap && Unshared(k.cap[y]) {
      assert y != d && Occupied(k, y);
      StaysAccounted(k, r, d, Identity(k), y);
    }
  }

  lemma PutAccounts(k: Kernel, s: Slot, out: Outcome, r: State, y: Slot)
    requires s in k.cap && out.Done? && out.slot in r.cap && out.slot != NULL && r.cap[out.slot] == k.cap[s]
    requires Live(k.cap[s])
    requires out.slot in k.cap && k.cap[out.slot].NullCap?
    requires forall x :: x != s && Occupied(k, x) ==> Occupied(r, x) && r.cap[x] == k.cap[x]
    ensures Accounted(k, r, NULL, PutOrigin(k, s, out), y)
  {
    NoNullSlot(k);
    if y in k.cap && Unshared(k.cap[y]) {
      if y == s {
        MovedAccounted(k, r, out.slot, s, PutOrigin(k, s, out));
      } else {
        StaysAccounted(k, r, NULL, PutOrigin(k, s, out), y);
      }
    }
  }

  /** The capability kept in every slot but one that was null: nothing to account for. */
  lemma KeptAccounts(k: Kernel, r: State, d: Slot, y: Slot)
    requires forall x :: Occupied(k, x) ==> Occupied(r, x)
    requires forall x :: x != d ==> CapKept(k, r, x)
    requires d != NULL ==> d in k.cap && k.cap[d].NullCap?
    ensures Accounted(k, r, d, Identity(k), y)
  {
    NoNullSlot(k);
    forall x | x != d && Occupied(k, x) && Live(k.cap[x])
      ensures x in r.cap && Live(r.cap[x])
    {
      assert CapKept(k, r, x);
    }
    SameAccounts(k, r, d, y);
  }

  lemma TransferAccounts(k: Kernel, t: Task, s: Slot, y: Slot)
    requires s in k.cap
    ensures Accounted(k, Transfer(k, t, s).0, NULL, PutOrigin(k, s, Transfer(k, t, s).1), y)
  {
    hide Accounted;
    var r := Transfer(k, t, s);
    NoNullSlot(k);
    if r.1.Done? {
      TransferKeeps(k, t, s);
      forall x | x != s && Occupied(k, x)
        ensures Occupied(r.0, x) && r.0.cap[x] == k.cap[x]
      {
        assert CapKept(k, r.0, x);
      }
      PutAccounts(k, s, r.1, r.0, y);
    } else {
      SelfAccounts(k, y);
    }
  }

  lemma BehindAccounts(k: Kernel, s: Slot, d: Slot, b: Cap, r: State, y: Slot)
    requires Holding(k, s) && Grown(k, s, d, r) && Capped(k, k.cap[s], s, d, b, r) && d != NULL
    ensures Accounted(k, r, NULL, PutOrigin(k, s, Done(d)), y)
  {
    forall x | x != s && Occupied(k, x) ensures Occupied(r, x) && r.cap[x] == k.cap[x] { assert CapKept(k, r, x); }
    PutAccounts(k, s, Done(d), r, y);
  }

  lemma DelegateAccounts(k: Kernel, t: Task, s: Slot, y: Slot)
    requires s in k.cap
    ensures Accounted(k, Delegate(k, t, s).0, NULL, PutOrigin(k, s, Delegate(k, t, s).1), y)
  {
    hide Accounted, Grown, Capped;
    var r := Delegate(k, t, s);
    NoNullSlot(k);
    if r.1.Done? {
      DelegateKeeps(k, t, s);
      BehindAccounts(k, s, k.free[t], ZombieCap, r.0, y);
    } else {
      SelfAccounts(k, y);
    }
  }

  lemma CopyAccounts(k: Kernel, s: Slot, y: Slot)
    requires s in k.cap
    ensures Accounted(k, Copy(k, s).0, NULL, PutOrigin(k, s, Copy(k, s).1), y)
  {
    hide Accounted, Grown, Capped;
    assert SlotOk(k, NULL, s);
    var r, d := Copy(k, s), k.free[k.owner[s]];
    NoNullSlot(k);
    if r.1.Done? {
      if Shared(k.cap[s]) {
        CopyKeeps(k, k.owner[s], s);
        BehindAccounts(k, s, d, k.cap[s], r.0, y);
      } else {
        InsertConduct(k, k.owner[s], k.cap[s]);
        forall x | x != s && Occupied(k, x) ensures Occupied(r.0, x) && r.0.cap[x] == k.cap[x] { }
        PutAccounts(k, s, r.1, r.0, y);
      }
    } else {
      SelfAccounts(k, y);
    }
  }

  lemma InsertAccounts(k: Kernel, t: Task, c: Cap, y: Slot)
    requires CanTake(k, t) && Live(c) && (c.IdCap? || Foreign(k, c))
    ensures Accounted(k, InsertCap(k, t, c), k.free[t], Identity(k), y)
  {
    InsertConduct(k, t, c);
    KeptAccounts(k, InsertCap(k, t, c), k.free[t], y);
  }

  lemma CreateAccounts(k: Kernel, t: Task, s: Slot, kind: Kind, y: Slot)
    requires Legal(k, CreateObject(t, s, kind))
    ensures
      var r := Create(k, t, s, kind);
      Accounted(k, r.0, if r.1.Done? then r.1.slot else NULL, Identity(k), y)
  {
    hide Accounted, PutBehind, PopPush;
    var r := Create(k, t, s, kind);
    NoNullSlot(k);
    if r.1.Done? {
      CreateCarves(k, t, s, kind);
      MadeAccounts(k, s, k.free[t], kind, r.0, y);
    } else if k.cap[s].MemCap? && CanTake(k, t) {
      PopPushUntouched(k, t);
      KeptAccounts(k, PopPush(k, t), NULL, y);
      SelfAccounts(k, y);
    } else {
      SelfAccounts(k, y);
    }
  }

  lemma MadeAccounts(k: Kernel, s: Slot, d: Slot, kind: Kind, r: State, y: Slot)
    requires MadeFrom(k, s, d, kind, r)
    ensures Accounted(k, r, d, Identity(k), y)
  {
    NoNullSlot(k);
    forall x | x != d && Occupied(k, x) && Live(k.cap[x]) ensures x in r.cap && Live(r.cap[x]) {
      assert x != s ==> CapKept(k, r, x);
      assert Occupied(r, x);
    }
    SameAccounts(k, r, d, y);
  }

  lemma SpaceAccounts(k: Kernel, t: Task, page: nat, y: Slot)
    requires t in k.free && t in k.spaces && FreshSlots(k, page, 0, SLOTS_PER_SPACE)
    ensures Accounted(k, AddSpace(k, t, page), NULL, Identity(k), y)
  {
    hide Inv, AddSlots, Accounted, FreshSlots;
    var m, r := AddSlots(k, t, page), AddSpace(k, t, page);
    assert r.cap == m.cap;
    forall x | Occupied(k, x) ensures Occupied(r, x) { assert Occupied(m, x); }
    forall x ensures CapKept(k, r, x) { assert CapKept(k, m, x); }
    KeptAccounts(k, r, NULL, y);
  }

  /** Every operation keeps every unshared capability in some slot, or destroys it. */
  lemma StepAccounts(k: Kernel, op: Op, y: Slot)
    requires Legal(k, op)
    ensures Accounted(k, Step(k, op).0, MadeBy(k, op), Origin(k, op), y)
  {
    hide Accounted, Inv, Destroy, Revoke, Copy, Transfer, Delegate, Create, AddSpace;
    match op
    case NewTask(t) => KeptAccounts(k, AddTask(k, t), NULL, y);
    case NewSpace(t, page) => SpaceAccounts(k, t, page, y);
    case Boot(t, c) => if CanTake(k, t) { InsertAccounts(k, t, c, y); } else { KeptAccounts(k, k, NULL, y); }
    case NewId(t, v1, v2, v3) =>
      if CanTake(k, t) { InsertAccounts(k, t, IdCap(v1, v2, v3), y); } else { KeptAccounts(k, k, NULL, y); }
    case CreateObject(t, s, kind) => CreateAccounts(k, t, s, kind, y);
    case CopyCap(s) => CopyAccounts(k, s, y);
    case TransferCap(t, s) => TransferAccounts(k, t, s, y);
    case DelegateCap(t, s) => DelegateAccounts(k, t, s, y);
    case RevokeCap(s) => RevokeAccounts(k, s, y);
    case DestroyCap(s) => DestroyAccounts(k, s, y);
    case Kill(t) => KeptAccounts(k, Record(k, k.spaces, k.killed + {t}), NULL, y);
  }

  // ---------------------------------------------------------------- runs

  lemma {:induction false} RunLogs(k: Kernel, ops: seq<Op>)
    requires LegalRun(k, ops)
    ensures k.destroyed <= Run(k, ops).destroyed
    decreases |ops|
  {
    hide Step, Inv, Legal;
    if ops != [] {
      StepLogs(k, ops[0]);
      RunLogs(Step(k, ops[0]).0, ops[1..]);
    }
  }

  lemma StepLogs(k: Kernel, op: Op)
    requires Legal(k, op)
    ensures k.destroyed <= Step(k, op).0.destroyed
  {
    StepConduct(k, op);
  }

  /**
   Over every run, memory, a page table, a page or a capability space that was held before it is still held, in the slot
   that the run's origins name, or was destroyed during the run.
   */
  lemma {:induction false} NoneLost(k: Kernel, ops: seq<Op>, y: Slot)
    requires LegalRun(k, ops)
    ensures Accounted(k, Run(k, ops), NULL, RunOrigin(k, ops), y)
    decreases |ops|
  {
    hide Accounted, Step, Inv, Legal, Origin, MadeBy, Tracks;
    NoNull(k);
    NoNull(Run(k, ops));
    if ops == [] {
      SelfAccounts(k, y);
    } else {
      var m, g := Step(k, ops[0]).0, RunOrigin(Step(k, ops[0]).0, ops[1..]);
      StepAccounts(k, ops[0], y);
      MadeConduct(k, ops[0]);
      StepLogs(k, ops[0]);
      RunLogs(m, ops[1..]);
      forall x ensures Accounted(m, Run(m, ops[1..]), NULL, g, x) { NoneLost(m, ops[1..], x); }
      AccountTwice(k, m, Run(m, ops[1..]), MadeBy(k, ops[0]), Origin(k, ops[0]), g, y);
    }
  }
}
