/**
 What the derivation lists mean: which object a slot denotes, and the invariants that
 creating, copying, delegating, revoking and destroying capabilities rely on.
 */
module Lineage {
  import opened SlotLinks
  import opened Capability
  import opened Derivation

  predicate Occupied(k: State, s: Slot) { s in k.cap && !k.cap[s].NullCap? }

  predicate Holding(k: State, s: Slot) { s in k.cap && Live(k.cap[s]) }

  /** `s` is in front of `x` on one list. */
  predicate Before(k: State, s: Slot, x: Slot) {
    && s in k.lists.on && x in k.lists.on && s in k.lists.at && x in k.lists.at
    && k.lists.on[s] == k.lists.on[x]
    && k.lists.at[s] < k.lists.at[x]
  }

  predicate SameList(k: State, s: Slot, x: Slot) {
    s in k.lists.on && x in k.lists.on && k.lists.on[s] == k.lists.on[x]
  }

  predicate NotLast(k: State, s: Slot) {
    k.lists.Placed(s) && k.lists.at[s] + 1 < |k.lists.Of(s)|
  }

  /** A delegated capability is never the last of its list. */
  ghost predicate ZombiesOk(k: State) {
    forall s :: s in k.cap && k.cap[s].ZombieCap? ==> NotLast(k, s)
  }

  // ---------------------------------------------------------------- what a slot denotes

  /** The slot that holds the capability `s` stands for: the first one from `s` on that is not a zombie. */
  function Resolve(k: State, s: Slot): (r: Slot)
    requires k.lists.Ok() && s in k.lists.on && (forall x :: x in k.lists.on ==> x in k.cap)
    ensures r in k.lists.on && SameList(k, s, r) && k.lists.at[s] <= k.lists.at[r]
    ensures forall x :: SameList(k, s, x) && k.lists.at[s] <= k.lists.at[x] < k.lists.at[r] ==>
      x in k.cap && k.cap[x].ZombieCap?
    ensures k.cap[r].ZombieCap? ==> k.lists.at[r] + 1 == |k.lists.Of(r)|
    ensures !k.cap[s].ZombieCap? ==> r == s
    decreases |k.lists.Of(s)| - k.lists.at[s]
  {
    Neighbour(k.lists, s);
    if k.cap[s].ZombieCap? && k.lists.Next(s) != NULL then
      assert forall x :: SameList(k, s, x) && k.lists.at[x] == k.lists.at[s] ==> x == s by {
        forall x | SameList(k, s, x) && k.lists.at[x] == k.lists.at[s] ensures x == s { Same(k.lists, s, x); }
      }
      Resolve(k, k.lists.Next(s))
    else s
  }

  /** What `is_same_object` decides. */
  predicate IsSame(k: State, a: Slot, b: Slot)
    requires k.lists.Ok() && a in k.lists.on && b in k.lists.on && (forall x :: x in k.lists.on ==> x in k.cap)
  {
    var r, q := Resolve(k, a), Resolve(k, b);
    r == q || SameCopy(k.cap[r], k.cap[q])
  }

  // ---------------------------------------------------------------- the invariants over held capabilities

  /** Nothing but `s`'s own kernel object stands between two slots that hold it. */
  predicate Unbroken(k: State, s: Slot, x: Slot, y: Slot) {
    Holding(k, s) && Holding(k, x) && Holding(k, y) && Before(k, s, x) && Before(k, x, y) ==>
      SameShared(k.cap[s], k.cap[y]) ==>
      SameShared(k.cap[s], k.cap[x])
  }

  /** Slots that hold one kernel object are on one list. */
  predicate OneList(k: State, s: Slot, x: Slot) {
    Holding(k, s) && Holding(k, x) && SameShared(k.cap[s], k.cap[x]) ==> SameList(k, s, x)
  }

  /** `s` was carved from the memory that `x` has given out, and stands behind `x`. */
  predicate Under(k: State, s: Slot, x: Slot)
    requires s in k.cap && x in k.cap && Placed(k.cap[s])
  {
    Before(k, x, s) && Within(k.cap[s], k.cap[x])
  }

  /** Two held capabilities stand for one object, for disjoint memory, or one was carved from the other. */
  predicate Nested(k: State, s: Slot, x: Slot) {
    s != x && s in k.cap && x in k.cap && Placed(k.cap[s]) && Placed(k.cap[x]) ==>
      || SameShared(k.cap[s], k.cap[x])
      || Apart(k.cap[s], k.cap[x])
      || Under(k, s, x)
      || Under(k, x, s)
  }

  ghost predicate Lawful(k: State) {
    && (forall s :: s in k.cap ==> WellSized(k.cap[s]))
    && (forall s, x, y :: Unbroken(k, s, x, y))
    && (forall s, x :: OneList(k, s, x))
    && (forall s, x :: Nested(k, s, x))
  }

  // ---------------------------------------------------------------- carrying the invariants over a step

  predicate ImageAt(r: State, k: State, g: map<Slot, Slot>, s: Slot) {
    Holding(r, s) ==> s in g && g[s] in k.cap && k.cap[g[s]] == r.cap[s]
  }

  predicate ImagePair(r: State, k: State, g: map<Slot, Slot>, s: Slot, x: Slot) {
    Holding(r, s) && Holding(r, x) && s in g && x in g ==>
      && (SameList(k, g[s], g[x]) && Placed(r.cap[s]) && Placed(r.cap[x]) ==> SameList(r, s, x))
      && (Before(r, s, x) ==> g[s] == g[x] || Before(k, g[s], g[x]))
      && (s != x && g[s] == g[x] ==> Shared(r.cap[s]) || r.cap[s].IdCap?)
  }

  /**
   Every capability held in `r` was held in `k`, by the slot that `g` names, and the lists order
   them alike; only copies may come from one slot.
   */
  ghost predicate Embeds(r: State, k: State, g: map<Slot, Slot>) {
    && (forall s :: ImageAt(r, k, g, s))
    && (forall s, x :: ImagePair(r, k, g, s, x))
  }

  lemma EmbeddedLawful(r: State, k: State, g: map<Slot, Slot>)
    requires Lawful(k) && Embeds(r, k, g) && Partitioned(r, NULL)
    ensures Lawful(r)
  {
    forall s | s in r.cap ensures WellSized(r.cap[s]) { assert ImageAt(r, k, g, s); }
    forall s, x, y ensures Unbroken(r, s, x, y) { EmbeddedUnbroken(r, k, g, s, x, y); }
    forall s, x ensures OneList(r, s, x) {
      assert ImageAt(r, k, g, s) && ImageAt(r, k, g, x) && ImagePair(r, k, g, s, x);
      if s in g && x in g { assert OneList(k, g[s], g[x]); }
    }
    forall s, x ensures Nested(r, s, x) {
      if s in r.cap && x in r.cap && s != x { EmbeddedNested(r, k, g, s, x); }
    }
  }

  lemma EmbeddedUnbroken(r: State, k: State, g: map<Slot, Slot>, s: Slot, x: Slot, y: Slot)
    requires Lawful(k) && Embeds(r, k, g)
    ensures Unbroken(r, s, x, y)
  {
    assert ImageAt(r, k, g, s) && ImageAt(r, k, g, x) && ImageAt(r, k, g, y);
    assert ImagePair(r, k, g, s, x) && ImagePair(r, k, g, x, y);
    if s in g && x in g && y in g { assert Unbroken(k, g[s], g[x], g[y]); }
  }

  lemma EmbeddedNested(r: State, k: State, g: map<Slot, Slot>, s: Slot, x: Slot)
    requires Lawful(k) && Embeds(r, k, g) && s in r.cap && x in r.cap && s != x
    requires Partitioned(r, NULL)
    ensures Nested(r, s, x)
  {
    assert ImageAt(r, k, g, s) && ImageAt(r, k, g, x);
    assert ImagePair(r, k, g, s, x) && ImagePair(r, k, g, x, s);
    assert SlotOk(r, NULL, s) && SlotOk(r, NULL, x);
    Same(r.lists, s, x);
    if s in g && x in g { assert Nested(k, g[s], g[x]); }
  }

  // ---------------------------------------------------------------- created and destroyed objects

  /** Some slot holds the kernel object of `c`. */
  ghost predicate Alive(k: State, c: Cap) {
    exists s :: s in k.cap && SameShared(k.cap[s], c)
  }

  /** `destroy_object` ran on the kernel object of `c`. */
  ghost predicate Gone(k: State, c: Cap) {
    exists i :: 0 <= i < |k.destroyed| && SameShared(k.destroyed[i], c)
  }

  /**
   A destroyed object is held nowhere, overlaps nothing held, and no memory capability has its memory left to give
   out.
   */
  predicate DeadApart(d: Cap, c: Cap) {
    && !SameShared(d, c)
    && (Placed(d) && Placed(c) ==>
          if c.MemCap? then Hi(d) <= c.base + c.used || c.base + c.size <= Lo(d) else Apart(d, c))
  }

  /** Every object ever made is either held or destroyed, not both; none is destroyed twice. */
  ghost predicate Ledger(k: State) {
    && (forall i, s :: 0 <= i < |k.destroyed| && s in k.cap ==> DeadApart(k.destroyed[i], k.cap[s]))
    && (forall i, j :: 0 <= i < j < |k.destroyed| ==> !SameShared(k.destroyed[i], k.destroyed[j]))
    && (forall i :: 0 <= i < |k.made| ==> Alive(k, k.made[i]) || Gone(k, k.made[i]))
  }

  lemma SharedTrans(a: Cap, b: Cap, c: Cap)
    ensures SameShared(a, b) && SameShared(b, c) ==> SameShared(a, c)
    ensures SameShared(a, b) ==> SameShared(b, a)
  {
  }

  /** A step that only moved or dropped capabilities, and destroyed those in `more`. */
  lemma LedgerKept(k: State, r: State, g: map<Slot, Slot>, more: seq<Cap>)
    requires Ledger(k) && Embeds(r, k, g)
    requires r.made == k.made && r.destroyed == k.destroyed + more
    requires forall s :: s in k.cap && Shared(k.cap[s]) ==> Alive(r, k.cap[s]) || Gone(r, k.cap[s])
    requires forall i, s :: 0 <= i < |more| && s in r.cap ==> DeadApart(more[i], r.cap[s])
    requires forall i, j :: 0 <= i < j < |more| ==> !SameShared(more[i], more[j])
    requires forall i, j :: 0 <= i < |k.destroyed| && 0 <= j < |more| ==> !SameShared(k.destroyed[i], more[j])
    ensures Ledger(r)
  {
    forall i, s | 0 <= i < |r.destroyed| && s in r.cap ensures DeadApart(r.destroyed[i], r.cap[s]) {
      if i < |k.destroyed| {
        assert ImageAt(r, k, g, s);
        if Holding(r, s) { assert DeadApart(k.destroyed[i], k.cap[g[s]]); }
      } else {
        assert DeadApart(more[i - |k.destroyed|], r.cap[s]);
      }
    }
    forall i | 0 <= i < |r.made| ensures Alive(r, r.made[i]) || Gone(r, r.made[i]) {
      MadeKept(k, r, r.made[i]);
    }
  }

  lemma MadeKept(k: State, r: State, c: Cap)
    requires Alive(k, c) || Gone(k, c)
    requires |k.destroyed| <= |r.destroyed| && k.destroyed == r.destroyed[..|k.destroyed|]
    requires forall s :: s in k.cap && Shared(k.cap[s]) ==> Alive(r, k.cap[s]) || Gone(r, k.cap[s])
    ensures Alive(r, c) || Gone(r, c)
  {
    if Alive(k, c) {
      var s :| s in k.cap && SameShared(k.cap[s], c);
      if Alive(r, k.cap[s]) {
        var x :| x in r.cap && SameShared(r.cap[x], k.cap[s]);
        SharedTrans(r.cap[x], k.cap[s], c);
      } else {
        var i :| 0 <= i < |r.destroyed| && SameShared(r.destroyed[i], k.cap[s]);
        SharedTrans(r.destroyed[i], k.cap[s], c);
      }
    } else {
      var i :| 0 <= i < |k.destroyed| && SameShared(k.destroyed[i], c);
      assert r.destroyed[i] == k.destroyed[i];
    }
  }
}
