/**
 The capability slots of all tasks: which capability each slot holds, the derivation
 lists and free lists they sit on, and the operations of the kernel on them.
 */
module Derivation {
  import opened SlotLinks
  import opened Capability

  /**
   `owner` is the task whose capability space a slot belongs to; `reserved` holds slot 0 of
   every task; `free` and `count` are the free-list head and its recorded length; `made` lists the
   tasks and endpoints that were created and `destroyed` the capabilities on which
   `destroy_object` ran, both in order.
   */
  datatype State = State(
    lists: Lists,
    cap: map<Slot, Cap>,
    owner: map<Slot, Task>,
    reserved: set<Slot>,
    free: map<Task, Slot>,
    count: map<Task, nat>,
    spaces: map<Task, nat>,
    killed: set<Task>,
    made: seq<Cap>,
    destroyed: seq<Cap>)

  // ---------------------------------------------------------------- slots and free lists

  /** `s` is on the free list of task `t`. */
  predicate OnFreeOf(k: State, t: Task, s: Slot) {
    && t in k.free && k.free[t] != NULL && k.free[t] in k.lists.on
    && s in k.lists.on && k.lists.on[s] == k.lists.on[k.free[t]]
  }

  /** The recorded head and length of a free list are right. */
  predicate HeadOk(k: State, t: Task) {
    && t in k.free && t in k.count
    && if k.free[t] == NULL then k.count[t] == 0
       else k.lists.Placed(k.free[t]) && k.lists.at[k.free[t]] == 0 && k.count[t] == |k.lists.Of(k.free[t])|
  }

  /** Exactly the null slots, bar the reserved one and the one being filled, are free. */
  predicate SlotOk(k: State, hole: Slot, s: Slot) {
    && s in k.cap && s in k.owner && k.lists.Placed(s) && k.owner[s] in k.free
    && (OnFreeOf(k, k.owner[s], s) <==> k.cap[s].NullCap? && s !in k.reserved && s != hole)
    && (s in k.reserved || s == hole ==> k.cap[s].NullCap? && k.lists.Alone(s))
    && (s == hole ==> s !in k.reserved)
  }

  predicate FreeOwn(k: State, t: Task, s: Slot) {
    OnFreeOf(k, t, s) ==> s in k.owner && k.owner[s] == t
  }

  /** A slot that belongs to a task is on a list. */
  predicate Owned(k: State, s: Slot) { s in k.owner ==> s in k.lists.on }

  /**
   Every slot is on one list.  A null slot is on its own task's free list, except a reserved
   slot and the slot `hole` that has been popped and not yet filled, which stand alone.
   */
  ghost predicate Partitioned(k: State, hole: Slot) {
    && k.lists.Ok()
    && (forall s :: s in k.cap <==> s in k.lists.on)
    && (forall s {:trigger Owned(k, s)} :: Owned(k, s))
    && (forall t {:trigger HeadOk(k, t)} :: t in k.free ==> HeadOk(k, t))
    && (forall s {:trigger SlotOk(k, hole, s)} :: s in k.lists.on ==> SlotOk(k, hole, s))
    && (forall t, s :: FreeOwn(k, t, s))
  }

  /** `s` moves to the front of the list headed by `h`, or to a list of its own when there is none. */
  function ToFront(L: Lists, h: Slot, s: Slot): (r: Lists)
    requires L.Ok() && s in L.on
    requires h != NULL ==> L.Placed(h) && L.on[h] != L.on[s]
  {
    if h != NULL then L.Erase(s).PlaceBefore(h, s) else L.Erase(s)
  }

  /** What `push_free_slots` leaves. */
  function Push(k: State, s: Slot): (r: State)
    requires k.lists.Ok() && s in k.lists.on
    requires s in k.owner && HeadOk(k, k.owner[s]) && !OnFreeOf(k, k.owner[s], s)
  {
    var t := k.owner[s];
    k.(lists := ToFront(k.lists, k.free[t], s),
       cap := k.cap[s := NullCap],
       free := k.free[t := s],
       count := k.count[t := k.count[t] + 1])
  }

  /** What `pop_free_slots` leaves when the free list of `t` is not empty. */
  function Pop(k: State, t: Task): (r: State)
    requires HeadOk(k, t) && k.free[t] != NULL && k.lists.at.Keys == k.lists.on.Keys
  {
    var s := k.free[t];
    k.(lists := k.lists.Erase(s),
       free := k.free[t := k.lists.Next(s)],
       count := k.count[t := k.count[t] - 1])
  }

  lemma PopPartitioned(k: State, t: Task)
    requires Partitioned(k, NULL) && t in k.free && k.free[t] != NULL
    ensures HeadOk(k, t) && Partitioned(Pop(k, t), k.free[t])
  {
    assert HeadOk(k, t);
    EraseOk(k.lists, k.free[t]);
    var r := Pop(k, t);
    forall u | u in r.free ensures HeadOk(r, u) { PopHeadOk(k, t, u); }
    forall x | x in r.lists.on ensures SlotOk(r, k.free[t], x) { PopSlotOk(k, t, x); }
    forall u, x ensures FreeOwn(r, u, x) { PopFreeOwn(k, t, u, x); }
    forall x ensures Owned(r, x) { assert Owned(k, x); }
  }

  lemma PopHeadOk(k: State, t: Task, u: Task)
    requires Partitioned(k, NULL) && HeadOk(k, t) && HeadOk(k, u) && k.free[t] != NULL
    ensures HeadOk(Pop(k, t), u)
  {
    var s, L := k.free[t], k.lists;
    assert L.Placed(s);
    if u != t {
      assert FreeOwn(k, t, s) && FreeOwn(k, u, s);
      if k.free[u] != NULL {
        assert L.on[k.free[u]] != L.on[s];
        assert L.Erase(s).seqs[L.on[k.free[u]]] == L.seqs[L.on[k.free[u]]];
      }
    } else if |L.Of(s)| > 1 {
      var h := L.Of(s)[1];
      assert L.Holds(L.on[s], L.seqs[L.on[s]][1], 1);
      assert h != s && L.Next(s) == h && L.Placed(h);
      assert L.Erase(s).Of(h) == RemoveAt(L.Of(s), 0);
    }
  }

  lemma PopSlotOk(k: State, t: Task, x: Slot)
    requires Partitioned(k, NULL) && HeadOk(k, t) && k.free[t] != NULL && x in k.lists.on
    ensures SlotOk(Pop(k, t), k.free[t], x)
  {
    var s, L, r := k.free[t], k.lists, Pop(k, t);
    assert SlotOk(k, NULL, s) && SlotOk(k, NULL, x) && FreeOwn(k, t, s) && FreeOwn(k, t, x);
    EraseOk(L, s);
    assert r.lists.Placed(x);
    Neighbour(L, s);
    if L.Next(s) != NULL { Fresh(L, L.Next(s)); }
    if x != s {
      assert r.lists.on[x] == L.on[x];
      Fresh(L, x);
      assert FreeOwn(k, k.owner[x], s);
      if k.free[k.owner[x]] != NULL { assert HeadOk(k, k.owner[x]); Fresh(L, k.free[k.owner[x]]); }
      assert L.on[x] == L.on[s] <==> k.owner[x] == t && k.cap[x].NullCap? && x !in k.reserved;
    }
  }

  lemma Neighbour(L: Lists, s: Slot)
    requires L.Ok() && s in L.on
    ensures L.Placed(s)
    ensures L.Next(s) != NULL ==> L.Holds(L.on[s], L.Next(s), L.at[s] + 1)
    ensures L.Next(s) == NULL <==> L.at[s] + 1 == |L.Of(s)|
  {
    assert L.Placed(s);
    if L.at[s] + 1 < |L.Of(s)| {
      assert L.Holds(L.on[s], L.seqs[L.on[s]][L.at[s] + 1], L.at[s] + 1);
      assert L.Placed(L.Next(s));
    }
  }

  lemma PopFreeOwn(k: State, t: Task, u: Task, x: Slot)
    requires Partitioned(k, NULL) && HeadOk(k, t) && k.free[t] != NULL
    ensures FreeOwn(Pop(k, t), u, x)
  {
    assert FreeOwn(k, u, x) && FreeOwn(k, t, x);
    assert FreeOwn(k, u, k.free[t]) && FreeOwn(k, t, k.free[t]);
    Neighbour(k.lists, k.free[t]);
    if k.lists.Next(k.free[t]) != NULL { Fresh(k.lists, k.lists.Next(k.free[t])); }
    if u in k.free && k.free[u] != NULL { assert HeadOk(k, u); Fresh(k.lists, k.free[u]); }
  }

  /**
   Where the slots are after `s` moved from its list to the front of the list headed by `h` (or to a list of its own).
   */
  predicate MovedTo(L: Lists, R: Lists, h: Slot, s: Slot, x: Slot) {
    && L.Placed(x) && R.Placed(x) && L.Placed(s) && (h != NULL ==> L.Placed(h))
    && (x == s ==> R.at[s] == 0 && (if h != NULL then R.on[s] == L.on[h] else R.on[s] == L.limit && R.Alone(s)))
    && (x != s ==>
          && R.on[x] == L.on[x]
          && (if h != NULL && L.on[x] == L.on[h] then R.at[x] == L.at[x] + 1 && |R.Of(x)| == |L.Of(x)| + 1
              else if L.on[x] == L.on[s] then R.at[x] == L.at[x] - (if L.at[s] < L.at[x] then 1 else 0) &&
                   |R.Of(x)| == |L.Of(x)| - 1
              else R.at[x] == L.at[x] && |R.Of(x)| == |L.Of(x)|))
  }

  lemma PushMoves(k: State, s: Slot)
    requires k.lists.Ok() && s in k.lists.on && s in k.owner && HeadOk(k, k.owner[s]) && !OnFreeOf(k, k.owner[s], s)
    ensures Push(k, s).lists.Ok() && Pushed(k, s, Push(k, s))
  {
    var L, h, r := k.lists, k.free[k.owner[s]], Push(k, s);
    ToFrontMoves(L, h, s);
    assert r.lists == ToFront(L, h, s);
    assert forall x :: x in L.on ==> MovedTo(L, r.lists, h, s, x);
  }

  lemma ToFrontMoves(L: Lists, h: Slot, s: Slot)
    requires L.Ok() && s in L.on
    requires h != NULL ==> L.Placed(h) && L.on[h] != L.on[s] && L.at[h] == 0
    ensures ToFront(L, h, s).Ok()
    ensures forall x :: x in ToFront(L, h, s).on <==> x in L.on
    ensures forall x :: x in L.on ==> MovedTo(L, ToFront(L, h, s), h, s, x)
  {
    EraseOk(L, s);
    if h != NULL { ErasePlace(L, h, s); }
    forall x | x in L.on ensures MovedTo(L, ToFront(L, h, s), h, s, x) {
      ToFrontMovesAt(L, h, s, x);
    }
  }

  lemma ErasePlace(L: Lists, h: Slot, s: Slot)
    requires L.Ok() && s in L.on && L.Erase(s).Ok() && L.Placed(h) && L.on[h] != L.on[s]
    ensures L.Erase(s).Placed(h) && L.Erase(s).PlaceBefore(h, s).Ok()
  {
    var M := L.Erase(s);
    assert M.Placed(h) && M.Placed(s) && M.Alone(s);
    PlaceBeforeOk(M, h, s);
  }

  lemma ToFrontMovesAt(L: Lists, h: Slot, s: Slot, x: Slot)
    requires L.Ok() && s in L.on && x in L.on && L.Erase(s).Ok()
    requires h != NULL ==> L.Placed(h) && L.at[h] == 0 && L.on[h] != L.on[s]
    requires ToFront(L, h, s).Ok()
    ensures MovedTo(L, ToFront(L, h, s), h, s, x)
  {
    var M := L.Erase(s);
    assert L.Placed(s) && L.Placed(x) && M.Placed(s) && M.Placed(x);
    assert ToFront(L, h, s).Placed(x);
  }

  /** All of `Push`, with the move of the lists told slot by slot. */
  ghost predicate Pushed(k: State, s: Slot, r: State) {
    && s in k.owner && k.owner[s] in k.free && k.owner[s] in k.count
    && r == k.(lists := r.lists, cap := k.cap[s := NullCap], free := k.free[k.owner[s] := s],
               count := k.count[k.owner[s] := k.count[k.owner[s]] + 1])
    && (forall x :: x in r.lists.on <==> x in k.lists.on)
    && forall x :: x in k.lists.on ==> MovedTo(k.lists, r.lists, k.free[k.owner[s]], s, x)
  }

  lemma PushPartitioned(k: State, hole: Slot, s: Slot)
    requires Partitioned(k, hole) && s in k.lists.on && s in k.owner && s !in k.reserved && (hole == NULL || hole == s)
    requires !OnFreeOf(k, k.owner[s], s)
    ensures HeadOk(k, k.owner[s]) && Partitioned(Push(k, s), NULL) && Pushed(k, s, Push(k, s))
  {
    assert SlotOk(k, hole, s);
    assert HeadOk(k, k.owner[s]);
    PushMoves(k, s);
    PushedPartitioned(k, hole, s, Push(k, s));
  }

  lemma PushedPartitioned(k: State, hole: Slot, s: Slot, r: State)
    requires Partitioned(k, hole) && s in k.lists.on && s in k.owner && s !in k.reserved && (hole == NULL || hole == s)
    requires !OnFreeOf(k, k.owner[s], s) && Pushed(k, s, r) && r.lists.Ok()
    ensures Partitioned(r, NULL)
  {
    forall u | u in r.free ensures HeadOk(r, u) { PushHeadOk(k, hole, s, r, u); }
    forall x | x in r.lists.on ensures SlotOk(r, NULL, x) { PushSlotOk(k, hole, s, r, x); }
    forall u, x ensures FreeOwn(r, u, x) { PushFreeOwn(k, hole, s, r, u, x); }
    forall x ensures Owned(r, x) { assert Owned(k, x); }
  }

  lemma PushHeadOk(k: State, hole: Slot, s: Slot, r: State, u: Task)
    requires Partitioned(k, hole) && s in k.lists.on && s in k.owner && !OnFreeOf(k, k.owner[s], s) && Pushed(k, s, r)
    requires u in k.free
    ensures HeadOk(r, u)
  {
    assert HeadOk(k, u) && HeadOk(k, k.owner[s]) && FreeOwn(k, u, s) && SlotOk(k, hole, s);
    assert MovedTo(k.lists, r.lists, k.free[k.owner[s]], s, s);
    if u != k.owner[s] && k.free[u] != NULL {
      assert FreeOwn(k, k.owner[s], k.free[u]) && FreeOwn(k, u, k.free[u]);
      assert MovedTo(k.lists, r.lists, k.free[k.owner[s]], s, k.free[u]);
    } else if u == k.owner[s] && k.free[u] != NULL {
      assert MovedTo(k.lists, r.lists, k.free[u], s, k.free[u]);
    }
  }

  lemma PushSlotOk(k: State, hole: Slot, s: Slot, r: State, x: Slot)
    requires Partitioned(k, hole) && s in k.lists.on && s in k.owner && s !in k.reserved && (hole == NULL || hole == s)
    requires !OnFreeOf(k, k.owner[s], s) && Pushed(k, s, r) && x in k.lists.on
    ensures SlotOk(r, NULL, x)
  {
    var t, h := k.owner[s], k.free[k.owner[s]];
    assert SlotOk(k, hole, s) && SlotOk(k, hole, x) && FreeOwn(k, k.owner[x], s) && FreeOwn(k, t, x);
    assert MovedTo(k.lists, r.lists, h, s, s) && MovedTo(k.lists, r.lists, h, s, x);
    if x == s {
    } else if x in k.reserved {
      Same(k.lists, x, s);
      assert !OnFreeOf(k, t, x);
    } else if k.owner[x] != t {
      var g := k.free[k.owner[x]];
      assert HeadOk(k, k.owner[x]);
      if g != NULL { assert MovedTo(k.lists, r.lists, h, s, g) && FreeOwn(k, k.owner[x], g) && FreeOwn(k, t, g); }
    } else {
      assert HeadOk(k, t);
      Fresh(k.lists, x);
    }
  }

  lemma Fresh(L: Lists, x: Slot)
    requires L.Ok() && x in L.on
    ensures L.on[x] < L.limit
  {
    assert L.Placed(x);
  }

  /** Two slots at one place of one list are one slot. */
  lemma Same(L: Lists, x: Slot, y: Slot)
    requires L.Ok() && x in L.on && y in L.on
    ensures L.on[x] == L.on[y] && L.at[x] == L.at[y] ==> x == y
  {
    assert L.Placed(x) && L.Placed(y);
  }

  lemma PushFreeOwn(k: State, hole: Slot, s: Slot, r: State, u: Task, x: Slot)
    requires Partitioned(k, hole) && s in k.lists.on && s in k.owner && !OnFreeOf(k, k.owner[s], s) && Pushed(k, s, r)
    ensures FreeOwn(r, u, x)
  {
    if OnFreeOf(r, u, x) {
      var h := k.free[k.owner[s]];
      assert FreeOwn(k, u, x) && FreeOwn(k, k.owner[s], x) && FreeOwn(k, u, s) && SlotOk(k, hole, s);
      assert HeadOk(k, u) && HeadOk(k, k.owner[s]);
      assert MovedTo(k.lists, r.lists, h, s, s) && MovedTo(k.lists, r.lists, h, s, x);
      assert u != k.owner[s] ==>
        MovedTo(k.lists, r.lists, h, s, k.free[u]) && FreeOwn(k, u, k.free[u]) && FreeOwn(k, k.owner[s], k.free[u]);
      Fresh(k.lists, x);
    }
  }

  // ---------------------------------------------------------------- changes among occupied slots

  /** No list mixes occupied and null slots. */
  lemma NullsApart(k: State, x: Slot, y: Slot)
    requires Partitioned(k, NULL) && x in k.cap && y in k.cap && k.cap[x].NullCap? && !k.cap[y].NullCap?
    ensures k.lists.on[x] != k.lists.on[y]
  {
    assert SlotOk(k, NULL, x) && SlotOk(k, NULL, y);
    if x in k.reserved {
      Same(k.lists, x, y);
    } else {
      assert FreeOwn(k, k.owner[x], y);
    }
  }

  predicate NullKept(k: State, r: State, x: Slot) {
    && x in k.cap && x in r.cap && k.lists.Placed(x) && r.lists.Placed(x)
    && (r.cap[x].NullCap? <==> k.cap[x].NullCap?)
    && (k.cap[x].NullCap? ==>
          && r.lists.on[x] == k.lists.on[x] && r.lists.at[x] == k.lists.at[x]
          && |r.lists.Of(x)| == |k.lists.Of(x)|)
  }

  predicate StillApart(k: State, r: State, x: Slot, y: Slot) {
    x in k.cap && y in k.cap && k.cap[x].NullCap? && !k.cap[y].NullCap? && x in r.lists.on && y in r.lists.on ==>
      r.lists.on[x] != r.lists.on[y]
  }

  /** The step from `k` to `r` changed only occupied slots and the lists they are on. */
  ghost predicate NullsKept(k: State, r: State) {
    && r.lists.Ok()
    && r.owner == k.owner && r.reserved == k.reserved && r.free == k.free && r.count == k.count
    && (forall x :: x in r.lists.on <==> x in k.lists.on)
    && (forall x :: x in r.cap <==> x in k.cap)
    && (forall x :: x in k.lists.on ==> NullKept(k, r, x))
    && (forall x, y :: StillApart(k, r, x, y))
  }

  lemma KeptPartitioned(k: State, r: State)
    requires Partitioned(k, NULL) && NullsKept(k, r)
    ensures Partitioned(r, NULL)
  {
    forall t | t in r.free ensures HeadOk(r, t) {
      assert HeadOk(k, t);
      if k.free[t] != NULL {
        assert FreeOwn(k, t, k.free[t]) && SlotOk(k, NULL, k.free[t]) && NullKept(k, r, k.free[t]);
      }
    }
    forall s | s in r.lists.on ensures SlotOk(r, NULL, s) { KeptSlotOk(k, r, s); }
    forall t, s ensures FreeOwn(r, t, s) { KeptFreeOwn(k, r, t, s); }
    forall s ensures Owned(r, s) { assert Owned(k, s); }
  }

  lemma KeptSlotOk(k: State, r: State, s: Slot)
    requires Partitioned(k, NULL) && NullsKept(k, r) && s in k.lists.on
    ensures SlotOk(r, NULL, s)
  {
    assert SlotOk(k, NULL, s) && NullKept(k, r, s);
    var t := k.owner[s];
    assert HeadOk(k, t);
    if k.free[t] != NULL {
      var h := k.free[t];
      assert FreeOwn(k, t, h) && SlotOk(k, NULL, h) && NullKept(k, r, h) && StillApart(k, r, h, s);
    }
  }

  lemma KeptFreeOwn(k: State, r: State, t: Task, s: Slot)
    requires Partitioned(k, NULL) && NullsKept(k, r)
    ensures FreeOwn(r, t, s)
  {
    if OnFreeOf(r, t, s) {
      var h := k.free[t];
      assert HeadOk(k, t) && FreeOwn(k, t, h) && FreeOwn(k, t, s) && SlotOk(k, NULL, h);
      assert NullKept(k, r, h) && NullKept(k, r, s) && StillApart(k, r, h, s);
    }
  }

  /** The popped slot `d` is filled with a capability. */
  lemma FillPartitioned(k: State, d: Slot, c: Cap)
    requires Partitioned(k, d) && d in k.lists.on && !c.NullCap?
    ensures Partitioned(k.(cap := k.cap[d := c]), NULL)
  {
    var r := k.(cap := k.cap[d := c]);
    forall t | t in r.free ensures HeadOk(r, t) { assert HeadOk(k, t); }
    forall s | s in r.lists.on ensures SlotOk(r, NULL, s) { assert SlotOk(k, d, s); }
    forall t, s ensures FreeOwn(r, t, s) { assert FreeOwn(k, t, s); }
    forall s ensures Owned(r, s) { assert Owned(k, s); }
  }

  /** An occupied slot gets another capability. */
  function SetCap(k: State, s: Slot, c: Cap): (r: State) {
    k.(cap := k.cap[s := c])
  }

  lemma SetCapPartitioned(k: State, s: Slot, c: Cap)
    requires Partitioned(k, NULL) && s in k.cap && !k.cap[s].NullCap? && !c.NullCap?
    ensures Partitioned(SetCap(k, s, c), NULL)
  {
    var r := SetCap(k, s, c);
    forall x | x in k.lists.on ensures NullKept(k, r, x) { assert SlotOk(k, NULL, x); }
    forall x, y ensures StillApart(k, r, x, y) {
      if x in k.cap && y in k.cap && k.cap[x].NullCap? && !k.cap[y].NullCap? { NullsApart(k, x, y); }
    }
    KeptPartitioned(k, r);
  }

  /** Where the slots are after the lone slot `d` moved to just behind `a`. */
  predicate InsertedAt(L: Lists, R: Lists, a: Slot, d: Slot, x: Slot) {
    && L.Placed(x) && R.Placed(x) && L.Placed(a) && L.Placed(d)
    && (x == d ==> R.on[d] == L.on[a] && R.at[d] == L.at[a] + 1 && |R.Of(d)| == |L.Of(a)| + 1)
    && (x != d ==>
          && R.on[x] == L.on[x]
          && R.at[x] == L.at[x] + (if L.on[x] == L.on[a] && L.at[a] < L.at[x] then 1 else 0)
          && |R.Of(x)| == |L.Of(x)| + (if L.on[x] == L.on[a] then 1 else 0))
  }

  ghost predicate Inserted(L: Lists, R: Lists, a: Slot, d: Slot) {
    && R.Ok()
    && (forall x :: x in R.on <==> x in L.on)
    && forall x :: x in L.on ==> InsertedAt(L, R, a, d, x)
  }

  lemma SpliceInserts(L: Lists, a: Slot, d: Slot)
    requires L.Ok() && a in L.on && d in L.on && L.Alone(d) && a != d
    ensures L.Placed(a) && L.Placed(d) && L.on[a] != L.on[d] && L.at[d] == 0
    ensures Inserted(L, L.SpliceAfter(a, d), a, d)
  {
    assert L.Placed(a) && L.Placed(d);
    Same(L, a, d);
    SpliceAfterOk(L, a, d);
    var R := L.SpliceAfter(a, d);
    forall x | x in L.on ensures InsertedAt(L, R, a, d, x) {
      assert L.Placed(x) && R.Placed(x);
      Same(L, x, d);
    }
  }

  lemma InsertPartitioned(k: State, a: Slot, d: Slot, R: Lists)
    requires Partitioned(k, NULL) && a in k.cap && d in k.cap && !k.cap[a].NullCap? && !k.cap[d].NullCap?
    requires Inserted(k.lists, R, a, d)
    ensures Partitioned(k.(lists := R), NULL)
  {
    var r := k.(lists := R);
    forall x | x in k.lists.on ensures NullKept(k, r, x) {
      assert InsertedAt(k.lists, R, a, d, x);
      assert SlotOk(k, NULL, x);
      if k.cap[x].NullCap? { NullsApart(k, x, a); }
    }
    forall x, y ensures StillApart(k, r, x, y) {
      if x in k.cap && y in k.cap && k.cap[x].NullCap? && !k.cap[y].NullCap? {
        assert InsertedAt(k.lists, R, a, d, x) && InsertedAt(k.lists, R, a, d, y);
        NullsApart(k, x, y);
        NullsApart(k, x, a);
      }
    }
    KeptPartitioned(k, r);
  }

  /** Where the slots are after the lone slot `d` and `s` changed places. */
  predicate SwappedAt(L: Lists, R: Lists, d: Slot, s: Slot, x: Slot) {
    && L.Placed(x) && R.Placed(x) && L.Placed(d) && L.Placed(s)
    && (var y := if x == d then s else if x == s then d else x;
        L.Placed(y) && R.on[x] == L.on[y] && R.at[x] == L.at[y] && |R.Of(x)| == |L.Of(y)|)
  }

  ghost predicate Swapped(L: Lists, R: Lists, d: Slot, s: Slot) {
    && R.Ok()
    && (forall x :: x in R.on <==> x in L.on)
    && forall x :: x in L.on ==> SwappedAt(L, R, d, s, x)
  }

  lemma SubstituteSwaps(L: Lists, d: Slot, s: Slot)
    requires L.Ok() && d in L.on && s in L.on && L.Alone(d) && d != s
    ensures L.Placed(d) && L.Placed(s) && Swapped(L, L.Substitute(d, s), d, s)
  {
    assert L.Placed(d) && L.Placed(s);
    Same(L, d, s);
    SubstituteOk(L, d, s);
    var R := L.Substitute(d, s);
    forall x | x in L.on ensures SwappedAt(L, R, d, s, x) {
      assert L.Placed(x) && R.Placed(x);
    }
  }

  lemma SwapPartitioned(k: State, d: Slot, s: Slot, R: Lists)
    requires Partitioned(k, NULL) && d in k.cap && s in k.cap && !k.cap[d].NullCap? && !k.cap[s].NullCap?
    requires Swapped(k.lists, R, d, s)
    ensures Partitioned(k.(lists := R), NULL)
  {
    var r := k.(lists := R);
    forall x | x in k.lists.on ensures NullKept(k, r, x) {
      assert SwappedAt(k.lists, R, d, s, x);
      assert SlotOk(k, NULL, x);
    }
    forall x, y ensures StillApart(k, r, x, y) {
      if x in k.cap && y in k.cap && k.cap[x].NullCap? && !k.cap[y].NullCap? {
        assert SwappedAt(k.lists, R, d, s, x) && SwappedAt(k.lists, R, d, s, y);
        NullsApart(k, x, y);
        NullsApart(k, x, d);
        NullsApart(k, x, s);
      }
    }
    KeptPartitioned(k, r);
  }
}
