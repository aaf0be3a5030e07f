/**
 The doubly linked lists that thread capability slots together, as memory holds them:
 a slot is named by its address, and the `prev` and `next` words of all slots are two
 maps from addresses to addresses.  The abstract value of that memory is `Lists`: named
 sequences of slots, with every slot on exactly one of them.  Each splice of `cap_slot_t`
 changes a few words; the lemmas here say which change of `Lists` that is.
 */
module SlotLinks {

  /** A slot's address; null pointers are address 0. */
  type Slot = nat

  const NULL: Slot := 0

  /** The `prev` or the `next` words of all slots. */
  type Words = map<Slot, Slot>

  /** The name of a list. */
  type Name = nat

  function RemoveAt(c: seq<Slot>, i: nat): (r: seq<Slot>)
    requires i < |c|
    ensures |r| == |c| - 1
    ensures forall k {:trigger r[k]} :: 0 <= k < |r| ==> r[k] == if k < i then c[k] else c[k + 1]
  {
    seq(|c| - 1, k requires 0 <= k < |c| - 1 => if k < i then c[k] else c[k + 1])
  }

  function InsertAt(c: seq<Slot>, i: nat, d: seq<Slot>): (r: seq<Slot>)
    requires i <= |c|
    ensures |r| == |c| + |d|
    ensures forall k {:trigger r[k]} :: 0 <= k < |r| ==>
      r[k] == if k < i then c[k] else if k < i + |d| then d[k - i] else c[k - |d|]
  {
    seq(|c| + |d|, k requires 0 <= k < |c| + |d| =>
      if k < i then c[k] else if k < i + |d| then d[k - i] else c[k - |d|])
  }

  function PutAt(c: seq<Slot>, i: nat, d: Slot): (r: seq<Slot>)
    requires i < |c|
    ensures |r| == |c|
    ensures forall k {:trigger r[k]} :: 0 <= k < |r| ==> r[k] == if k == i then d else c[k]
  {
    c[i := d]
  }

  /**
   Where every slot is: on which list, at which place; and the lists, head first.  Names from `limit` on are unused.
   */
  datatype Lists = Lists(on: map<Slot, Name>, at: map<Slot, nat>, seqs: map<Name, seq<Slot>>, limit: Name) {

    /** Slots and places on lists correspond one to one. */
    ghost predicate Ok() {
      && at.Keys == on.Keys
      && (forall s {:trigger Placed(s)} :: s in on ==> Placed(s))
      && (forall n, i {:trigger Holds(n, seqs[n][i], i)} :: n in seqs && 0 <= i < |seqs[n]| ==> Holds(n, seqs[n][i], i))
      && (forall n :: n in seqs ==> n < limit)
    }

    predicate Placed(s: Slot) {
      && s in on && s in at && s != NULL
      && on[s] in seqs
      && at[s] < |seqs[on[s]]|
      && seqs[on[s]][at[s]] == s
    }

    predicate Holds(n: Name, s: Slot, i: int) {
      s in on && s in at && on[s] == n && at[s] == i
    }

    /** The list that `s` is on. */
    function Of(s: Slot): (c: seq<Slot>)
      requires Placed(s)
    {
      seqs[on[s]]
    }

    /** The neighbour behind `s`, or null. */
    function Next(s: Slot): (n: Slot)
      requires Placed(s)
    {
      if at[s] + 1 < |Of(s)| then Of(s)[at[s] + 1] else NULL
    }

    /** The neighbour before `s`, or null. */
    function Prev(s: Slot): (p: Slot)
      requires Placed(s)
    {
      if 0 < at[s] then Of(s)[at[s] - 1] else NULL
    }

    predicate Alone(s: Slot)
      requires Placed(s)
    {
      |Of(s)| == 1
    }

    /** `s` leaves its list and stands alone on a new one. */
    function Erase(s: Slot): (r: Lists)
      requires Placed(s) && at.Keys == on.Keys
    {
      var n, i := on[s], at[s];
      Lists(on[s := limit],
            (map x | x in at :: if on[x] == n && i < at[x] then at[x] - 1 else at[x])[s := 0],
            seqs[n := RemoveAt(seqs[n], i)][limit := [s]],
            limit + 1)
    }

    /** The whole list of `s` moves to just behind `a`. */
    function SpliceAfter(a: Slot, s: Slot): (r: Lists)
      requires Placed(a) && Placed(s) && at.Keys == on.Keys
    {
      var n, m, i := on[a], on[s], at[a] + 1;
      Lists(map x | x in on :: if on[x] == m then n else on[x],
            map x | x in at :: if on[x] == m then i + at[x]
                               else if on[x] == n && i <= at[x] then at[x] + |seqs[m]| else at[x],
            seqs[n := InsertAt(seqs[n], i, seqs[m])] - {m},
            limit)
    }

    /** The lone slot `s` moves to just before `b`. */
    function PlaceBefore(b: Slot, s: Slot): (r: Lists)
      requires Placed(b) && Placed(s) && at.Keys == on.Keys
    {
      var n, i := on[b], at[b];
      Lists(on[s := n],
            (map x | x in at :: if on[x] == n && i <= at[x] then at[x] + 1 else at[x])[s := i],
            seqs[n := InsertAt(seqs[n], i, [s])] - {on[s]},
            limit)
    }

    /** The lone slot `d` and the slot `s` change places. */
    function Substitute(d: Slot, s: Slot): (r: Lists)
      requires Placed(d) && Placed(s)
    {
      Lists(on[d := on[s]][s := on[d]],
            at[d := at[s]][s := at[d]],
            seqs[on[s] := PutAt(seqs[on[s]], at[s], d)][on[d] := [s]],
            limit)
    }
  }

  /** Memory represents `L`: both words of every slot name its neighbours. */
  ghost predicate Linked(prev: Words, next: Words, L: Lists) {
    && L.Ok()
    && forall s :: s in L.on ==> LinkedAt(prev, next, L, s)
  }

  ghost predicate LinkedAt(prev: Words, next: Words, L: Lists, s: Slot) {
    && s in prev && s in next && L.Placed(s)
    && prev[s] == L.Prev(s)
    && next[s] == L.Next(s)
  }

  // ---------------------------------------------------------------- the splices keep lists lists

  lemma EraseOk(L: Lists, s: Slot)
    requires L.Ok() && s in L.on
    ensures L.Erase(s).Ok()
  {
    var R := L.Erase(s);
    assert L.Placed(s);
    forall x | x in R.on ensures R.Placed(x) { assert L.Placed(x); }
    forall n, i | n in R.seqs && 0 <= i < |R.seqs[n]| ensures R.Holds(n, R.seqs[n][i], i) {
      if n != L.limit {
        var j := if n == L.on[s] && L.at[s] <= i then i + 1 else i;
        assert L.Holds(n, L.seqs[n][j], j);
      }
    }
  }

  lemma SpliceAfterOk(L: Lists, a: Slot, s: Slot)
    requires L.Ok() && a in L.on && s in L.on && L.on[a] != L.on[s]
    ensures L.SpliceAfter(a, s).Ok()
  {
    var R := L.SpliceAfter(a, s);
    assert L.Placed(a) && L.Placed(s);
    forall x | x in R.on ensures R.Placed(x) { assert L.Placed(x); }
    var p, d := L.at[a] + 1, |L.seqs[L.on[s]]|;
    forall n, i | n in R.seqs && 0 <= i < |R.seqs[n]| ensures R.Holds(n, R.seqs[n][i], i) {
      if n != L.on[a] || i < p {
        assert L.Holds(n, L.seqs[n][i], i);
      } else if i < p + d {
        assert L.Holds(L.on[s], L.seqs[L.on[s]][i - p], i - p);
      } else {
        assert L.Holds(n, L.seqs[n][i - d], i - d);
      }
    }
  }

  lemma PlaceBeforeOk(L: Lists, b: Slot, s: Slot)
    requires L.Ok() && b in L.on && s in L.on && L.Alone(s) && b != s
    ensures L.PlaceBefore(b, s).Ok()
  {
    var R := L.PlaceBefore(b, s);
    assert L.Placed(b) && L.Placed(s);
    forall x | x in R.on ensures R.Placed(x) { assert L.Placed(x); }
    forall n, i | n in R.seqs && 0 <= i < |R.seqs[n]| ensures R.Holds(n, R.seqs[n][i], i) {
      if n != L.on[b] || i < L.at[b] {
        assert L.Holds(n, L.seqs[n][i], i);
      } else if i > L.at[b] {
        assert L.Holds(n, L.seqs[n][i - 1], i - 1);
      }
    }
  }

  lemma SubstituteOk(L: Lists, d: Slot, s: Slot)
    requires L.Ok() && d in L.on && s in L.on && L.Alone(d) && d != s
    ensures L.Substitute(d, s).Ok()
  {
    var R := L.Substitute(d, s);
    assert L.Placed(d) && L.Placed(s);
    forall x | x in R.on ensures R.Placed(x) { assert L.Placed(x); }
    forall n, i | n in R.seqs && 0 <= i < |R.seqs[n]| ensures R.Holds(n, R.seqs[n][i], i) {
      assert L.Holds(n, L.seqs[n][i], i);
    }
  }

  // ---------------------------------------------------------------- memory follows the splices

  /** The words `erase_this` leaves. */
  function ErasePrev(prev: Words, next: Words, s: Slot): (r: Words)
    requires s in prev && s in next
  {
    (if next[s] != NULL then prev[next[s] := prev[s]] else prev)[s := NULL]
  }

  function EraseNext(prev: Words, next: Words, s: Slot): (r: Words)
    requires s in prev && s in next
  {
    (if prev[s] != NULL then next[prev[s] := next[s]] else next)[s := NULL]
  }

  lemma EraseLinked(prev: Words, next: Words, L: Lists, s: Slot)
    requires Linked(prev, next, L) && s in L.on
    ensures Linked(ErasePrev(prev, next, s), EraseNext(prev, next, s), L.Erase(s))
  {
    EraseOk(L, s);
    forall x | x in L.on ensures LinkedAt(ErasePrev(prev, next, s), EraseNext(prev, next, s), L.Erase(s), x) {
      EraseHere(prev, next, L, s, x);
    }
  }

  lemma EraseHere(prev: Words, next: Words, L: Lists, s: Slot, x: Slot)
    requires Linked(prev, next, L) && s in L.on
    requires x in L.on && L.Erase(s).Ok()
    ensures LinkedAt(ErasePrev(prev, next, s), EraseNext(prev, next, s), L.Erase(s), x)
  {
    Neighbours(prev, next, L, s);
    Neighbours(prev, next, L, x);
    assert L.Erase(s).Placed(x);
    EraseLinkedAt(prev, next, L, s, x);
  }

  lemma EraseLinkedAt(prev: Words, next: Words, L: Lists, s: Slot, x: Slot)
    requires Near(prev, next, L, s)
    requires Near(prev, next, L, x) && L.at.Keys == L.on.Keys && (forall n :: n in L.seqs ==> n < L.limit)
    requires L.Erase(s).Placed(x)
    ensures LinkedAt(ErasePrev(prev, next, s), EraseNext(prev, next, s), L.Erase(s), x)
  {
  }

  /** Memory has the neighbours of `s` right, and they are on its list, one place away. */
  ghost predicate Near(prev: Words, next: Words, L: Lists, s: Slot) {
    && LinkedAt(prev, next, L, s)
    && (next[s] != NULL ==> L.Holds(L.on[s], next[s], L.at[s] + 1))
    && (prev[s] != NULL ==> L.Holds(L.on[s], prev[s], L.at[s] - 1))
    && (next[s] == NULL <==> L.at[s] + 1 == |L.Of(s)|)
    && (prev[s] == NULL <==> L.at[s] == 0)
  }

  lemma Neighbours(prev: Words, next: Words, L: Lists, s: Slot)
    requires Linked(prev, next, L) && s in L.on
    ensures Near(prev, next, L, s)
  {
    assert LinkedAt(prev, next, L, s);
    var c, i, n := L.Of(s), L.at[s], L.on[s];
    if i + 1 < |c| { assert L.Holds(n, L.seqs[n][i + 1], i + 1); }
    if 0 < i { assert L.Holds(n, L.seqs[n][i - 1], i - 1); }
  }

  /** The words `insert_after` leaves when `t` is the tail of the inserted list. */
  function SplicePrev(prev: Words, next: Words, a: Slot, s: Slot, t: Slot): (r: Words)
    requires a in next
  {
    (if next[a] != NULL then prev[next[a] := t] else prev)[s := a]
  }

  function SpliceNext(next: Words, a: Slot, s: Slot, t: Slot): (r: Words)
    requires a in next
  {
    (if next[a] != NULL then next[t := next[a]] else next)[a := s]
  }

  lemma SpliceAfterLinked(prev: Words, next: Words, L: Lists, a: Slot, s: Slot, t: Slot)
    requires Linked(prev, next, L) && a in L.on && s in L.on && L.on[a] != L.on[s] && L.at[s] == 0
    requires L.Holds(L.on[s], t, |L.Of(s)| - 1)
    ensures Linked(SplicePrev(prev, next, a, s, t), SpliceNext(next, a, s, t), L.SpliceAfter(a, s))
  {
    SpliceAfterOk(L, a, s);
    forall x | x in L.on
      ensures LinkedAt(SplicePrev(prev, next, a, s, t), SpliceNext(next, a, s, t), L.SpliceAfter(a, s), x)
    {
      SpliceAfterHere(prev, next, L, a, s, t, x);
    }
  }

  lemma SpliceAfterHere(prev: Words, next: Words, L: Lists, a: Slot, s: Slot, t: Slot, x: Slot)
    requires Linked(prev, next, L) && a in L.on && s in L.on && L.on[a] != L.on[s] && L.at[s] == 0
    requires L.Holds(L.on[s], t, |L.Of(s)| - 1)
    requires x in L.on && L.SpliceAfter(a, s).Ok()
    ensures LinkedAt(SplicePrev(prev, next, a, s, t), SpliceNext(next, a, s, t), L.SpliceAfter(a, s), x)
  {
    Neighbours(prev, next, L, a);
    Neighbours(prev, next, L, s);
    Neighbours(prev, next, L, t);
    Neighbours(prev, next, L, x);
    assert L.SpliceAfter(a, s).Placed(x);
    SpliceAfterLinkedAt(prev, next, L, a, s, t, x);
  }

  lemma SpliceAfterLinkedAt(prev: Words, next: Words, L: Lists, a: Slot, s: Slot, t: Slot, x: Slot)
    requires Near(prev, next, L, a) && Near(prev, next, L, s) && Near(prev, next, L, t) && L.on[a] != L.on[s]
    requires L.at[s] == 0
    requires L.Holds(L.on[s], t, |L.Of(s)| - 1)
    requires Near(prev, next, L, x) && L.at.Keys == L.on.Keys && (forall n :: n in L.seqs ==> n < L.limit)
    requires L.SpliceAfter(a, s).Placed(x)
    ensures LinkedAt(SplicePrev(prev, next, a, s, t), SpliceNext(next, a, s, t), L.SpliceAfter(a, s), x)
  {
    SplicePrevAt(prev, next, L, a, s, t, x);
    SpliceNextAt(prev, next, L, a, s, t, x);
  }

  lemma SplicePrevAt(prev: Words, next: Words, L: Lists, a: Slot, s: Slot, t: Slot, x: Slot)
    requires Near(prev, next, L, a) && Near(prev, next, L, s) && Near(prev, next, L, t) && L.on[a] != L.on[s]
    requires L.at[s] == 0
    requires L.Holds(L.on[s], t, |L.Of(s)| - 1)
    requires Near(prev, next, L, x) && L.at.Keys == L.on.Keys && (forall n :: n in L.seqs ==> n < L.limit)
    requires L.SpliceAfter(a, s).Placed(x)
    ensures x in SplicePrev(prev, next, a, s, t) && SplicePrev(prev, next, a, s, t)[x] == L.SpliceAfter(a, s).Prev(x)
  {
  }

  lemma SpliceNextAt(prev: Words, next: Words, L: Lists, a: Slot, s: Slot, t: Slot, x: Slot)
    requires Near(prev, next, L, a) && Near(prev, next, L, s) && Near(prev, next, L, t) && L.on[a] != L.on[s]
    requires L.at[s] == 0
    requires L.Holds(L.on[s], t, |L.Of(s)| - 1)
    requires Near(prev, next, L, x) && L.at.Keys == L.on.Keys && (forall n :: n in L.seqs ==> n < L.limit)
    requires L.SpliceAfter(a, s).Placed(x)
    ensures x in SpliceNext(next, a, s, t) && SpliceNext(next, a, s, t)[x] == L.SpliceAfter(a, s).Next(x)
  {
  }

  /** The words `insert_before` leaves. */
  function PlacePrev(prev: Words, b: Slot, s: Slot): (r: Words)
    requires b in prev
  {
    (if prev[b] != NULL then prev[s := prev[b]] else prev)[b := s]
  }

  function PlaceNext(prev: Words, next: Words, b: Slot, s: Slot): (r: Words)
    requires b in prev
  {
    (if prev[b] != NULL then next[prev[b] := s] else next)[s := b]
  }

  lemma PlaceBeforeLinked(prev: Words, next: Words, L: Lists, b: Slot, s: Slot)
    requires Linked(prev, next, L) && b in L.on && s in L.on && L.Alone(s) && b != s
    ensures Linked(PlacePrev(prev, b, s), PlaceNext(prev, next, b, s), L.PlaceBefore(b, s))
  {
    PlaceBeforeOk(L, b, s);
    forall x | x in L.on ensures LinkedAt(PlacePrev(prev, b, s), PlaceNext(prev, next, b, s), L.PlaceBefore(b, s), x) {
      PlaceBeforeHere(prev, next, L, b, s, x);
    }
  }

  lemma PlaceBeforeHere(prev: Words, next: Words, L: Lists, b: Slot, s: Slot, x: Slot)
    requires Linked(prev, next, L) && b in L.on && s in L.on && L.Alone(s) && b != s
    requires x in L.on && L.PlaceBefore(b, s).Ok()
    ensures LinkedAt(PlacePrev(prev, b, s), PlaceNext(prev, next, b, s), L.PlaceBefore(b, s), x)
  {
    Neighbours(prev, next, L, b);
    Neighbours(prev, next, L, s);
    Neighbours(prev, next, L, x);
    assert L.PlaceBefore(b, s).Placed(x);
    PlaceBeforeLinkedAt(prev, next, L, b, s, x);
  }

  lemma PlaceBeforeLinkedAt(prev: Words, next: Words, L: Lists, b: Slot, s: Slot, x: Slot)
    requires Near(prev, next, L, b) && Near(prev, next, L, s) && L.Alone(s) && b != s
    requires Near(prev, next, L, x) && L.at.Keys == L.on.Keys && (forall n :: n in L.seqs ==> n < L.limit)
    requires L.PlaceBefore(b, s).Placed(x)
    ensures LinkedAt(PlacePrev(prev, b, s), PlaceNext(prev, next, b, s), L.PlaceBefore(b, s), x)
  {
  }

  /** The words `replace` leaves. */
  function SwapPrev(prev: Words, next: Words, d: Slot, s: Slot): (r: Words)
    requires s in prev && s in next
  {
    var q := if prev[s] != NULL then prev[d := prev[s]][s := NULL] else prev;
    if next[s] != NULL then q[next[s] := d] else q
  }

  function SwapNext(prev: Words, next: Words, d: Slot, s: Slot): (r: Words)
    requires s in prev && s in next
  {
    var q := if prev[s] != NULL then next[prev[s] := d] else next;
    if next[s] != NULL then q[d := next[s]][s := NULL] else q
  }

  lemma SubstituteLinked(prev: Words, next: Words, L: Lists, d: Slot, s: Slot)
    requires Linked(prev, next, L) && d in L.on && s in L.on && L.Alone(d) && d != s
    ensures Linked(SwapPrev(prev, next, d, s), SwapNext(prev, next, d, s), L.Substitute(d, s))
  {
    SubstituteOk(L, d, s);
    forall x | x in L.on
      ensures LinkedAt(SwapPrev(prev, next, d, s), SwapNext(prev, next, d, s), L.Substitute(d, s), x)
    {
      SubstituteHere(prev, next, L, d, s, x);
    }
  }

  lemma SubstituteHere(prev: Words, next: Words, L: Lists, d: Slot, s: Slot, x: Slot)
    requires Linked(prev, next, L) && d in L.on && s in L.on && L.Alone(d) && d != s
    requires x in L.on && L.Substitute(d, s).Ok()
    ensures LinkedAt(SwapPrev(prev, next, d, s), SwapNext(prev, next, d, s), L.Substitute(d, s), x)
  {
    Neighbours(prev, next, L, d);
    Neighbours(prev, next, L, s);
    Neighbours(prev, next, L, x);
    assert L.Substitute(d, s).Placed(x);
    SubstituteLinkedAt(prev, next, L, d, s, x);
  }

  lemma SubstituteLinkedAt(prev: Words, next: Words, L: Lists, d: Slot, s: Slot, x: Slot)
    requires Near(prev, next, L, d) && Near(prev, next, L, s) && L.Alone(d) && d != s
    requires Near(prev, next, L, x) && L.at.Keys == L.on.Keys && (forall n :: n in L.seqs ==> n < L.limit)
    requires L.Substitute(d, s).Placed(x)
    ensures LinkedAt(SwapPrev(prev, next, d, s), SwapNext(prev, next, d, s), L.Substitute(d, s), x)
  {
  }
}
