/**
 Runs of the capability system: which capability after a run is which before it, that no memory is given
 out twice, and that objects stay aligned.
 */
module CapTracks {
  import opened SlotLinks
  import opened Capability
  import opened Carving
  import opened Derivation
  import opened Lineage
  import opened CapOps
  import opened CapMoves
  import opened CapCreate
  import opened CapRuns

  // ---------------------------------------------------------------- one capability over a run

  /** The slot that the step filled with something new, or null. */
  ghost function MadeBy(k: Kernel, op: Op): (d: Slot)
    requires Legal(k, op)
  {
    NewSlot(op, Step(k, op).1)
  }

  /** For each slot after a run, the slot that had its capability before the run, if any had. */
  ghost function RunOrigin(k: Kernel, ops: seq<Op>): (g: map<Slot, Slot>)
    requires LegalRun(k, ops)
    decreases |ops|
  {
    if ops == [] then Identity(k)
    else Compose(RunOrigin(Step(k, ops[0]).0, ops[1..]), Origin(k, ops[0]) - {MadeBy(k, ops[0])})
  }

  /** The capability that `x` holds after the run was made during the run. */
  ghost predicate MadeIn(k: Kernel, ops: seq<Op>, x: Slot)
    requires LegalRun(k, ops)
    decreases |ops|
  {
    && ops != []
    && var m, g := Step(k, ops[0]).0, RunOrigin(Step(k, ops[0]).0, ops[1..]);
       if x in g then g[x] == MadeBy(k, ops[0]) else MadeIn(m, ops[1..], x)
  }

  /** After a run, `x` holds what its origin had, with no less of it given out, or something made during the run. */
  ghost predicate RunTrackAt(k: Kernel, ops: seq<Op>, x: Slot)
    requires LegalRun(k, ops)
  {
    var r, g := Run(k, ops), RunOrigin(k, ops);
    Holding(r, x) ==> if x in g then TrackAt(k, r, g, x) else MadeIn(k, ops, x)
  }

  lemma {:induction false} RunTracks(k: Kernel, ops: seq<Op>, x: Slot)
    requires LegalRun(k, ops)
    ensures RunTrackAt(k, ops, x)
    decreases |ops|
  {
    if ops != [] {
      var m, h, d := Step(k, ops[0]).0, Origin(k, ops[0]), MadeBy(k, ops[0]);
      var r, g := Run(m, ops[1..]), RunOrigin(m, ops[1..]);
      RunTracks(m, ops[1..], x);
      StepConduct(k, ops[0]);
      if Holding(r, x) && x in g { RunTrackOne(k, m, r, h, d, g, x); }
    }
  }

  lemma RunTrackOne(k: State, m: State, r: State, h: map<Slot, Slot>, d: Slot, g: map<Slot, Slot>, x: Slot)
    requires Tracks(k, m, d, h) && Holding(r, x) && TrackAt(m, r, g, x)
    ensures g[x] != d ==> x in Compose(g, h - {d}) && TrackAt(k, r, Compose(g, h - {d}), x)
    ensures g[x] == d ==> x !in Compose(g, h - {d})
  {
    assert Holding(m, g[x]);
    if g[x] != d { assert TrackAt(k, m, h, g[x]); }
  }

  /**
   Over every run, a memory capability that was held before it is the same memory, and no less of it is given
   out, through every transfer, delegation, revocation and creation.
   */
  lemma UsedNeverFalls(k: Kernel, ops: seq<Op>, x: Slot)
    requires LegalRun(k, ops) && MemAt(Run(k, ops), x)
    ensures
      var r, g := Run(k, ops), RunOrigin(k, ops);
      if x in g then g[x] in k.cap && Grew(k.cap[g[x]], r.cap[x]) else MadeIn(k, ops, x)
  {
    RunTracks(k, ops, x);
  }

  /** And no two of them are one capability of before. */
  lemma {:induction false} OriginsApart(k: Kernel, ops: seq<Op>, x: Slot, y: Slot)
    requires LegalRun(k, ops) && MemAt(Run(k, ops), x) && MemAt(Run(k, ops), y) && x != y
    requires x in RunOrigin(k, ops) && y in RunOrigin(k, ops)
    ensures RunOrigin(k, ops)[x] != RunOrigin(k, ops)[y]
    decreases |ops|
  {
    hide Step, Origin, MadeBy, Tracks, Legal, Inv, NewSlot;
    if ops != [] {
      var m, h, d := Step(k, ops[0]).0, Origin(k, ops[0]), MadeBy(k, ops[0]);
      var g := RunOrigin(m, ops[1..]);
      OriginsApart(m, ops[1..], x, y);
      RunTracks(m, ops[1..], x);
      RunTracks(m, ops[1..], y);
      MadeConduct(k, ops[0]);
      TwoOrigins(k, m, Run(m, ops[1..]), d, h, g, x, y);
    }
  }

  lemma MadeConduct(k: Kernel, op: Op)
    requires Legal(k, op)
    ensures Tracks(k, Step(k, op).0, MadeBy(k, op), Origin(k, op))
  {
    StepConduct(k, op);
  }

  lemma TwoOrigins(k: State, m: State, r: State, d: Slot, h: map<Slot, Slot>, g: map<Slot, Slot>, x: Slot, y: Slot)
    requires Tracks(k, m, d, h) && MemAt(r, x) && MemAt(r, y) && x in g && y in g && g[x] != g[y]
    requires TrackAt(m, r, g, x) && TrackAt(m, r, g, y) && x in Compose(g, h - {d}) && y in Compose(g, h - {d})
    ensures Compose(g, h - {d})[x] != Compose(g, h - {d})[y]
  {
    assert TrackTwo(m, d, h, g[x], g[y]);
  }

  // ---------------------------------------------------------------- memory is given out once

  /** A created object overlaps nothing that was ever destroyed, and nothing held but what it was carved from. */
  lemma CarvedOnce(k: Kernel, t: Task, s: Slot, kind: Kind, i: nat)
    requires Legal(k, CreateObject(t, s, kind)) && Create(k, t, s, kind).1.Done?
    requires i < |k.destroyed| && Placed(k.destroyed[i])
    ensures
      var r, d := Create(k, t, s, kind).0, k.free[t];
      && d in r.cap && Placed(r.cap[d]) && Apart(k.destroyed[i], r.cap[d])
  {
    hide Grown, Create, Partitioned, ZombiesOk, Lawful, DeadApart;
    CreateCarves(k, t, s, kind);
    assert DeadApart(k.destroyed[i], k.cap[s]);
    ApartFromDead(k.destroyed[i], k.cap[s], Create(k, t, s, kind).0.cap[s], Create(k, t, s, kind).0.cap[k.free[t]],
      kind);
  }

  lemma ApartFromDead(d: Cap, c: Cap, e: Cap, n: Cap, kind: Kind)
    requires Placed(d) && DeadApart(d, c) && CarvedOut(c, e, n, kind)
    ensures Apart(d, n)
  {
  }

  // ---------------------------------------------------------------- alignment

  /** Tasks, endpoints, page tables, pages and capability spaces lie at multiples of their size. */
  predicate Natural(c: Cap) { Placed(c) && !c.MemCap? ==> Lo(c) % Size(c) == 0 }

  ghost predicate AllNatural(k: State) { forall x :: x in k.cap ==> Natural(k.cap[x]) }

  lemma StepNatural(k: Kernel, op: Op)
    requires Legal(k, op) && AllNatural(k) && (op.Boot? ==> Natural(op.c))
    ensures AllNatural(Step(k, op).0)
  {
    hide Step, Origin, MadeBy, Tracks, AllNatural, Natural, Legal, Inv;
    MadeConduct(k, op);
    if MadeBy(k, op) != NULL { NewNatural(k, op); }
    NoNull(Step(k, op).0);
    TracksNatural(k, Step(k, op).0, MadeBy(k, op), Origin(k, op));
  }

  lemma NoNull(k: Kernel)
    ensures NULL !in k.cap
  {
    NoNullSlot(k);
  }

  lemma TracksNatural(k: State, r: State, d: Slot, g: map<Slot, Slot>)
    requires Tracks(k, r, d, g) && AllNatural(k) && (d in r.cap ==> Natural(r.cap[d]))
    ensures AllNatural(r)
  {
    forall x | x in r.cap ensures Natural(r.cap[x]) {
      if Holding(r, x) && x != d { assert TrackAt(k, r, g, x); }
    }
  }

  lemma NewNatural(k: Kernel, op: Op)
    requires Legal(k, op) && MadeBy(k, op) != NULL && (op.Boot? ==> Natural(op.c))
    ensures var r := Step(k, op).0; MadeBy(k, op) in r.cap && Natural(r.cap[MadeBy(k, op)])
  {
    match op
    case CreateObject(t, s, kind) =>
      CreateCarves(k, t, s, kind);
      CarvedNatural(k, t, s, kind);
    case Boot(t, c) => InsertConduct(k, t, c);
    case NewId(t, v1, v2, v3) => InsertConduct(k, t, IdCap(v1, v2, v3));
    case _ =>
  }

  lemma CarvedNatural(k: Kernel, t: Task, s: Slot, kind: Kind)
    requires s in k.cap && Create(k, t, s, kind).1.Done? && CanTake(k, t)
    requires MadeFrom(k, s, k.free[t], kind, Create(k, t, s, kind).0)
    ensures var r := Create(k, t, s, kind).0; k.free[t] in r.cap && Natural(r.cap[k.free[t]])
  {
    hide Grown;
  }

  /** In every run whose boot-time capabilities are aligned, everything held is. */
  lemma {:induction false} RunNatural(k: Kernel, ops: seq<Op>)
    requires LegalRun(k, ops) && AllNatural(k)
    requires forall i :: 0 <= i < |ops| && ops[i].Boot? ==> Natural(ops[i].c)
    ensures AllNatural(Run(k, ops))
    decreases |ops|
  {
    if ops != [] {
      StepNatural(k, ops[0]);
      assert forall i :: 0 <= i < |ops| - 1 ==> ops[1..][i] == ops[i + 1];
      RunNatural(Step(k, ops[0]).0, ops[1..]);
    }
  }

  // ---------------------------------------------------------------- operations that halt

  /** `copy_cap` trips an assertion exactly on a task or endpoint whose owner is killed or has no free slot. */
  lemma CopyHalts(k: Kernel, s: Slot)
    requires s in k.cap
    ensures s in k.owner && (Copy(k, s).1.Halted? <==> Shared(k.cap[s]) && !CanTake(k, k.owner[s]))
  {
    assert SlotOk(k, NULL, s);
  }

  /**
   Delegating memory that is not last on its list and has no zombie before it, and then destroying the slot it was
   delegated from, trips an assertion.
   */
  lemma DelegateThenDestroyHalts(k: Kernel, t: Task, s: Slot)
    requires MemAt(k, s) && s in k.lists.on && !Last(k, s) && !ZombieBefore(k, s)
    requires CanTake(k, t) && s in k.owner && k.owner[s] !in k.killed
    ensures
      var r := Delegate(k, t, s);
      r.1 == Done(k.free[t]) && s in r.0.cap && Destroy(r.0, s).1.Halted?
  {
    DelegateKeeps(k, t, s);
    var d, r := k.free[t], Delegated(k, t, s);
    NextAfter(k, s, d, r);
    StillNoZombie(k, s, d, r);
    DestroyHalts(r, s);
  }

  /** The zombie stands for the new slot, which is not last. */
  lemma NextAfter(k: State, s: Slot, d: Slot, r: State)
    requires Inv(k) && Inv(r) && Holding(k, s) && Grown(k, s, d, r) && s in k.lists.on && !Last(k, s)
    requires Capped(k, k.cap[s], s, d, ZombieCap, r)
    ensures s in r.lists.on && Resolve(r, s) == d && d in r.lists.on && !Last(r, d)
  {
    ResolveBehind(r, s);
    var q := Resolve(r, s);
    assert OrderGrown(k, s, d, r, s, d) && OrderGrown(k, s, d, r, q, d) && OrderGrown(k, s, d, r, d, q);
    assert OrderGrown(k, s, d, r, s, q) && SlotOk(r, NULL, q) && SlotOk(r, NULL, d);
    Same(r.lists, q, d);
    Behind(k, s, NULL);
    var n := k.lists.Next(s);
    assert OrderGrown(k, s, d, r, d, n) && SlotOk(r, NULL, n);
  }

  lemma StillNoZombie(k: State, s: Slot, d: Slot, r: State)
    requires Inv(k) && Inv(r) && Holding(k, s) && Grown(k, s, d, r) && s in k.lists.on && !ZombieBefore(k, s)
    requires Capped(k, k.cap[s], s, d, ZombieCap, r)
    ensures s in r.lists.on && !ZombieBefore(r, s)
  {
    assert SlotOk(r, NULL, s) && Occupied(r, s);
    Backward(k.lists, s);
    Backward(r.lists, s);
    var p, q := r.lists.Prev(s), k.lists.Prev(s);
    if p != NULL {
      PrevOccupied(r, s);
      assert OrderGrown(k, s, d, r, p, s) && OrderGrown(k, s, d, r, s, d);
      assert p != d && CapKept(k, r, p);
      PrevOccupied(k, s);
      assert OrderGrown(k, s, d, r, q, s) && OrderGrown(k, s, d, r, p, q);
      Same(k.lists, p, q);
    }
  }
}
