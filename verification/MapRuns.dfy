/**
 Runs of the mapping operations in which only tables with nothing in them are mapped: tables hang where they say
 throughout.
 */
module MapRuns {
  import opened Capability
  import opened Paging
  import opened PagingRuns
  import opened Translation
  import opened MapEffects

  /** A table that gets mapped has nothing mapped in it, itself included. */
  ghost predicate Orderly(h: History, op: Op) {
    && Legal(h, op)
    && (op.MapTableOp? && MapTable(h.s, op.t, op.i, op.c).1 ==>
          NothingIn(h.s, h.s.caps[op.c].table) && op.c != op.t)
  }

  /** The kernel's tables are among the frames that were ever used. */
  ghost predicate TreeKnown(h: History, kernel: set<nat>) {
    Tree(h.s, kernel) && Known(h) && kernel <= h.seen
  }

  lemma ForgetTree(s: State, kernel: set<nat>, c: Id)
    requires Tree(s, kernel) && c in s.caps && !Hung(s.caps[c])
    ensures Tree(s.(caps := s.caps - {c}), kernel)
  {
    Forget(s, c);
    var r := s.(caps := s.caps - {c});
    forall t, d ensures TreeAt(r, t, d) { assert TreeAt(s, t, d); }
    forall k, i | k in kernel ensures KernelEntry(r, kernel, k, i) { assert KernelEntry(s, kernel, k, i); }
    forall t, i: nat | t in r.caps && r.caps[t].Table? && i < ENTRIES && !UserHalf(r.caps[t], i)
      ensures KernelEntry(r, kernel, r.caps[t].table, i)
    {
      assert KernelEntry(s, kernel, s.caps[t].table, i);
    }
  }

  lemma DestroyTree(s: State, kernel: set<nat>, c: Id)
    requires Tree(s, kernel) && c in s.caps
    ensures Tree(Destroy(s, c), kernel)
  {
    if Hung(s.caps[c]) {
      DetachTree(s, kernel, c);
      ForgetTree(Detach(s, c), kernel, c);
      assert Detach(s, c).caps - {c} == s.caps - {c};
    } else {
      ForgetTree(s, kernel, c);
    }
  }

  lemma NewTableTree(s: State, kernel: set<nat>, c: Id, frame: nat)
    requires Tree(s, kernel) && NewFrame(s, c, frame) && !Haunted(s, frame) && frame !in kernel
    ensures Tree(CreateTable(s, c, frame), kernel)
  {
    CreateTableKeeps(s, c, frame);
    var r := CreateTable(s, c, frame);
    forall t, d ensures TreeAt(r, t, d) { assert TreeAt(s, t, d); }
    forall k, i | k in kernel ensures KernelEntry(r, kernel, k, i) { assert KernelEntry(s, kernel, k, i); }
    forall t, i: nat | t in r.caps && r.caps[t].Table? && i < ENTRIES && !UserHalf(r.caps[t], i)
      ensures KernelEntry(r, kernel, r.caps[t].table, i)
    {
      if t == c { WholeTable(r.caps[c], i); } else { assert KernelEntry(s, kernel, s.caps[t].table, i); }
    }
  }

  lemma NewPageTree(s: State, kernel: set<nat>, c: Id, frame: nat, level: nat)
    requires Tree(s, kernel) && NewFrame(s, c, frame) && level <= MAX_LEVEL
    ensures Tree(CreatePage(s, c, frame, level), kernel)
  {
    CreatePageKeeps(s, c, frame, level);
    var r := CreatePage(s, c, frame, level);
    forall t, d ensures TreeAt(r, t, d) { assert TreeAt(s, t, d); }
    forall k, i | k in kernel ensures KernelEntry(r, kernel, k, i) { assert KernelEntry(s, kernel, k, i); }
    forall t, i: nat | t in r.caps && r.caps[t].Table? && i < ENTRIES && !UserHalf(r.caps[t], i)
      ensures KernelEntry(r, kernel, r.caps[t].table, i)
    {
      assert KernelEntry(s, kernel, s.caps[t].table, i);
    }
  }

  lemma NewRootTree(s: State, kernel: set<nat>, c: Id, fill: map<nat, Pte>)
    requires Tree(s, kernel) && c in s.caps && s.caps[c].Table? && !s.caps[c].mapped && KernelFill(fill)
    requires !Haunted(s, s.caps[c].table)
    ensures Tree(MakeRoot(s, c, fill), kernel)
  {
    MakeRootKeeps(s, c, fill);
    var r := MakeRoot(s, c, fill);
    forall t, d ensures TreeAt(r, t, d) { assert TreeAt(s, t, d) && OneFrame(s, c, t); }
    forall k, i | k in kernel ensures KernelEntry(r, kernel, k, i) {
      assert KernelEntry(s, kernel, k, i);
      RootEntries(s, c, fill, k, i);
    }
    forall t, i: nat | t in r.caps && r.caps[t].Table? && i < ENTRIES && !UserHalf(r.caps[t], i)
      ensures KernelEntry(r, kernel, r.caps[t].table, i)
    {
      RootEntries(s, c, fill, s.caps[t].table, i);
      assert OneFrame(s, c, t) && (t != c ==> KernelEntry(s, kernel, s.caps[t].table, i));
    }
  }

  lemma StepTree(h: History, kernel: set<nat>, op: Op)
    requires TreeKnown(h, kernel) && Orderly(h, op)
    ensures TreeKnown(Step(h, op), kernel)
  {
    hide Tree, Known, Inv;
    TreeInv(h, kernel);
    StepKeeps(h, op);
    StepTrees(h, kernel, op);
  }

  lemma TreeInv(h: History, kernel: set<nat>)
    requires TreeKnown(h, kernel)
    ensures Inv(h.s) && Known(h)
  {
  }

  lemma StepTrees(h: History, kernel: set<nat>, op: Op)
    requires TreeKnown(h, kernel) && Orderly(h, op)
    ensures Tree(Step(h, op).s, kernel)
  {
    hide Known, Inv, CreateTable, CreatePage, KernelTables, Haunted, NewFrame;
    TreeInv(h, kernel);
    var s := h.s;
    match op
    case MapTableOp(t, i, c) => if MapTable(s, t, i, c).1 { MapTableTree(s, kernel, t, i, c); }
    case UnmapTableOp(t, i, c) =>
      UnmapTableKeeps(s, t, i, c);
      if UnmapTable(s, t, i, c).1 { DetachTree(s, kernel, c); }
    case MapPageOp(t, i, c, rights) => if MapPage(s, t, i, c, rights).1 { MapPageTree(s, kernel, t, i, c, rights); }
    case UnmapPageOp(t, i, c) =>
      if UnmapPage(s, t, i, c).1 {
        UnmapPageExact(s, t, i, c);
        DetachTree(s, kernel, c);
      }
    case RemapPageOp(t, i, c, rights, o) =>
      RemapPageKeeps(s, t, i, c, rights, o);
      if RemapPage(s, t, i, c, rights, o).1 {
        DetachTree(s, kernel, c);
        MapPageTree(Detach(s, c), kernel, t, i, c, rights);
      }
    case DestroyOp(c) => DestroyTree(s, kernel, c);
    case NewTableOp(c, frame) =>
      UnseenClean(h, c, frame);
      NewTableTree(s, kernel, c, frame);
    case NewPageOp(c, frame, level) =>
      UnseenClean(h, c, frame);
      NewPageTree(s, kernel, c, frame, level);
    case NewRootOp(c, fill) => NewRootTree(s, kernel, c, fill);
  }

  ghost predicate OrderlyRun(h: History, ops: seq<Op>)
    decreases |ops|
  {
    ops == [] || (Orderly(h, ops[0]) && OrderlyRun(Step(h, ops[0]), ops[1..]))
  }

  lemma {:induction false} OrderlyIsLegal(h: History, ops: seq<Op>)
    requires OrderlyRun(h, ops)
    ensures LegalRun(h, ops)
    decreases |ops|
  {
    if ops != [] { OrderlyIsLegal(Step(h, ops[0]), ops[1..]); }
  }

  lemma {:induction false} RunTree(h: History, kernel: set<nat>, ops: seq<Op>)
    requires TreeKnown(h, kernel) && OrderlyRun(h, ops) && LegalRun(h, ops)
    ensures TreeKnown(Run(h, ops), kernel)
    decreases |ops|
  {
    if ops != [] {
      StepTree(h, kernel, ops[0]);
      RunTree(Step(h, ops[0]), kernel, ops[1..]);
    }
  }

  /** At boot the kernel's tables are reached through the root's kernel half only, and lead nowhere else. */
  ghost predicate BootedTree(h: History, root: Id, kernel: set<nat>) {
    Booted(h, root) && KernelTables(h.s, kernel) && kernel <= h.seen
  }

  /**
   After every orderly run from boot, the tables hang at their recorded addresses, so that the effects of mapping,
   unmapping and remapping on translation are exact from then on, too.
   */
  lemma TreeFromBoot(h: History, root: Id, kernel: set<nat>, ops: seq<Op>)
    requires BootedTree(h, root, kernel) && OrderlyRun(h, ops)
    ensures LegalRun(h, ops) && Tree(Run(h, ops).s, kernel)
  {
    BootKeeps(h, root);
    forall t, c ensures TreeAt(h.s, t, c) { assert UserHung(h.s, t, c); }
    OrderlyIsLegal(h, ops);
    RunTree(h, kernel, ops);
  }
}
