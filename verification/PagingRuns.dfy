/**
 Runs of the mapping operations, and the operations as methods on page tables and capabilities that change in place.
 */
module PagingRuns {
  import opened Arith
  import opened Capability
  import opened Paging

  // ---------------------------------------------------------------- new objects

  /** What `create_page_table_object` leaves: a zeroed table, mapped nowhere. */
  function CreateTable(s: State, c: Id, frame: nat): (r: State) {
    State(s.caps[c := Table(frame, false, 0, 0, NO_TABLE)], map e | e in s.ptes && e.0 != frame :: s.ptes[e])
  }

  function CreatePage(s: State, c: Id, frame: nat, level: nat): (r: State) {
    PutCap(s, c, Page(frame, false, level, 0, 0, NO_TABLE, Rights(false, false, false)))
  }

  predicate NewFrame(s: State, c: Id, frame: nat) {
    c !in s.caps && frame % PAGE_SIZE == 0 && frame != NO_TABLE && forall d :: d in s.caps ==> Frame(s.caps[d]) != frame
  }

  /** A table that was here before still has capabilities mapped in it. */
  ghost predicate Haunted(s: State, frame: nat) {
    exists d :: d in s.caps && s.caps[d].parent == frame
  }

  /**
   Making a table keeps the correspondence exactly when nothing is still mapped in an earlier table at its address.
   */
  lemma CreateTableExact(s: State, c: Id, frame: nat)
    requires Inv(s) && NewFrame(s, c, frame)
    ensures Inv(CreateTable(s, c, frame)) <==> !Haunted(s, frame)
    ensures var k := CreateTable(s, c, frame).caps[c]; k.Table? && !Hung(k) && !k.mapped && k.table == frame
  {
    var r := CreateTable(s, c, frame);
    forall i: nat ensures !EntryAt(r, frame, i).on { }
    if Haunted(s, frame) {
      var d :| d in s.caps && s.caps[d].parent == frame;
      assert d in r.caps && r.caps[d] == s.caps[d] && !HungOk(r, r.caps[d]);
    } else {
      CreateTableKeeps(s, c, frame);
    }
  }

  lemma CreateTableKeeps(s: State, c: Id, frame: nat)
    requires Inv(s) && NewFrame(s, c, frame) && !Haunted(s, frame)
    ensures Inv(CreateTable(s, c, frame))
  {
    var r := CreateTable(s, c, frame);
    forall d | d in r.caps ensures CapOk(r.caps[d]) && HungOk(r, r.caps[d]) {
      if d != c { assert HungOk(s, s.caps[d]); }
    }
    forall d, e ensures OneFrame(r, d, e) { assert OneFrame(s, d, e); }
    forall t, d ensures UserHung(r, t, d) { assert UserHung(s, t, d); }
    forall t, i ensures EntryOk(r, t, i) {
      assert EntryOk(s, t, i);
      if t in s.caps && t != c && s.caps[t].Table? && Covered(s, s.caps[t].table, i) {
        var d :| d in s.caps && HangsAt(s.caps[d], s.caps[t].table, i);
        assert d in r.caps && HangsAt(r.caps[d], r.caps[t].table, i);
      }
    }
  }

  lemma CreatePageKeeps(s: State, c: Id, frame: nat, level: nat)
    requires Inv(s) && NewFrame(s, c, frame) && level <= MAX_LEVEL
    ensures Inv(CreatePage(s, c, frame, level))
    ensures var k := CreatePage(s, c, frame, level).caps[c]; k.Page? && !Hung(k) && k.frame == frame && k.level == level
  {
    var r := CreatePage(s, c, frame, level);
    forall d | d in r.caps ensures CapOk(r.caps[d]) && HungOk(r, r.caps[d]) {
      if d != c { assert HungOk(s, s.caps[d]); }
    }
    forall d, e ensures OneFrame(r, d, e) { assert OneFrame(s, d, e); }
    forall t, d ensures UserHung(r, t, d) { assert UserHung(s, t, d); }
    forall t, i ensures EntryOk(r, t, i) {
      assert EntryOk(s, t, i);
      if t in s.caps && t != c && s.caps[t].Table? && Covered(s, s.caps[t].table, i) {
        var d :| d in s.caps && HangsAt(s.caps[d], s.caps[t].table, i);
        assert d in r.caps && HangsAt(r.caps[d], r.caps[t].table, i);
      }
    }
  }

  // ---------------------------------------------------------------- new address spaces

  /**
   The kernel half that `init_task` gives a root table: no entry of it is a user's, or leads to another table in a
   user's walk.
   */
  predicate KernelFill(fill: map<nat, Pte>) {
    forall i :: i in fill ==>
      KERNEL_SPACE_BASE / PageSize(MAX_LEVEL) <= i < ENTRIES && !fill[i].user && !IsTable(fill[i])
  }

  /**
   What `create_task_object` and `init_task` make of an unmapped page table: a zeroed root with the kernel's half
   filled.
   */
  function MakeRoot(s: State, c: Id, fill: map<nat, Pte>): (r: State)
    requires c in s.caps && s.caps[c].Table?
  {
    var t := s.caps[c].table;
    State(s.caps[c := Table(t, true, MAX_LEVEL, 0, NO_TABLE)],
          (map e | e in s.ptes && e.0 != t :: s.ptes[e]) + (map i | i in fill :: (t, i) := fill[i]))
  }

  lemma RootEntries(s: State, c: Id, fill: map<nat, Pte>, t: nat, i: nat)
    requires c in s.caps && s.caps[c].Table?
    ensures EntryAt(MakeRoot(s, c, fill), t, i) ==
      if t != s.caps[c].table then EntryAt(s, t, i) else if i in fill then fill[i] else OFF
  {
    var r, filled := MakeRoot(s, c, fill), map i | i in fill :: (s.caps[c].table, i) := fill[i];
    assert (t, i) in filled <==> t == s.caps[c].table && i in fill;
  }

  /** Making a root keeps the correspondence exactly when nothing is mapped in the table, which is zeroed. */
  lemma MakeRootExact(s: State, c: Id, fill: map<nat, Pte>)
    requires Inv(s) && c in s.caps && s.caps[c].Table? && !s.caps[c].mapped && KernelFill(fill)
    ensures Inv(MakeRoot(s, c, fill)) <==> !Haunted(s, s.caps[c].table)
  {
    if Haunted(s, s.caps[c].table) {
      var d :| d in s.caps && s.caps[d].parent == s.caps[c].table;
      RootBreaks(s, c, fill, d);
    } else {
      MakeRootKeeps(s, c, fill);
    }
  }

  lemma RootBreaks(s: State, c: Id, fill: map<nat, Pte>, d: Id)
    requires Inv(s) && c in s.caps && s.caps[c].Table? && !s.caps[c].mapped && KernelFill(fill)
    requires d in s.caps && s.caps[d].parent == s.caps[c].table
    ensures !Inv(MakeRoot(s, c, fill))
  {
    hide PageSize, UserHalf;
    var r := MakeRoot(s, c, fill);
    RootEntries(s, c, fill, s.caps[c].table, SlotOf(s.caps[d]));
    assert d != c && r.caps[d] == s.caps[d] && !HungOk(r, r.caps[d]);
  }

  lemma MakeRootKeeps(s: State, c: Id, fill: map<nat, Pte>)
    requires Inv(s) && c in s.caps && s.caps[c].Table? && !s.caps[c].mapped && KernelFill(fill)
    requires !Haunted(s, s.caps[c].table)
    ensures Inv(MakeRoot(s, c, fill))
  {
    var r, t := MakeRoot(s, c, fill), s.caps[c].table;
    forall d | d in r.caps ensures CapOk(r.caps[d]) && HungOk(r, r.caps[d]) { RootCap(s, c, fill, d); }
    forall d, e ensures OneFrame(r, d, e) { assert OneFrame(s, d, e); }
    forall u, d ensures UserHung(r, u, d) { assert UserHung(s, u, d) && OneFrame(s, c, u); }
    forall u, i: nat ensures EntryOk(r, u, i) { RootEntry(s, c, fill, u, i); }
  }

  lemma RootCap(s: State, c: Id, fill: map<nat, Pte>, d: Id)
    requires Inv(s) && c in s.caps && s.caps[c].Table? && !s.caps[c].mapped && d in s.caps
    requires !Haunted(s, s.caps[c].table)
    ensures
      var r := MakeRoot(s, c, fill);
      d in r.caps && CapOk(r.caps[d]) && HungOk(r, r.caps[d])
  {
    if d != c {
      assert HungOk(s, s.caps[d]);
      RootEntries(s, c, fill, s.caps[d].parent, SlotOf(s.caps[d]));
    }
  }

  lemma RootEntry(s: State, c: Id, fill: map<nat, Pte>, u: Id, i: nat)
    requires Inv(s) && c in s.caps && s.caps[c].Table? && !s.caps[c].mapped && KernelFill(fill)
    requires !Haunted(s, s.caps[c].table)
    ensures EntryOk(MakeRoot(s, c, fill), u, i)
  {
    var r := MakeRoot(s, c, fill);
    assert PageSize(0) == 0x1000 && PageSize(1) == 0x20_0000 && PageSize(2) == 0x4000_0000;
    if u in s.caps && s.caps[u].Table? {
      RootEntries(s, c, fill, s.caps[u].table, i);
      assert OneFrame(s, c, u) && EntryOk(s, u, i);
      if u != c && Covered(s, s.caps[u].table, i) {
        var d :| d in s.caps && HangsAt(s.caps[d], s.caps[u].table, i);
        assert d != c && d in r.caps && HangsAt(r.caps[d], r.caps[u].table, i);
      }
    }
  }

  /** A page mapped in a table that then becomes a root can no longer be destroyed: its entry is gone. */
  lemma RootForgets(s: State, t: Id, i: nat, c: Id, rights: Rights, fill: map<nat, Pte>)
    requires Inv(s) && t in s.caps && s.caps[t].Table? && !s.caps[t].mapped && MapPage(s, t, i, c, rights).1
    requires KernelFill(fill)
    requires i !in fill
    ensures
      var m := MapPage(s, t, i, c, rights).0;
      t in m.caps && m.caps[t].Table? && !m.caps[t].mapped && c in m.caps && !Destroyable(MakeRoot(m, t, fill), c)
  {
    var m := MapPage(s, t, i, c, rights).0;
    IndexOfEntry(s.caps[t].base, s.caps[t].level, i);
    RootEntries(m, t, fill, s.caps[t].table, i);
  }

  // ---------------------------------------------------------------- runs

  /** The page tables, and history: the frames that any object was ever at. */
  datatype History = History(s: State, seen: set<nat>)

  ghost predicate Known(h: History) {
    forall c :: c in h.s.caps ==> Frame(h.s.caps[c]) in h.seen && (Hung(h.s.caps[c]) ==> h.s.caps[c].parent in h.seen)
  }

  datatype Op =
    | MapTableOp(t: Id, i: nat, c: Id)
    | UnmapTableOp(t: Id, i: nat, c: Id)
    | MapPageOp(t: Id, i: nat, c: Id, rights: Rights)
    | UnmapPageOp(t: Id, i: nat, c: Id)
    | RemapPageOp(t: Id, i: nat, c: Id, rights: Rights, o: Id)
    | DestroyOp(c: Id)
    | NewTableOp(c: Id, frame: nat)
    | NewPageOp(c: Id, frame: nat, level: nat)
    | NewRootOp(c: Id, fill: map<nat, Pte>)

  predicate IsTableId(s: State, t: Id) { t in s.caps && s.caps[t].Table? }

  /** Memory is given out once: a new object is at a frame where none ever was. */
  predicate Unseen(h: History, c: Id, frame: nat) {
    c !in h.s.caps && frame % PAGE_SIZE == 0 && frame != NO_TABLE && frame !in h.seen
  }

  /**
   What callers see to: the slots named are page tables, pages are unmapped from user entries, and new roots have
   nothing in them.
   */
  ghost predicate Legal(h: History, op: Op) {
    match op
    case MapTableOp(t, _, _) => IsTableId(h.s, t)
    case UnmapTableOp(t, _, _) => IsTableId(h.s, t)
    case MapPageOp(t, _, _, _) => IsTableId(h.s, t)
    case UnmapPageOp(t, i, c) =>
      && IsTableId(h.s, t)
      && (UserHalf(h.s.caps[t], i) || (c in h.s.caps && h.s.caps[c].level == h.s.caps[t].level))
    case RemapPageOp(t, _, _, _, _) => IsTableId(h.s, t)
    case DestroyOp(c) => c in h.s.caps
    case NewTableOp(c, frame) => Unseen(h, c, frame)
    case NewPageOp(c, frame, level) => Unseen(h, c, frame) && level <= MAX_LEVEL
    case NewRootOp(c, fill) =>
      IsTableId(h.s, c) && !h.s.caps[c].mapped && KernelFill(fill) && !Haunted(h.s, h.s.caps[c].table)
  }

  ghost function Step(h: History, op: Op): (r: History)
    requires Legal(h, op)
  {
    match op
    case MapTableOp(t, i, c) => h.(s := MapTable(h.s, t, i, c).0)
    case UnmapTableOp(t, i, c) => h.(s := UnmapTable(h.s, t, i, c).0)
    case MapPageOp(t, i, c, rights) => h.(s := MapPage(h.s, t, i, c, rights).0)
    case UnmapPageOp(t, i, c) => h.(s := UnmapPage(h.s, t, i, c).0)
    case RemapPageOp(t, i, c, rights, o) => h.(s := RemapPage(h.s, t, i, c, rights, o).0)
    case DestroyOp(c) => h.(s := Destroy(h.s, c))
    case NewTableOp(c, frame) => History(CreateTable(h.s, c, frame), h.seen + {frame})
    case NewPageOp(c, frame, level) => History(CreatePage(h.s, c, frame, level), h.seen + {frame})
    case NewRootOp(c, fill) => h.(s := MakeRoot(h.s, c, fill))
  }

  /** Where no object ever was, nothing is mapped. */
  lemma UnseenClean(h: History, c: Id, frame: nat)
    requires Known(h) && Unseen(h, c, frame)
    ensures NewFrame(h.s, c, frame) && !Haunted(h.s, frame)
  {
  }

  lemma StepKeeps(h: History, op: Op)
    requires Inv(h.s) && Known(h) && Legal(h, op)
    ensures Inv(Step(h, op).s) && Known(Step(h, op))
  {
    var s := h.s;
    match op
    case MapTableOp(t, i, c) => MapTableKeeps(s, t, i, c);
    case UnmapTableOp(t, i, c) => UnmapTableKeeps(s, t, i, c);
    case MapPageOp(t, i, c, rights) => MapPageKeeps(s, t, i, c, rights);
    case UnmapPageOp(t, i, c) =>
      if UnmapPage(s, t, i, c).1 {
        UnmapPageExact(s, t, i, c);
        DetachKeeps(s, c);
      }
    case RemapPageOp(t, i, c, rights, o) => RemapPageKeeps(s, t, i, c, rights, o);
    case DestroyOp(c) => DestroyKeeps(s, c);
    case NewTableOp(c, frame) =>
      UnseenClean(h, c, frame);
      CreateTableKeeps(s, c, frame);
    case NewPageOp(c, frame, level) =>
      UnseenClean(h, c, frame);
      CreatePageKeeps(s, c, frame, level);
    case NewRootOp(c, fill) => MakeRootKeeps(s, c, fill);
  }

  /** No operation touches the kernel half of a table that survives it. */
  lemma KernelHalfKept(h: History, op: Op, u: Id, j: nat)
    requires Inv(h.s) && Known(h) && Legal(h, op) && IsTableId(h.s, u) && j < ENTRIES && !UserHalf(h.s.caps[u], j)
    ensures EntryAt(Step(h, op).s, h.s.caps[u].table, j) == EntryAt(h.s, h.s.caps[u].table, j)
  {
    var s := h.s;
    match op
    case MapTableOp(t, i, c) => assert OneFrame(s, t, u);
    case UnmapTableOp(t, i, c) => assert OneFrame(s, t, u);
    case MapPageOp(t, i, c, rights) => assert OneFrame(s, t, u);
    case UnmapPageOp(t, i, c) => assert OneFrame(s, t, u);
    case RemapPageOp(t, i, c, rights, o) =>
      assert OneFrame(s, t, u) && OneFrame(s, o, u);
      RemapPageKeeps(s, t, i, c, rights, o);
      if RemapPage(s, t, i, c, rights, o).1 { assert UserHung(s, u, c); }
    case DestroyOp(c) => assert UserHung(s, u, c);
    case NewTableOp(c, frame) =>
    case NewPageOp(c, frame, level) =>
    case NewRootOp(c, fill) =>
      RootEntries(s, c, fill, s.caps[u].table, j);
      assert OneFrame(s, c, u);
      if u == c { WholeTable(s.caps[c], j); }
  }

  /** Runs start with the root task's table: its kernel half is filled, its user half empty. */
  ghost predicate Booted(h: History, root: Id) {
    var s := h.s;
    && s.caps.Keys == {root} && s.caps[root].Table? && s.caps[root].level == MAX_LEVEL && CapOk(s.caps[root])
    && s.caps[root].table in h.seen
    && forall i :: UserHalf(s.caps[root], i) ==> !EntryAt(s, s.caps[root].table, i).on
  }

  lemma BootKeeps(h: History, root: Id)
    requires Booted(h, root)
    ensures Inv(h.s) && Known(h)
  {
  }

  ghost predicate LegalRun(h: History, ops: seq<Op>)
    decreases |ops|
  {
    ops == [] || (Legal(h, ops[0]) && LegalRun(Step(h, ops[0]), ops[1..]))
  }

  ghost function Run(h: History, ops: seq<Op>): (r: History)
    requires LegalRun(h, ops)
    decreases |ops|
  {
    if ops == [] then h else Run(Step(h, ops[0]), ops[1..])
  }

  lemma {:induction false} RunKeeps(h: History, ops: seq<Op>)
    requires Inv(h.s) && Known(h) && LegalRun(h, ops)
    ensures Inv(Run(h, ops).s) && Known(Run(h, ops))
    decreases |ops|
  {
    if ops != [] {
      StepKeeps(h, ops[0]);
      RunKeeps(Step(h, ops[0]), ops[1..]);
    }
  }

  /**
   After any run from boot, mapped capabilities and enabled user entries correspond one to one, with the right
   frames, and destruction of any capability finds the entry it asserts.
   */
  lemma RunCorresponds(h: History, root: Id, ops: seq<Op>)
    requires Booted(h, root) && LegalRun(h, ops)
    ensures Inv(Run(h, ops).s)
    ensures forall c :: c in Run(h, ops).s.caps ==> Destroyable(Run(h, ops).s, c)
  {
    BootKeeps(h, root);
    RunKeeps(h, ops);
    var s := Run(h, ops).s;
    forall c | c in s.caps ensures Destroyable(s, c) { assert HungOk(s, s.caps[c]); }
  }

  // ---------------------------------------------------------------- unmapping a page through a table of another level

  /**
   A root table whose entry 129 maps the kernel's view of physical memory from 1 GiB on, and a mapped 4 KiB page at
   that address.
   */
  function Mismatch(): (s: State) {
    State(map[0 := Table(0x8000_0000, true, 2, 0, NO_TABLE),
              1 := Table(0x8000_1000, true, 1, 0, 0x8000_0000),
              2 := Table(0x8000_2000, true, 0, 0, 0x8000_1000),
              3 := Page(0x4000_0000, true, 0, 5, 0x5000, 0x8000_2000, Rights(true, true, false))],
          map[(0x8000_0000, 129) := Pte(true, Rights(true, true, true), false, true, 0x4000_0000 / PAGE_SIZE),
              (0x8000_0000, 0) := TableEntry(0x8000_1000),
              (0x8000_1000, 0) := TableEntry(0x8000_2000),
              (0x8000_2000, 5) := PageEntry(Rights(true, true, false), 0x4000_0000)])
  }

  /** Unmapping that page from the root table switches off the kernel's entry and leaves the page mapped. */
  lemma MismatchBreaks()
    ensures
      var s := Mismatch();
      && Inv(s) && UnmapPage(s, 0, 129, 3).1
      && var r := UnmapPage(s, 0, 129, 3).0;
         && EntryAt(s, 0x8000_0000, 129).on && !EntryAt(r, 0x8000_0000, 129).on
         && EntryAt(r, 0x8000_2000, 5).on && !r.caps[3].mapped
  {
    assert PageSize(0) == 0x1000;
    MismatchOk();
  }

  lemma MismatchOk()
    ensures Inv(Mismatch())
  {
    hide CapOk, HungOk, UserHung, EntryOk, OneFrame, Mismatch;
    var s := Mismatch();
    forall c, d ensures OneFrame(s, c, d) { MismatchFrames(c, d); }
    forall c | c in s.caps ensures CapOk(s.caps[c]) && HungOk(s, s.caps[c]) { MismatchCap(c); }
    forall t, c ensures UserHung(s, t, c) { MismatchUser(t, c); }
    forall t, i: nat ensures EntryOk(s, t, i) { MismatchEntry(t, i); }
  }

  lemma MismatchFrames(c: Id, d: Id)
    ensures OneFrame(Mismatch(), c, d)
  {
  }

  lemma MismatchCap(c: Id)
    requires c in Mismatch().caps
    ensures CapOk(Mismatch().caps[c]) && HungOk(Mismatch(), Mismatch().caps[c])
  {
    assert PageSize(0) == 0x1000 && PageSize(1) == 0x20_0000 && PageSize(2) == 0x4000_0000;
    assert PageSize(3) == 0x80_0000_0000;
  }

  lemma MismatchUser(t: Id, c: Id)
    ensures UserHung(Mismatch(), t, c)
  {
    assert PageSize(0) == 0x1000 && PageSize(1) == 0x20_0000 && PageSize(2) == 0x4000_0000;
  }

  lemma MismatchEntry(t: Id, i: nat)
    ensures EntryOk(Mismatch(), t, i)
  {
    var s := Mismatch();
    assert PageSize(0) == 0x1000 && PageSize(1) == 0x20_0000 && PageSize(2) == 0x4000_0000;
    if t in s.caps && UserHalf(s.caps[t], i) && EntryAt(s, s.caps[t].table, i).on {
      assert HangsAt(s.caps[t + 1], s.caps[t].table, i);
    }
  }

  // ---------------------------------------------------------------- the operations in place

  /** No capability but `c`, and no entry but the two, changed. */
  ghost predicate OnlyMoved(s: State, r: State, c: Id, e: (nat, nat), f: (nat, nat)) {
    && (forall d :: d != c ==> (d in r.caps <==> d in s.caps) && (d in s.caps ==> r.caps[d] == s.caps[d]))
    && forall t: nat, j: nat :: (t, j) != e && (t, j) != f ==> EntryAt(r, t, j) == EntryAt(s, t, j)
  }

  /**
   The capability `c` is mapped in entry `i` of the table: it records the address of that entry, and the entry is a
   table's or a page's, as `c` is.
   */
  ghost predicate Hangs(s: State, t: MapCap, i: nat, c: Id, r: State) {
    && t.Table? && c in s.caps && c in r.caps && HangsAt(r.caps[c], t.table, i) && r.caps[c].mapped
    && Frame(r.caps[c]) == Frame(s.caps[c]) && (r.caps[c].Table? <==> s.caps[c].Table?)
    && (if r.caps[c].Table? then r.caps[c].base else r.caps[c].address) == t.base + PageSize(t.level) * i
    && (if r.caps[c].Table? then r.caps[c].level + 1 == t.level && Leads(EntryAt(r, t.table, i), Frame(s.caps[c]))
        else r.caps[c].level == s.caps[c].level == t.level)
  }

  /** If it was not refused, the page is mapped with these rights, in the entry as in the capability. */
  ghost predicate Granted(t: MapCap, i: nat, c: Id, rights: Rights, r: State, ok: bool) {
    ok ==>
      && t.Table? && c in r.caps && r.caps[c].Page? && r.caps[c].rights == rights
      && Grants(EntryAt(r, t.table, i), rights, Frame(r.caps[c]))
  }

  /**
   Was refused, and nothing changed; or `c` was a free capability, is now mapped in the free user entry, and nothing
   else changed.
   */
  ghost predicate Mapped(s: State, t: Id, i: nat, c: Id, r: State, ok: bool)
    requires t in s.caps && s.caps[t].Table?
  {
    var T := s.caps[t];
    if !ok then r == s
    else
      && c in s.caps && !s.caps[c].mapped && UserHalf(T, i) && !EntryAt(s, T.table, i).on
      && Hangs(s, T, i, c, r) && OnlyMoved(s, r, c, (T.table, i), (T.table, i))
  }

  /** The entry was switched off, and its other bits were left. */
  predicate Disabled(s: State, r: State, table: nat, i: nat) {
    EntryAt(r, table, i) == EntryAt(s, table, i).(on := false)
  }

  /**
   Was refused, and nothing changed; or the entry that `c` was mapped in is off, `c` is free, and nothing else
   changed.
   */
  ghost predicate TakenOff(s: State, t: Id, i: nat, c: Id, r: State, ok: bool)
    requires t in s.caps && s.caps[t].Table?
  {
    var T := s.caps[t];
    if !ok then r == s
    else
      && c in s.caps && HangsAt(s.caps[c], T.table, i)
      && Disabled(s, r, T.table, i)
      && c in r.caps && r.caps[c] == s.caps[c].(mapped := false, parent := NO_TABLE)
      && OnlyMoved(s, r, c, (T.table, i), (T.table, i))
  }

  lemma MapTableMeans(s: State, t: Id, i: nat, c: Id)
    requires Inv(s) && t in s.caps && s.caps[t].Table?
    ensures var (r, ok) := MapTable(s, t, i, c); Inv(r) && Mapped(s, t, i, c, r, ok)
    ensures MapTable(s, t, i, c).1 <==>
      && c in s.caps && s.caps[c].Table? && !s.caps[c].mapped && s.caps[t].level > 0
      && UserHalf(s.caps[t], i) && !EntryAt(s, s.caps[t].table, i).on
  {
    MapTableKeeps(s, t, i, c);
    if i < ENTRIES { IndexOfEntry(s.caps[t].base, s.caps[t].level, i); }
    if c in s.caps { EntryGrants(Rights(false, false, false), Frame(s.caps[c])); }
  }

  lemma UnmapTableMeans(s: State, t: Id, i: nat, c: Id)
    requires Inv(s) && t in s.caps && s.caps[t].Table?
    ensures var (r, ok) := UnmapTable(s, t, i, c); Inv(r) && TakenOff(s, t, i, c, r, ok)
    ensures UnmapTable(s, t, i, c).1 <==> c in s.caps && s.caps[c].Table? && HangsAt(s.caps[c], s.caps[t].table, i)
  {
    UnmapTableKeeps(s, t, i, c);
    assert UserHung(s, t, c);
  }

  lemma MapPageMeans(s: State, t: Id, i: nat, c: Id, rights: Rights)
    requires Inv(s) && t in s.caps && s.caps[t].Table?
    ensures
      var (r, ok) := MapPage(s, t, i, c, rights);
      Inv(r) && Mapped(s, t, i, c, r, ok) && Granted(s.caps[t], i, c, rights, r, ok)
    ensures MapPage(s, t, i, c, rights).1 <==>
      && c in s.caps && s.caps[c].Page? && !s.caps[c].mapped && s.caps[c].level == s.caps[t].level
      && UserHalf(s.caps[t], i) && !EntryAt(s, s.caps[t].table, i).on
  {
    MapPageKeeps(s, t, i, c, rights);
    if i < ENTRIES { IndexOfEntry(s.caps[t].base, s.caps[t].level, i); }
    if c in s.caps { EntryGrants(rights, Frame(s.caps[c])); }
  }

  lemma UnmapPageMeans(s: State, t: Id, i: nat, c: Id)
    requires Inv(s) && t in s.caps && s.caps[t].Table?
    ensures
      var (r, ok) := UnmapPage(s, t, i, c);
      && (UserHalf(s.caps[t], i) ==> Inv(r) && TakenOff(s, t, i, c, r, ok))
      && (ok && !UserHalf(s.caps[t], i) ==>
            !HangsAt(s.caps[c], s.caps[t].table, i) && !EntryAt(r, s.caps[t].table, i).on)
    ensures c in s.caps && s.caps[c].Page? && s.caps[c].level == s.caps[t].level ==>
      (UnmapPage(s, t, i, c).1 <==> HangsAt(s.caps[c], s.caps[t].table, i))
  {
    var (r, ok) := UnmapPage(s, t, i, c);
    if ok {
      UnmapPageExact(s, t, i, c);
      if UserHalf(s.caps[t], i) { DetachKeeps(s, c); }
    }
    assert UserHung(s, t, c);
  }

  /** The page moved from the entry it was mapped in to a free one, and nothing else changed. */
  ghost predicate MovedTo(s: State, t: Id, i: nat, c: Id, o: Id, r: State, ok: bool)
    requires t in s.caps && s.caps[t].Table?
  {
    var T := s.caps[t];
    if !ok then r == s
    else
      && c in s.caps && o in s.caps && s.caps[o].Table?
      && HangsAt(s.caps[c], s.caps[o].table, SlotOf(s.caps[c])) && !EntryAt(s, T.table, i).on
      && Disabled(s, r, s.caps[o].table, SlotOf(s.caps[c])) && Hangs(s, T, i, c, r)
      && OnlyMoved(s, r, c, (s.caps[o].table, SlotOf(s.caps[c])), (T.table, i))
  }

  lemma RemapPageMeans(s: State, t: Id, i: nat, c: Id, rights: Rights, o: Id)
    requires Inv(s) && t in s.caps && s.caps[t].Table?
    ensures
      var (r, ok) := RemapPage(s, t, i, c, rights, o);
      Inv(r) && MovedTo(s, t, i, c, o, r, ok) && Granted(s.caps[t], i, c, rights, r, ok)
    ensures RemapPage(s, t, i, c, rights, o).1 <==>
      && c in s.caps && s.caps[c].Page? && o in s.caps && s.caps[o].Table?
      && HangsAt(s.caps[c], s.caps[o].table, SlotOf(s.caps[c]))
      && s.caps[t].level == s.caps[o].level == s.caps[c].level
      && UserHalf(s.caps[t], i) && !EntryAt(s, s.caps[t].table, i).on
  {
    RemapPageKeeps(s, t, i, c, rights, o);
    if i < ENTRIES { IndexOfEntry(s.caps[t].base, s.caps[t].level, i); }
    if c in s.caps { EntryGrants(rights, Frame(s.caps[c])); }
  }

  class PageTables {
    var caps: map<Id, MapCap>
    var ptes: map<(nat, nat), Pte>

    ghost function Now(): (s: State)
      reads this
    {
      State(caps, ptes)
    }

    method Entry(table: nat, i: nat) returns (p: Pte)
      ensures p == EntryAt(Now(), table, i)
    {
      p := if (table, i) in ptes then ptes[(table, i)] else OFF;
    }

    /** `map_page_table_cap`. */
    method MapPageTableCap(t: Id, i: nat, c: Id) returns (ok: bool)
      requires Inv(Now()) && t in caps && caps[t].Table?
      modifies this
      ensures Inv(Now()) && Mapped(old(Now()), t, i, c, Now(), ok)
      ensures (Now(), ok) == MapTable(old(Now()), t, i, c)
    {
      hide Inv, Mapped, TakenOff, MovedTo, Granted, UserHalf, PageSize;
      MapTableMeans(Now(), t, i, c);
      if i >= ENTRIES {
        return false;
      }
      if c !in caps || !caps[c].Table? {
        return false;
      }
      var parent, child := caps[t], caps[c];
      var va := parent.base + PageSize(parent.level) * i;
      if va >= KERNEL_SPACE_BASE {
        return false;
      }
      if parent.level == 0 {
        return false;
      }
      var p := Entry(parent.table, i);
      if p.on || child.mapped {
        return false;
      }
      ptes := ptes[(parent.table, i) := TableEntry(child.table)];
      caps := caps[c := child.(mapped := true, level := parent.level - 1, base := va, parent := parent.table)];
      return true;
    }

    /** `unmap_page_table_cap`. */
    method UnmapPageTableCap(t: Id, i: nat, c: Id) returns (ok: bool)
      requires Inv(Now()) && t in caps && caps[t].Table?
      modifies this
      ensures Inv(Now()) && TakenOff(old(Now()), t, i, c, Now(), ok)
      ensures (Now(), ok) == UnmapTable(old(Now()), t, i, c)
    {
      hide Inv, Mapped, TakenOff, MovedTo, Granted, UserHalf, PageSize;
      UnmapTableMeans(Now(), t, i, c);
      if i >= ENTRIES {
        return false;
      }
      if c !in caps || !caps[c].Table? {
        return false;
      }
      var parent, child := caps[t], caps[c];
      if parent.base + PageSize(parent.level) * i >= KERNEL_SPACE_BASE {
        return false;
      }
      var p := Entry(parent.table, i);
      if !p.on || !child.mapped || Next(p) != child.table {
        return false;
      }
      ptes := ptes[(parent.table, i) := p.(on := false)];
      caps := caps[c := Unmapped(child)];
      return true;
    }

    /** `map_virt_page_cap`. */
    method MapVirtPageCap(t: Id, i: nat, c: Id, rights: Rights) returns (ok: bool)
      requires Inv(Now()) && t in caps && caps[t].Table?
      modifies this
      ensures Inv(Now()) && Mapped(old(Now()), t, i, c, Now(), ok)
      ensures Granted(old(caps)[t], i, c, rights, Now(), ok)
      ensures (Now(), ok) == MapPage(old(Now()), t, i, c, rights)
    {
      hide Inv, Mapped, TakenOff, MovedTo, Granted, UserHalf, PageSize;
      MapPageMeans(Now(), t, i, c, rights);
      if i >= ENTRIES {
        return false;
      }
      if c !in caps || !caps[c].Page? {
        return false;
      }
      var parent, page := caps[t], caps[c];
      var va := parent.base + PageSize(page.level) * i;
      if va >= KERNEL_SPACE_BASE {
        return false;
      }
      var p := Entry(parent.table, i);
      if p.on || page.mapped || page.level != parent.level {
        return false;
      }
      ptes := ptes[(parent.table, i) := PageEntry(rights, page.frame)];
      caps := caps[c := page.(mapped := true, rights := rights, index := i, address := va, parent := parent.table)];
      return true;
    }

    /** `unmap_virt_page_cap`. */
    method UnmapVirtPageCap(t: Id, i: nat, c: Id) returns (ok: bool)
      requires Inv(Now()) && t in caps && caps[t].Table?
      modifies this
      ensures UserHalf(old(caps)[t], i) ==> Inv(Now()) && TakenOff(old(Now()), t, i, c, Now(), ok)
      ensures ok && !UserHalf(old(caps)[t], i) ==> c in old(caps) && !HangsAt(old(caps)[c], old(caps)[t].table, i)
      ensures (Now(), ok) == UnmapPage(old(Now()), t, i, c)
    {
      hide Inv, Mapped, TakenOff, MovedTo, Granted, UserHalf, PageSize;
      UnmapPageMeans(Now(), t, i, c);
      if i >= ENTRIES {
        return false;
      }
      if c !in caps || !caps[c].Page? {
        return false;
      }
      var parent, page := caps[t], caps[c];
      if parent.base + PageSize(page.level) * i >= KERNEL_SPACE_BASE {
        return false;
      }
      var p := Entry(parent.table, i);
      if !p.on || !page.mapped || Next(p) != page.frame {
        return false;
      }
      ptes := ptes[(parent.table, i) := p.(on := false)];
      caps := caps[c := Unmapped(page)];
      return true;
    }

    /** `remap_virt_page_cap`. */
    method RemapVirtPageCap(t: Id, i: nat, c: Id, rights: Rights, o: Id) returns (ok: bool)
      requires Inv(Now()) && t in caps && caps[t].Table?
      modifies this
      ensures Inv(Now()) && MovedTo(old(Now()), t, i, c, o, Now(), ok)
      ensures Granted(old(caps)[t], i, c, rights, Now(), ok)
      ensures (Now(), ok) == RemapPage(old(Now()), t, i, c, rights, o)
    {
      hide Inv, Mapped, TakenOff, MovedTo, Granted, UserHalf, PageSize;
      RemapPageMeans(Now(), t, i, c, rights, o);
      if i >= ENTRIES || c !in caps || !caps[c].Page? || o !in caps || !caps[o].Table? {
        return false;
      }
      var parent, page, was := caps[t], caps[c], caps[o];
      var va := parent.base + PageSize(page.level) * i;
      if va >= KERNEL_SPACE_BASE {
        return false;
      }
      if !page.mapped || parent.level != was.level || parent.level != page.level {
        return false;
      }
      var p := Entry(parent.table, i);
      var q := Entry(was.table, page.index);
      if p.on || !q.on || Next(q) != page.frame {
        return false;
      }
      ptes := ptes[(was.table, page.index) := q.(on := false)];
      ptes := ptes[(parent.table, i) := PageEntry(rights, page.frame)];
      caps := caps[c := page.(rights := rights, index := i, address := va, parent := parent.table)];
      return true;
    }

    /** `destroy_page_table_object` and `destroy_virt_page_object`, with the removal of the capability. */
    method DestroyMapped(c: Id)
      requires Inv(Now()) && c in caps
      modifies this
      ensures Now() == Destroy(old(Now()), c) && Inv(Now())
    {
      DestroyKeeps(Now(), c);
      var k := caps[c];
      if k.parent != NO_TABLE {
        var i := SlotOf(k);
        var p := Entry(k.parent, i);
        assert p.on;
        assert Next(p) == Frame(k);
        ptes := ptes[(k.parent, i) := p.(on := false)];
      }
      caps := caps - {c};
    }
  }
}
