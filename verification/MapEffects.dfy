/** How mapping, unmapping and remapping change what addresses translate to. */
module MapEffects {
  import opened Arith
  import opened Capability
  import opened Paging
  import opened Translation

  /** What `va` translates to through the root table of a task. */
  function Lookup(s: State, root: Id, va: nat): (w: Walked)
    requires IsRoot(s, root)
  {
    Walk(s, s.caps[root].table, MAX_LEVEL, va)
  }

  /** The addresses of entry `i` of the table `t`. */
  predicate InPage(t: MapCap, i: nat, va: nat) {
    t.Table? && t.base + PageSize(t.level) * i <= va < t.base + PageSize(t.level) * i + PageSize(t.level)
  }

  lemma PageRange(t: MapCap, i: nat, va: nat)
    requires CapOk(t) && t.Table? && UserHalf(t, i)
    ensures InPage(t, i, va) <==> InTable(t, va) && Index(va, t.level) == i
    ensures InPage(t, i, va) ==> va < KERNEL_SPACE_BASE
  {
    if InTable(t, va) { EntryRange(t.base, t.level, va); }
    if InPage(t, i, va) {
      RangeEntry(t.base, t.level, i, va);
      IndexOfEntry(t.base, t.level, i);
      BelowKernel(t.base + PageSize(t.level) * i, t.level);
    }
  }

  lemma BelowKernel(a: nat, level: nat)
    requires level <= MAX_LEVEL && a % PageSize(level) == 0 && a < KERNEL_SPACE_BASE
    ensures a + PageSize(level) <= KERNEL_SPACE_BASE
  {
    assert PageSize(0) == 0x1000 && PageSize(1) == 0x20_0000 && PageSize(2) == 0x4000_0000;
  }

  /** Switching an entry on changes the translation of exactly its page, and only where its table is attached. */
  lemma SwitchLookup(s: State, kernel: set<nat>, t: Id, i: nat, p: Pte, r: State, root: Id, va: nat)
    requires Tree(s, kernel) && SwitchedOn(s, t, i, p, r) && IsRoot(s, root) && va < MAX_VIRTUAL_ADDRESS
    ensures
      if Attached(s, root, t) && InPage(s.caps[t], i, va)
      then Walk(r, s.caps[root].table, MAX_LEVEL, va) == Leaf(p, s.caps[t].level) && Lookup(s, root, va) == Fault
      else Walk(r, s.caps[root].table, MAX_LEVEL, va) == Lookup(s, root, va)
  {
    SwitchRoot(s, kernel, t, i, p, r, root, va);
    PageRange(s.caps[t], i, va);
    if va < KERNEL_SPACE_BASE { HitsExactly(s, kernel, root, t, va); }
  }

  /** The translation is a page of this frame and level, with these rights for user accesses and no others. */
  predicate LedTo(w: Walked, rights: Rights, frame: nat, level: nat) {
    w.Leaf? && w.level == level && Grants(w.p, rights, frame)
  }

  /** `map_virt_page_cap` extends the translation by exactly the page's addresses. */
  lemma MapPageExtends(s: State, kernel: set<nat>, t: Id, i: nat, c: Id, rights: Rights, root: Id, va: nat)
    requires Tree(s, kernel) && t in s.caps && s.caps[t].Table? && MapPage(s, t, i, c, rights).1
    requires IsRoot(s, root) && va < MAX_VIRTUAL_ADDRESS
    ensures
      var r := MapPage(s, t, i, c, rights).0;
      && IsRoot(r, root)
      && if Attached(s, root, t) && InPage(s.caps[t], i, va)
         then Lookup(s, root, va) == Fault && LedTo(Lookup(r, root, va), rights, s.caps[c].frame, s.caps[t].level)
         else Lookup(r, root, va) == Lookup(s, root, va)
  {
    EntryGrants(rights, s.caps[c].frame);
    SwitchLookup(s, kernel, t, i, PageEntry(rights, s.caps[c].frame), MapPage(s, t, i, c, rights).0, root, va);
  }

  // ---------------------------------------------------------------- unmapping

  lemma DetachTree(s: State, kernel: set<nat>, c: Id)
    requires Tree(s, kernel) && c in s.caps && Hung(s.caps[c])
    ensures Tree(Detach(s, c), kernel)
  {
    DetachKeeps(s, c);
    var r := Detach(s, c);
    forall t, d ensures TreeAt(r, t, d) { assert TreeAt(s, t, d); }
    forall k, i ensures KernelEntry(s, kernel, k, i) ==> KernelEntry(r, kernel, k, i) { }
    forall t, i: nat | t in r.caps && r.caps[t].Table? && i < ENTRIES && !UserHalf(r.caps[t], i)
      ensures KernelEntry(r, kernel, r.caps[t].table, i)
    {
      assert KernelEntry(s, kernel, s.caps[t].table, i);
    }
  }

  /** Pages do not lead anywhere: a page's entry is on no path. */
  lemma HitsSwitched(s: State, t: Id, i: nat, p: Pte, r: State, table: nat, level: nat, va: nat, x: nat, l: nat)
    requires SwitchedOn(s, t, i, p, r)
    ensures Hits(r, table, level, va, x, l) == Hits(s, table, level, va, x, l)
    decreases level
  {
    var q := EntryAt(s, table, Index(va, level));
    if level > 0 && IsTable(q) { HitsSwitched(s, t, i, p, r, Next(q), level - 1, va, x, l); }
  }

  /** Taking a page off its entry makes exactly its addresses fault; all others translate as before. */
  lemma DetachPage(s: State, kernel: set<nat>, t: Id, c: Id, root: Id, va: nat)
    requires Tree(s, kernel) && c in s.caps && s.caps[c].Page? && t in s.caps && s.caps[t].Table?
    requires Hung(s.caps[c]) && s.caps[c].parent == s.caps[t].table
    requires IsRoot(s, root) && va < MAX_VIRTUAL_ADDRESS
    ensures
      var r := Detach(s, c);
      && IsRoot(r, root)
      && if Attached(s, root, t) && InPage(s.caps[t], SlotOf(s.caps[c]), va)
         then Lookup(r, root, va) == Fault &&
              Lookup(s, root, va) == Leaf(EntryAt(s, s.caps[t].table, SlotOf(s.caps[c])), s.caps[c].level)
         else Lookup(r, root, va) == Lookup(s, root, va)
  {
    var r, T, C := Detach(s, c), s.caps[t], s.caps[c];
    var i := SlotOf(C);
    assert HungOk(s, C) && UserHung(s, t, c) && TreeAt(s, t, c);
    DetachTree(s, kernel, c);
    var p := EntryAt(s, T.table, i);
    assert SwitchedOn(r, t, i, p, s);
    SwitchLookup(r, kernel, t, i, p, s, root, va);
    HitsSwitched(r, t, i, p, s, s.caps[root].table, MAX_LEVEL, T.base, T.table, T.level);
  }

  /** `unmap_virt_page_cap`, of a user entry, makes exactly the page's addresses fault. */
  lemma UnmapPageShrinks(s: State, kernel: set<nat>, t: Id, i: nat, c: Id, root: Id, va: nat)
    requires Tree(s, kernel) && t in s.caps && s.caps[t].Table? && UnmapPage(s, t, i, c).1 && UserHalf(s.caps[t], i)
    requires IsRoot(s, root) && va < MAX_VIRTUAL_ADDRESS
    ensures
      var r := UnmapPage(s, t, i, c).0;
      && IsRoot(r, root)
      && if Attached(s, root, t) && InPage(s.caps[t], i, va)
         then Lookup(r, root, va) == Fault && Lookup(s, root, va) != Fault
         else Lookup(r, root, va) == Lookup(s, root, va)
  {
    UnmapPageExact(s, t, i, c);
    DetachPage(s, kernel, t, c, root, va);
  }

  /** Unmapping undoes mapping. */
  lemma UnmapUndoesMap(s: State, kernel: set<nat>, t: Id, i: nat, c: Id, rights: Rights, root: Id, va: nat)
    requires Tree(s, kernel) && t in s.caps && s.caps[t].Table? && MapPage(s, t, i, c, rights).1
    requires IsRoot(s, root) && va < MAX_VIRTUAL_ADDRESS
    ensures
      var m := MapPage(s, t, i, c, rights).0;
      && UnmapPage(m, t, i, c).1 && IsRoot(UnmapPage(m, t, i, c).0, root)
      && Lookup(UnmapPage(m, t, i, c).0, root, va) == Lookup(s, root, va)
  {
    var m := MapPage(s, t, i, c, rights).0;
    EntryNext(s.caps[c].frame, rights);
    MapPageExtends(s, kernel, t, i, c, rights, root, va);
    MapPageTree(s, kernel, t, i, c, rights);
    UnmapPageShrinks(m, kernel, t, i, c, root, va);
    HitsSwitched(s, t, i, PageEntry(rights, s.caps[c].frame), m, s.caps[root].table, MAX_LEVEL, s.caps[t].base,
      s.caps[t].table, s.caps[t].level);
  }

  lemma MapPageTree(s: State, kernel: set<nat>, t: Id, i: nat, c: Id, rights: Rights)
    requires Tree(s, kernel) && t in s.caps && s.caps[t].Table? && MapPage(s, t, i, c, rights).1
    ensures Tree(MapPage(s, t, i, c, rights).0, kernel)
  {
    MapPageKeeps(s, t, i, c, rights);
    var r, T, C := MapPage(s, t, i, c, rights).0, s.caps[t], s.caps[c];
    EntryNext(C.frame, rights);
    IndexOfEntry(T.base, T.level, i);
    forall u, d ensures TreeAt(r, u, d) { assert TreeAt(s, u, d) && OneFrame(s, t, u); }
    forall k, j ensures KernelEntry(s, kernel, k, j) ==> KernelEntry(r, kernel, k, j) { }
    forall u, j: nat | u in r.caps && r.caps[u].Table? && j < ENTRIES && !UserHalf(r.caps[u], j)
      ensures KernelEntry(r, kernel, r.caps[u].table, j)
    {
      assert KernelEntry(s, kernel, s.caps[u].table, j);
    }
  }

  /**
   `remap_virt_page_cap` moves the page: its old addresses fault, unless the new ones cover them, and its new ones
   translate to it.
   */
  lemma RemapPageMoves(s: State, kernel: set<nat>, t: Id, i: nat, c: Id, rights: Rights, o: Id, root: Id, va: nat)
    requires Tree(s, kernel) && t in s.caps && s.caps[t].Table? && RemapPage(s, t, i, c, rights, o).1
    requires IsRoot(s, root) && va < MAX_VIRTUAL_ADDRESS
    ensures
      var r := RemapPage(s, t, i, c, rights, o).0;
      && IsRoot(r, root)
      && if Attached(s, root, t) && InPage(s.caps[t], i, va)
         then LedTo(Lookup(r, root, va), rights, s.caps[c].frame, s.caps[t].level)
         else if Attached(s, root, o) && InPage(s.caps[o], s.caps[c].index, va) then Lookup(r, root, va) == Fault
         else Lookup(r, root, va) == Lookup(s, root, va)
  {
    RemapPageKeeps(s, t, i, c, rights, o);
    DetachTree(s, kernel, c);
    DetachPage(s, kernel, o, c, root, va);
    var m := Detach(s, c);
    MapPageExtends(m, kernel, t, i, c, rights, root, va);
    assert HungOk(s, s.caps[c]) && UserHung(s, o, c);
    var p := EntryAt(s, s.caps[o].table, s.caps[c].index);
    assert SwitchedOn(m, o, s.caps[c].index, p, s);
    HitsSwitched(m, o, s.caps[c].index, p, s, s.caps[root].table, MAX_LEVEL, s.caps[t].base, s.caps[t].table,
      s.caps[t].level);
  }

  // ---------------------------------------------------------------- tables

  ghost predicate EmptyTable(s: State, table: nat) {
    forall j :: 0 <= j < ENTRIES ==> !EntryAt(s, table, j).on
  }

  /** `map_page_table_cap` of an empty table changes no translation. */
  lemma MapTableSilent(s: State, kernel: set<nat>, t: Id, i: nat, c: Id, root: Id, va: nat)
    requires Tree(s, kernel) && t in s.caps && s.caps[t].Table? && MapTable(s, t, i, c).1
    requires EmptyTable(s, s.caps[c].table) && c != t
    requires IsRoot(s, root) && va < MAX_VIRTUAL_ADDRESS
    ensures IsRoot(MapTable(s, t, i, c).0, root) && Lookup(MapTable(s, t, i, c).0, root, va) == Lookup(s, root, va)
  {
    var r, R := MapTable(s, t, i, c).0, s.caps[root];
    RootRange(R, va);
    assert OneFrame(s, root, t);
    if va < KERNEL_SPACE_BASE {
      SilentWalk(s, kernel, t, i, c, root, va);
    } else {
      var q := EntryAt(s, R.table, Index(va, MAX_LEVEL));
      assert KernelEntry(s, kernel, R.table, Index(va, MAX_LEVEL));
      if IsTable(q) { KernelWalk(s, kernel, r, Next(q), MAX_LEVEL - 1, va); }
    }
  }

  lemma SilentWalk(s: State, kernel: set<nat>, t: Id, i: nat, c: Id, u: Id, va: nat)
    requires Tree(s, kernel) && t in s.caps && s.caps[t].Table? && MapTable(s, t, i, c).1
    requires EmptyTable(s, s.caps[c].table) && c != t
    requires u in s.caps && InTable(s.caps[u], va) && UserHalf(s.caps[u], Index(va, s.caps[u].level))
    ensures Walk(MapTable(s, t, i, c).0, s.caps[u].table, s.caps[u].level, va) ==
      Walk(s, s.caps[u].table, s.caps[u].level, va)
    decreases if u in s.caps then s.caps[u].level else 0
  {
    var r, U, n := MapTable(s, t, i, c).0, s.caps[u], Index(va, s.caps[u].level);
    assert OneFrame(s, u, t) && OneFrame(s, c, t);
    EntryNext(s.caps[c].table, Rights(false, false, false));
    if U.level > 0 { assert !EntryAt(s, s.caps[c].table, Index(va, U.level - 1)).on; }
    if IsTable(EntryAt(s, U.table, n)) && U.level > 0 {
      var d := Descend(s, kernel, u, va);
      WholeTable(s.caps[d], Index(va, s.caps[d].level));
      SilentWalk(s, kernel, t, i, c, d, va);
    }
  }

  /** Nothing is recorded as mapped in the table. */
  ghost predicate NothingIn(s: State, table: nat) {
    forall d :: d in s.caps ==> s.caps[d].parent != table
  }

  /** Tables still hang where they say after a table with nothing in it is mapped. */
  lemma MapTableTree(s: State, kernel: set<nat>, t: Id, i: nat, c: Id)
    requires Tree(s, kernel) && t in s.caps && s.caps[t].Table? && MapTable(s, t, i, c).1
    requires NothingIn(s, s.caps[c].table) && c != t
    ensures Tree(MapTable(s, t, i, c).0, kernel)
  {
    MapTableKeeps(s, t, i, c);
    var r, T, C := MapTable(s, t, i, c).0, s.caps[t], s.caps[c];
    forall u, d ensures TreeAt(r, u, d) { MapTableTreeAt(s, t, i, c, u, d); }
    forall k, j | k in kernel ensures KernelEntry(r, kernel, k, j) { assert KernelEntry(s, kernel, k, j); }
    forall u, j: nat | u in r.caps && r.caps[u].Table? && j < ENTRIES && !UserHalf(r.caps[u], j)
      ensures KernelEntry(r, kernel, r.caps[u].table, j)
    {
      if u == c { WholeTable(r.caps[c], j); }
      assert OneFrame(s, u, t) && KernelEntry(s, kernel, s.caps[u].table, j);
    }
  }

  lemma MapTableTreeAt(s: State, t: Id, i: nat, c: Id, u: Id, d: Id)
    requires Inv(s) && TreeAt(s, u, d) && t in s.caps && s.caps[t].Table? && MapTable(s, t, i, c).1
    requires NothingIn(s, s.caps[c].table) && c != t
    ensures TreeAt(MapTable(s, t, i, c).0, u, d)
  {
    assert OneFrame(s, t, u) && OneFrame(s, c, t);
    IndexOfEntry(s.caps[t].base, s.caps[t].level, i);
  }
}
