/**
 Page tables and the capabilities for them: a capability records where its frame is mapped, a page table
 entry records the frame, and mapping, unmapping, remapping and destroying keep the two in step.
 */
module Paging {
  import opened Arith
  import opened Capability

  const ENTRIES: nat := 512
  const KERNEL_SPACE_BASE: nat := 0x20_0000_0000
  const NO_TABLE: nat := 0

  datatype Rights = Rights(r: bool, w: bool, x: bool)

  datatype Pte = Pte(on: bool, rights: Rights, user: bool, global: bool, page: nat)

  const OFF: Pte := Pte(false, Rights(false, false, false), false, false, 0)

  /** `pte_t::is_table`. */
  predicate IsTable(p: Pte) {
    p.on && !p.rights.r && !p.rights.w && !p.rights.x && !p.user && !p.global
  }

  /** `pte_t::get_next_page`. */
  function Next(p: Pte): (a: nat) { p.page * PAGE_SIZE }

  /** An enabled entry as `set_flags`, `set_next_page` and `enable` leave it. */
  function TableEntry(frame: nat): (p: Pte) { Pte(true, Rights(false, false, false), false, false, frame / PAGE_SIZE) }

  function PageEntry(rights: Rights, frame: nat): (p: Pte) { Pte(true, rights, true, false, frame / PAGE_SIZE) }

  lemma EntryNext(frame: nat, rights: Rights)
    requires frame % PAGE_SIZE == 0
    ensures Next(TableEntry(frame)) == frame && IsTable(TableEntry(frame))
    ensures Next(PageEntry(rights, frame)) == frame && PageEntry(rights, frame).user
    ensures !IsTable(PageEntry(rights, frame))
  {
    DivMod(frame, PAGE_SIZE);
  }

  /** The entry leads user accesses with these rights, and no others, to the frame, in one address space. */
  predicate Grants(p: Pte, rights: Rights, frame: nat) {
    p.on && p.user && !p.global && Next(p) == frame && (p.rights.r <==> rights.r) && (p.rights.w <==> rights.w)
    && (p.rights.x <==> rights.x)
  }

  /** The entry leads walks to the next table, and grants nothing itself. */
  predicate Leads(p: Pte, frame: nat) {
    p.on && !p.user && !p.global && Next(p) == frame && !p.rights.r && !p.rights.w && !p.rights.x
  }

  lemma EntryGrants(rights: Rights, frame: nat)
    requires frame % PAGE_SIZE == 0
    ensures Grants(PageEntry(rights, frame), rights, frame) && Leads(TableEntry(frame), frame)
  {
    DivMod(frame, PAGE_SIZE);
  }

  /** `get_page_table_index`. */
  function Index(va: nat, level: nat): (i: nat)
    ensures i < ENTRIES
  {
    va / PageSize(level) % ENTRIES
  }

  /** The address of entry `i` of a table of this level at an aligned address has that index. */
  lemma IndexOfEntry(base: nat, level: nat, i: nat)
    requires base % PageSize(level + 1) == 0 && i < ENTRIES
    ensures Index(base + PageSize(level) * i, level) == i
    ensures (base + PageSize(level) * i) % PageSize(level) == 0
  {
    var a, q := PageSize(level), base / PageSize(level + 1);
    DivMod(base, PageSize(level + 1));
    assert base == q * (ENTRIES * a);
    Regroup(q, a, i);
    ModUnique(base + a * i, a, q * ENTRIES + i, 0);
    ModUnique(q * ENTRIES + i, ENTRIES, q, i);
  }

  lemma Regroup(q: nat, a: nat, i: nat)
    ensures q * (ENTRIES * a) + a * i == (q * ENTRIES + i) * a
  {
  }

  /**
   The part of a page table or virtual page capability that mapping uses; a null parent means it is mapped nowhere, or
   is a root.
   */
  datatype MapCap =
    | Table(table: nat, mapped: bool, level: nat, base: nat, parent: nat)
    | Page(frame: nat, mapped: bool, level: nat, index: nat, address: nat, parent: nat, rights: Rights)

  type Id = nat

  datatype State = State(caps: map<Id, MapCap>, ptes: map<(nat, nat), Pte>)

  function EntryAt(s: State, table: nat, i: nat): (p: Pte) {
    if (table, i) in s.ptes then s.ptes[(table, i)] else OFF
  }

  function Frame(c: MapCap): (a: nat) { if c.Table? then c.table else c.frame }

  /** The entry a capability is mapped in, as `destroy_page_table_object` and `destroy_virt_page_object` compute it. */
  function SlotOf(c: MapCap): (i: nat) {
    if c.Table? then Index(c.base, c.level + 1) else Index(c.address, c.level)
  }

  predicate Hung(c: MapCap) { c.parent != NO_TABLE }

  predicate HangsAt(c: MapCap, table: nat, i: nat) { Hung(c) && c.parent == table && SlotOf(c) == i }

  /** Entry `i` of the table translates addresses below the kernel's. */
  predicate UserHalf(c: MapCap, i: nat) {
    c.Table? && i < ENTRIES && c.base + PageSize(c.level) * i < KERNEL_SPACE_BASE
  }

  // ---------------------------------------------------------------- the invariant

  predicate CapOk(c: MapCap) {
    && Frame(c) % PAGE_SIZE == 0 && Frame(c) != NO_TABLE && c.level <= MAX_LEVEL
    && match c
       case Table(_, mapped, level, base, parent) =>
         && base % PageSize(level + 1) == 0
         && (level == MAX_LEVEL ==> mapped && base == 0 && parent == NO_TABLE)
         && (level < MAX_LEVEL ==> base < KERNEL_SPACE_BASE && (mapped <==> parent != NO_TABLE))
       case Page(_, mapped, level, index, address, parent, _) =>
         && (mapped <==> parent != NO_TABLE)
         && (mapped ==> index == Index(address, level) && address < KERNEL_SPACE_BASE)
  }

  /** A mapped capability's entry is enabled, has the capability's frame, and is of the right kind. */
  predicate HungOk(s: State, c: MapCap) {
    Hung(c) ==>
      var p := EntryAt(s, c.parent, SlotOf(c));
      p.on && Next(p) == Frame(c) && (IsTable(p) <==> c.Table?) && (p.user <==> c.Page?)
  }

  /** A capability mapped in a table is mapped in its user half. */
  predicate UserHung(s: State, t: Id, c: Id) {
    t in s.caps && c in s.caps && s.caps[t].Table? && Hung(s.caps[c]) && s.caps[c].parent == s.caps[t].table ==>
      UserHalf(s.caps[t], SlotOf(s.caps[c]))
  }

  ghost predicate Covered(s: State, table: nat, i: nat) {
    exists c :: c in s.caps && HangsAt(s.caps[c], table, i)
  }

  /** An enabled entry in the user half of a table was made by mapping some capability. */
  ghost predicate EntryOk(s: State, t: Id, i: nat) {
    t in s.caps && UserHalf(s.caps[t], i) && EntryAt(s, s.caps[t].table, i).on ==> Covered(s, s.caps[t].table, i)
  }

  predicate OneFrame(s: State, c: Id, d: Id) {
    c in s.caps && d in s.caps && c != d ==> Frame(s.caps[c]) != Frame(s.caps[d])
  }

  ghost predicate Inv(s: State) {
    && (forall c :: c in s.caps ==> CapOk(s.caps[c]) && HungOk(s, s.caps[c]))
    && (forall c, d :: OneFrame(s, c, d))
    && (forall t, c :: UserHung(s, t, c))
    && (forall t, i :: EntryOk(s, t, i))
  }

  /** Between capabilities that are mapped and entries there is a one-to-one correspondence. */
  lemma OneEntryEach(s: State, c: Id, d: Id)
    requires Inv(s) && c in s.caps && d in s.caps && Hung(s.caps[c])
    requires HangsAt(s.caps[d], s.caps[c].parent, SlotOf(s.caps[c]))
    ensures c == d
  {
    assert OneFrame(s, c, d);
  }

  /** An enabled user entry with the frame of `c` is the entry of `c`. */
  lemma OwnEntry(s: State, t: Id, i: nat, c: Id)
    requires Inv(s) && t in s.caps && c in s.caps && UserHalf(s.caps[t], i)
    requires var p := EntryAt(s, s.caps[t].table, i); p.on && Next(p) == Frame(s.caps[c])
    ensures HangsAt(s.caps[c], s.caps[t].table, i)
  {
    assert EntryOk(s, t, i);
    var d :| d in s.caps && HangsAt(s.caps[d], s.caps[t].table, i);
    assert OneFrame(s, c, d);
  }

  // ---------------------------------------------------------------- the operations

  function SetEntry(s: State, table: nat, i: nat, p: Pte): (r: State) { s.(ptes := s.ptes[(table, i) := p]) }

  function Disable(s: State, table: nat, i: nat): (r: State) {
    SetEntry(s, table, i, EntryAt(s, table, i).(on := false))
  }

  function PutCap(s: State, c: Id, k: MapCap): (r: State) { s.(caps := s.caps[c := k]) }

  function Unmapped(c: MapCap): (d: MapCap) {
    match c
    case Table(table, _, level, base, _) => Table(table, false, level, base, NO_TABLE)
    case Page(frame, _, level, index, address, _, rights) => Page(frame, false, level, index, address, NO_TABLE, rights)
  }

  /** `map_page_table_cap`. */
  function MapTable(s: State, t: Id, i: nat, c: Id): (r: (State, bool))
    requires t in s.caps && s.caps[t].Table?
  {
    if i >= ENTRIES || c !in s.caps || !s.caps[c].Table? then (s, false)
    else
      var T, C := s.caps[t], s.caps[c];
      var va := T.base + PageSize(T.level) * i;
      if va >= KERNEL_SPACE_BASE || T.level == 0 || EntryAt(s, T.table, i).on || C.mapped then (s, false)
      else
        (PutCap(SetEntry(s, T.table, i, TableEntry(C.table)), c,
                C.(mapped := true, level := T.level - 1, base := va, parent := T.table)), true)
  }

  /** `unmap_page_table_cap`. */
  function UnmapTable(s: State, t: Id, i: nat, c: Id): (r: (State, bool))
    requires t in s.caps && s.caps[t].Table?
  {
    if i >= ENTRIES || c !in s.caps || !s.caps[c].Table? then (s, false)
    else
      var T, C := s.caps[t], s.caps[c];
      var va := T.base + PageSize(T.level) * i;
      var p := EntryAt(s, T.table, i);
      if va >= KERNEL_SPACE_BASE || !p.on || !C.mapped || Next(p) != C.table then (s, false)
      else (PutCap(Disable(s, T.table, i), c, Unmapped(C)), true)
  }

  /** `map_virt_page_cap`. */
  function MapPage(s: State, t: Id, i: nat, c: Id, rights: Rights): (r: (State, bool))
    requires t in s.caps && s.caps[t].Table?
  {
    if i >= ENTRIES || c !in s.caps || !s.caps[c].Page? then (s, false)
    else
      var T, C := s.caps[t], s.caps[c];
      var va := T.base + PageSize(C.level) * i;
      if va >= KERNEL_SPACE_BASE || EntryAt(s, T.table, i).on || C.mapped || C.level != T.level then (s, false)
      else
        (PutCap(SetEntry(s, T.table, i, PageEntry(rights, C.frame)), c,
                C.(mapped := true, rights := rights, index := i, address := va, parent := T.table)), true)
  }

  /** `unmap_virt_page_cap`, which does not compare the levels. */
  function UnmapPage(s: State, t: Id, i: nat, c: Id): (r: (State, bool))
    requires t in s.caps && s.caps[t].Table?
  {
    if i >= ENTRIES || c !in s.caps || !s.caps[c].Page? then (s, false)
    else
      var T, C := s.caps[t], s.caps[c];
      var va := T.base + PageSize(C.level) * i;
      var p := EntryAt(s, T.table, i);
      if va >= KERNEL_SPACE_BASE || !p.on || !C.mapped || Next(p) != C.frame then (s, false)
      else (PutCap(Disable(s, T.table, i), c, Unmapped(C)), true)
  }

  /** `remap_virt_page_cap`. */
  function RemapPage(s: State, t: Id, i: nat, c: Id, rights: Rights, o: Id): (r: (State, bool))
    requires t in s.caps && s.caps[t].Table?
  {
    if i >= ENTRIES || c !in s.caps || !s.caps[c].Page? || o !in s.caps || !s.caps[o].Table? then (s, false)
    else
      var T, C, O := s.caps[t], s.caps[c], s.caps[o];
      var va := T.base + PageSize(C.level) * i;
      var p := EntryAt(s, O.table, C.index);
      if va >= KERNEL_SPACE_BASE || !C.mapped || T.level != O.level || T.level != C.level
         || EntryAt(s, T.table, i).on || !p.on || Next(p) != C.frame then (s, false)
      else
        (PutCap(SetEntry(Disable(s, O.table, C.index), T.table, i, PageEntry(rights, C.frame)), c,
                C.(rights := rights, index := i, address := va, parent := T.table)), true)
  }

  /** What `destroy_page_table_object` and `destroy_virt_page_object` assert. */
  predicate Destroyable(s: State, c: Id)
    requires c in s.caps
  {
    var C := s.caps[c];
    Hung(C) ==> EntryAt(s, C.parent, SlotOf(C)).on && Next(EntryAt(s, C.parent, SlotOf(C))) == Frame(C)
  }

  function Destroy(s: State, c: Id): (r: State)
    requires c in s.caps
  {
    var C := s.caps[c];
    var m := if Hung(C) then Disable(s, C.parent, SlotOf(C)) else s;
    m.(caps := m.caps - {c})
  }

  // ---------------------------------------------------------------- what taking a capability off its entry keeps

  /** The entry of `c`, and no other, is disabled. */
  function Detach(s: State, c: Id): (r: State)
    requires c in s.caps
  {
    PutCap(Disable(s, s.caps[c].parent, SlotOf(s.caps[c])), c, Unmapped(s.caps[c]))
  }

  lemma DetachKeeps(s: State, c: Id)
    requires Inv(s) && c in s.caps && Hung(s.caps[c])
    ensures Inv(Detach(s, c))
  {
    var r, C := Detach(s, c), s.caps[c];
    forall d | d in r.caps ensures CapOk(r.caps[d]) && HungOk(r, r.caps[d]) {
      if d != c && HangsAt(s.caps[d], C.parent, SlotOf(C)) { OneEntryEach(s, c, d); }
    }
    forall d, e ensures OneFrame(r, d, e) { assert OneFrame(s, d, e); }
    forall t, d ensures UserHung(r, t, d) { assert UserHung(s, t, d); }
    forall t, i ensures EntryOk(r, t, i) { DetachEntry(s, c, t, i); }
  }

  lemma DetachEntry(s: State, c: Id, t: Id, i: nat)
    requires Inv(s) && c in s.caps && Hung(s.caps[c])
    ensures EntryOk(Detach(s, c), t, i)
  {
    var r := Detach(s, c);
    assert EntryOk(s, t, i);
    if t in r.caps && UserHalf(r.caps[t], i) && EntryAt(r, r.caps[t].table, i).on {
      var d :| d in s.caps && HangsAt(s.caps[d], r.caps[t].table, i);
      assert d in r.caps && HangsAt(r.caps[d], r.caps[t].table, i);
    }
  }

  // ---------------------------------------------------------------- what putting a capability on an entry keeps

  /** `c`, now with the record `k`, is mapped in the free entry `i` of table `t`. */
  function Attach(s: State, t: Id, i: nat, c: Id, k: MapCap, p: Pte): (r: State)
    requires t in s.caps && s.caps[t].Table?
  {
    PutCap(SetEntry(s, s.caps[t].table, i, p), c, k)
  }

  /** The record and the entry say the same. */
  ghost predicate Matches(s: State, t: Id, i: nat, c: Id, k: MapCap, p: Pte)
    requires t in s.caps && c in s.caps && s.caps[t].Table?
  {
    && UserHalf(s.caps[t], i) && !EntryAt(s, s.caps[t].table, i).on && !Hung(s.caps[c])
    && CapOk(k) && HangsAt(k, s.caps[t].table, i) && Frame(k) == Frame(s.caps[c]) && (k.Table? <==> s.caps[c].Table?)
    && (k.Table? ==> s.caps[c].level < MAX_LEVEL && k.level < MAX_LEVEL)
    && p.on && Next(p) == Frame(k) && (IsTable(p) <==> k.Table?) && (p.user <==> k.Page?)
  }

  /** Below the root, a whole table is in one half. */
  lemma WholeTable(c: MapCap, i: nat)
    requires CapOk(c) && c.Table? && c.level < MAX_LEVEL && i < ENTRIES
    ensures UserHalf(c, i)
  {
    var n := PageSize(c.level);
    assert PageSize(0) == 0x1000 && PageSize(1) == 0x20_0000 && PageSize(2) == 0x4000_0000;
    assert PageSize(c.level + 1) == ENTRIES * n;
  }

  lemma AttachKeeps(s: State, t: Id, i: nat, c: Id, k: MapCap, p: Pte)
    requires Inv(s) && t in s.caps && s.caps[t].Table? && c in s.caps && Matches(s, t, i, c, k, p)
    ensures Inv(Attach(s, t, i, c, k, p))
  {
    var r, T := Attach(s, t, i, c, k, p), s.caps[t].table;
    forall d | d in r.caps ensures CapOk(r.caps[d]) && HungOk(r, r.caps[d]) {
      if d != c { assert HungOk(s, s.caps[d]); }
    }
    forall d, e ensures OneFrame(r, d, e) { assert OneFrame(s, d, e); }
    forall u, d ensures UserHung(r, u, d) { AttachUser(s, t, i, c, k, p, u, d); }
    forall u, j ensures EntryOk(r, u, j) { AttachEntry(s, t, i, c, k, p, u, j); }
  }

  lemma AttachUser(s: State, t: Id, i: nat, c: Id, k: MapCap, p: Pte, u: Id, d: Id)
    requires Inv(s) && t in s.caps && s.caps[t].Table? && c in s.caps && Matches(s, t, i, c, k, p)
    ensures UserHung(Attach(s, t, i, c, k, p), u, d)
  {
    assert UserHung(s, u, d) && OneFrame(s, t, u);
    var r := Attach(s, t, i, c, k, p);
    if u in r.caps && d in r.caps && r.caps[u].Table? && u == c { WholeTable(k, SlotOf(r.caps[d])); }
  }

  lemma AttachEntry(s: State, t: Id, i: nat, c: Id, k: MapCap, p: Pte, u: Id, j: nat)
    requires Inv(s) && t in s.caps && s.caps[t].Table? && c in s.caps && Matches(s, t, i, c, k, p)
    ensures EntryOk(Attach(s, t, i, c, k, p), u, j)
  {
    var r, T := Attach(s, t, i, c, k, p), s.caps[t].table;
    if u in r.caps && UserHalf(r.caps[u], j) && EntryAt(r, r.caps[u].table, j).on {
      if r.caps[u].table == T && j == i {
        assert c in r.caps && HangsAt(r.caps[c], T, i);
      } else {
        if u == c { WholeTable(s.caps[c], j); }
        assert EntryOk(s, u, j);
        var d :| d in s.caps && HangsAt(s.caps[d], s.caps[u].table, j);
        assert d != c && d in r.caps && HangsAt(r.caps[d], r.caps[u].table, j);
      }
    }
  }

  // ---------------------------------------------------------------- every operation keeps the correspondence

  lemma MapTableKeeps(s: State, t: Id, i: nat, c: Id)
    requires Inv(s) && t in s.caps && s.caps[t].Table?
    ensures Inv(MapTable(s, t, i, c).0)
  {
    if MapTable(s, t, i, c).1 {
      var T, C := s.caps[t], s.caps[c];
      var va := T.base + PageSize(T.level) * i;
      var k := C.(mapped := true, level := T.level - 1, base := va, parent := T.table);
      IndexOfEntry(T.base, T.level, i);
      EntryNext(C.table, Rights(false, false, false));
      AttachKeeps(s, t, i, c, k, TableEntry(C.table));
    }
  }

  lemma MapPageKeeps(s: State, t: Id, i: nat, c: Id, rights: Rights)
    requires Inv(s) && t in s.caps && s.caps[t].Table?
    ensures Inv(MapPage(s, t, i, c, rights).0)
  {
    if MapPage(s, t, i, c, rights).1 { PageAttaches(s, t, i, c, rights); }
  }

  /** The record that mapping a page leaves matches the entry. */
  lemma PageAttaches(s: State, t: Id, i: nat, c: Id, rights: Rights)
    requires Inv(s) && t in s.caps && s.caps[t].Table? && c in s.caps && s.caps[c].Page?
    requires s.caps[c].level == s.caps[t].level && i < ENTRIES
    requires !Hung(s.caps[c]) && !EntryAt(s, s.caps[t].table, i).on
    requires s.caps[t].base + PageSize(s.caps[c].level) * i < KERNEL_SPACE_BASE
    ensures
      var T, C := s.caps[t], s.caps[c];
      Inv(Attach(s, t, i, c,
        C.(mapped := true, rights := rights, index := i, address := T.base + PageSize(C.level) * i,
        parent := T.table),
                 PageEntry(rights, C.frame)))
  {
    var T, C := s.caps[t], s.caps[c];
    var k := C.(mapped := true, rights := rights, index := i, address := T.base + PageSize(C.level) * i,
      parent := T.table);
    IndexOfEntry(T.base, T.level, i);
    EntryNext(C.frame, rights);
    AttachKeeps(s, t, i, c, k, PageEntry(rights, C.frame));
  }

  /** Unmapping a table disables its own entry, although no parent is compared. */
  lemma UnmapTableKeeps(s: State, t: Id, i: nat, c: Id)
    requires Inv(s) && t in s.caps && s.caps[t].Table?
    ensures Inv(UnmapTable(s, t, i, c).0)
    ensures UnmapTable(s, t, i, c).1 ==>
      HangsAt(s.caps[c], s.caps[t].table, i) && UnmapTable(s, t, i, c).0 == Detach(s, c)
  {
    if UnmapTable(s, t, i, c).1 {
      OwnEntry(s, t, i, c);
      DetachKeeps(s, c);
    }
  }

  /** Unmapping a page disables its own entry exactly when the entry is in the user half. */
  lemma UnmapPageExact(s: State, t: Id, i: nat, c: Id)
    requires Inv(s) && t in s.caps && s.caps[t].Table? && UnmapPage(s, t, i, c).1
    ensures HangsAt(s.caps[c], s.caps[t].table, i) <==> UserHalf(s.caps[t], i)
    ensures UserHalf(s.caps[t], i) ==> UnmapPage(s, t, i, c).0 == Detach(s, c)
    ensures s.caps[t].level == s.caps[c].level ==> UserHalf(s.caps[t], i)
    ensures s.caps[t].level < MAX_LEVEL ==> UserHalf(s.caps[t], i)
  {
    assert UserHung(s, t, c);
    if UserHalf(s.caps[t], i) { OwnEntry(s, t, i, c); }
    if s.caps[t].level < MAX_LEVEL { WholeTable(s.caps[t], i); }
  }

  /** Remapping disables the page's own entry, and then maps the page. */
  lemma RemapPageKeeps(s: State, t: Id, i: nat, c: Id, rights: Rights, o: Id)
    requires Inv(s) && t in s.caps && s.caps[t].Table?
    ensures Inv(RemapPage(s, t, i, c, rights, o).0)
    ensures RemapPage(s, t, i, c, rights, o).1 ==>
      && HangsAt(s.caps[c], s.caps[o].table, s.caps[c].index)
      && RemapPage(s, t, i, c, rights, o).0 == MapPage(Detach(s, c), t, i, c, rights).0
      && MapPage(Detach(s, c), t, i, c, rights).1
  {
    if RemapPage(s, t, i, c, rights, o).1 {
      var C, O := s.caps[c], s.caps[o];
      PageInUserHalf(C, O);
      OwnEntry(s, o, C.index, c);
      DetachKeeps(s, c);
      MapPageKeeps(Detach(s, c), t, i, c, rights);
      RemapIsMap(s, t, i, c, rights, o);
    }
  }

  lemma RemapIsMap(s: State, t: Id, i: nat, c: Id, rights: Rights, o: Id)
    requires t in s.caps && s.caps[t].Table? && RemapPage(s, t, i, c, rights, o).1
    requires HangsAt(s.caps[c], s.caps[o].table, s.caps[c].index) && CapOk(s.caps[c])
    ensures MapPage(Detach(s, c), t, i, c, rights) == RemapPage(s, t, i, c, rights, o)
  {
    var m := Detach(s, c);
    assert !EntryAt(m, s.caps[t].table, i).on;
    assert m.caps[c := MapPage(m, t, i, c, rights).0.caps[c]] == s.caps[c := MapPage(m, t, i, c, rights).0.caps[c]];
  }

  /** The index of a mapped page is in the user half of every table of its level. */
  lemma PageInUserHalf(c: MapCap, t: MapCap)
    requires CapOk(c) && CapOk(t) && c.Page? && t.Table? && c.mapped && c.level == t.level
    ensures UserHalf(t, c.index)
  {
    if t.level < MAX_LEVEL {
      WholeTable(t, c.index);
    } else {
      assert PageSize(0) == 0x1000 && PageSize(1) == 0x20_0000 && PageSize(2) == 0x4000_0000;
    }
  }

  /**
   The recomputed entry is the right one: the assertions of destruction hold, and destroying keeps the correspondence.
   */
  lemma DestroyKeeps(s: State, c: Id)
    requires Inv(s) && c in s.caps
    ensures Destroyable(s, c) && Inv(Destroy(s, c))
  {
    assert HungOk(s, s.caps[c]);
    if Hung(s.caps[c]) {
      DetachKeeps(s, c);
      Forget(Detach(s, c), c);
      assert Detach(s, c).caps - {c} == s.caps - {c};
    } else {
      Forget(s, c);
    }
  }

  lemma Forget(s: State, c: Id)
    requires Inv(s) && c in s.caps && !Hung(s.caps[c])
    ensures Inv(s.(caps := s.caps - {c}))
  {
    var r := s.(caps := s.caps - {c});
    forall d | d in r.caps ensures CapOk(r.caps[d]) && HungOk(r, r.caps[d]) { assert HungOk(s, s.caps[d]); }
    forall d, e ensures OneFrame(r, d, e) { assert OneFrame(s, d, e); }
    forall t, d ensures UserHung(r, t, d) { assert UserHung(s, t, d); }
    forall t, i ensures EntryOk(r, t, i) {
      assert EntryOk(s, t, i);
      if t in r.caps && UserHalf(r.caps[t], i) && EntryAt(r, r.caps[t].table, i).on {
        var d :| d in s.caps && HangsAt(s.caps[d], s.caps[t].table, i);
        assert d in r.caps && HangsAt(r.caps[d], r.caps[t].table, i);
      }
    }
  }
}
