/** A task's capability space: pages of slots found through a three-level table, and the numbers that name slots. */
module CapSpaces {
  import opened Arith
  import opened Capability
  import opened Paging
  import CapCreate
  import CapRuns
  import Translation

  const CAP_SPACE_BASE: nat := 0x30_0000_0000
  const SLOTS: nat := CapCreate.SLOTS_PER_SPACE

  /** The entry of the root table for the capability space. */
  const TOP: nat := 192

  function SpaceAddress(i: nat): (va: nat) { CAP_SPACE_BASE + PAGE_SIZE * i }

  /** How the address of page number `i` splits into table indices. */
  lemma SpaceIndices(i: nat)
    requires i < ENTRIES * ENTRIES
    ensures Index(SpaceAddress(i), 2) == TOP && Index(SpaceAddress(i), 1) == i / ENTRIES
    ensures Index(SpaceAddress(i), 0) == i % ENTRIES
  {
    var va := SpaceAddress(i);
    assert PageSize(0) == 0x1000 && PageSize(1) == 0x20_0000 && PageSize(2) == 0x4000_0000;
    ModUnique(va, PageSize(2), TOP, PAGE_SIZE * i);
    DivMod(i, ENTRIES);
    var q, r := i / ENTRIES, i % ENTRIES;
    ModUnique(va, PageSize(1), TOP * ENTRIES + q, PAGE_SIZE * r);
    ModUnique(TOP * ENTRIES + q, ENTRIES, TOP, q);
    ModUnique(va, PageSize(0), (TOP * ENTRIES + q) * ENTRIES + r, 0);
    ModUnique((TOP * ENTRIES + q) * ENTRIES + r, ENTRIES, TOP * ENTRIES + q, r);
  }

  // ---------------------------------------------------------------- the layout

  /** The entry leads to the frame, for the kernel to read and write and for nobody else. */
  predicate Keeps(p: Pte, frame: nat) {
    p.on && p.rights.r && p.rights.w && !p.rights.x && !p.user && !p.global && Next(p) == frame
  }

  /** `mid` hangs below the root, the tables below `mid`. */
  ghost predicate TablesOk(s: State, root: nat, mid: nat, tables: seq<nat>) {
    && Keeps(EntryAt(s, root, TOP), mid)
    && root != mid && Distinct(tables) && |tables| < ENTRIES
    && (forall j :: 0 <= j < |tables| ==> tables[j] != mid && tables[j] != root)
    && (forall j :: 0 <= j < |tables| ==> Leads(EntryAt(s, mid, j), tables[j]))
    && (forall j :: |tables| <= j < ENTRIES ==> !EntryAt(s, mid, j).on)
  }

  /** The entry for page number `i`. */
  function PageEntryAt(s: State, tables: seq<nat>, i: nat): (p: Pte)
    requires i / ENTRIES < |tables|
  {
    EntryAt(s, tables[i / ENTRIES], i % ENTRIES)
  }

  /** The entries hold exactly the pages, in order, and each page knows its number. */
  ghost predicate PagesOk(s: State, tables: seq<nat>, pages: seq<nat>, index: map<nat, nat>) {
    && |pages| <= ENTRIES * |tables| && Distinct(pages)
    && (forall i: nat :: i < ENTRIES * |tables| ==> i / ENTRIES < |tables|)
    && (forall i: nat :: i < |pages| ==> Keeps(PageEntryAt(s, tables, i), pages[i]))
    && (forall i: nat :: |pages| <= i < ENTRIES * |tables| ==> !PageEntryAt(s, tables, i).on)
    && (forall i: nat :: i < |pages| ==> pages[i] % PAGE_SIZE == 0 && pages[i] in index && index[pages[i]] == i)
  }

  ghost predicate Layout(s: State, root: nat, mid: nat, tables: seq<nat>, pages: seq<nat>, index: map<nat, nat>) {
    TablesOk(s, root, mid, tables) && PagesOk(s, tables, pages, index)
  }

  // ---------------------------------------------------------------- descriptors and slots

  datatype Found = Missing | Slot(address: nat)

  /** `lookup_cap` of a live task, up to the test for a null capability. */
  function Lookup(s: State, root: nat, spaces: nat, desc: nat): (f: Found) {
    if desc >= spaces * SLOTS then Missing
    else
      LookupAt(s, root, MAX_LEVEL, SpaceAddress(desc / SLOTS), desc % SLOTS)
  }

  /** `get_cap_slot_index`. */
  function SlotIndex(index: map<nat, nat>, slot: nat): (d: int) {
    var page := FloorTo(slot, PAGE_SIZE);
    if page in index then SLOTS * index[page] + (slot - (page + CapRuns.SPACE_HEADER)) / CapRuns.SLOT_SIZE else -1
  }

  lemma DescSplit(i: nat, j: nat)
    requires j < SLOTS
    ensures (SLOTS * i + j) / SLOTS == i && (SLOTS * i + j) % SLOTS == j
  {
    ModUnique(SLOTS * i + j, SLOTS, i, j);
  }

  lemma SlotPage(page: nat, j: nat)
    requires page % PAGE_SIZE == 0 && j < SLOTS
    ensures FloorTo(CapRuns.SlotAt(page, j), PAGE_SIZE) == page
    ensures (CapRuns.SlotAt(page, j) - (page + CapRuns.SPACE_HEADER)) / CapRuns.SLOT_SIZE == j
  {
    DivMod(page, PAGE_SIZE);
    ModUnique(CapRuns.SlotAt(page, j), PAGE_SIZE, page / PAGE_SIZE, CapRuns.SPACE_HEADER + CapRuns.SLOT_SIZE * j);
  }

  /** Every descriptor below the capacity finds the slot it names. */
  lemma LookupFinds(s: State, root: nat, mid: nat, tables: seq<nat>, pages: seq<nat>, index: map<nat, nat>, desc: nat)
    requires Layout(s, root, mid, tables, pages, index)
    ensures desc < |pages| * SLOTS ==>
      && desc / SLOTS < |pages|
      && Lookup(s, root, |pages|, desc) == Slot(CapRuns.SlotAt(pages[desc / SLOTS], desc % SLOTS))
    ensures desc >= |pages| * SLOTS ==> Lookup(s, root, |pages|, desc) == Missing
  {
    if desc < |pages| * SLOTS {
      var i := desc / SLOTS;
      assert i < |pages|;
      SpaceIndices(i);
      var p := PageEntryAt(s, tables, i);
    }
  }

  /** No user access translates in the addresses of a capability space. */
  lemma SpaceHidden(s: State, root: nat, mid: nat, tables: seq<nat>, pages: seq<nat>, index: map<nat, nat>, va: nat)
    requires Layout(s, root, mid, tables, pages, index)
    requires CAP_SPACE_BASE <= va < CAP_SPACE_BASE + PageSize(MAX_LEVEL)
    ensures Translation.Walk(s, root, MAX_LEVEL, va) == Translation.Fault
  {
    assert PageSize(0) == 0x1000 && PageSize(1) == 0x20_0000 && PageSize(2) == 0x4000_0000;
    assert Index(va, MAX_LEVEL) == TOP;
  }

  /** A slot's number leads back to the slot. */
  lemma IndexThenLookup(s: State, root: nat, mid: nat, tables: seq<nat>, pages: seq<nat>, index: map<nat, nat>,
      i: nat, j: nat)
    requires Layout(s, root, mid, tables, pages, index) && i < |pages| && j < SLOTS
    ensures
      var d := SlotIndex(index, CapRuns.SlotAt(pages[i], j));
      0 <= d < |pages| * SLOTS && Lookup(s, root, |pages|, d) == Slot(CapRuns.SlotAt(pages[i], j))
  {
    hide Lookup, TablesOk, Keeps;
    SlotPage(pages[i], j);
    DescSplit(i, j);
    MulLe(i + 1, |pages|, SLOTS);
    LookupFinds(s, root, mid, tables, pages, index, SLOTS * i + j);
  }

  /** The slot that a number finds has that number. */
  lemma LookupThenIndex(s: State, root: nat, mid: nat, tables: seq<nat>, pages: seq<nat>, index: map<nat, nat>,
      desc: nat)
    requires Layout(s, root, mid, tables, pages, index) && desc < |pages| * SLOTS
    ensures
      var f := Lookup(s, root, |pages|, desc);
      f.Slot? && SlotIndex(index, f.address) == desc
  {
    LookupFinds(s, root, mid, tables, pages, index, desc);
    SlotPage(pages[desc / SLOTS], desc % SLOTS);
    DivMod(desc, SLOTS);
  }

  // ---------------------------------------------------------------- growing the space

  /** Two page numbers with the same table and the same entry are one. */
  lemma SamePlace(tables: seq<nat>, i: nat, k: nat)
    requires Distinct(tables) && i / ENTRIES < |tables| && k / ENTRIES < |tables|
    requires tables[i / ENTRIES] == tables[k / ENTRIES] && i % ENTRIES == k % ENTRIES
    ensures i == k
  {
    assert i / ENTRIES == k / ENTRIES;
    DivMod(i, ENTRIES);
    DivMod(k, ENTRIES);
  }

  /** Page number `n` is put in its entry. */
  lemma InsertLayout(s: State, root: nat, mid: nat, tables: seq<nat>, pages: seq<nat>, index: map<nat, nat>,
      page: nat, p: Pte)
    requires Layout(s, root, mid, tables, pages, index) && |pages| < ENTRIES * |tables|
    requires page % PAGE_SIZE == 0 && page !in pages && Keeps(p, page)
    ensures |pages| / ENTRIES < |tables|
    ensures Layout(SetEntry(s, tables[|pages| / ENTRIES], |pages| % ENTRIES, p), root, mid, tables, pages + [page],
      index[page := |pages|])
  {
    var n := |pages|;
    var t, pages' := tables[n / ENTRIES], pages + [page];
    var r := SetEntry(s, t, n % ENTRIES, p);
    assert t != mid && t != root;
    forall j | 0 <= j < ENTRIES ensures EntryAt(r, mid, j) == EntryAt(s, mid, j) { }
    assert TablesOk(r, root, mid, tables);
    forall i: nat | i < ENTRIES * |tables|
      ensures PageEntryAt(r, tables, i) == if i == n then p else PageEntryAt(s, tables, i)
    {
      if tables[i / ENTRIES] == t && i % ENTRIES == n % ENTRIES { SamePlace(tables, i, n); }
    }
    forall i: nat | i < |pages'|
      ensures pages'[i] % PAGE_SIZE == 0 && pages'[i] in index[page := n] && index[page := n][pages'[i]] == i
    {
      if i < n { assert pages'[i] == pages[i] && pages[i] in pages; }
    }
  }

  /** One more table, all of its entries disabled. */
  lemma ExtendLayout(s: State, root: nat, mid: nat, tables: seq<nat>, pages: seq<nat>, index: map<nat, nat>,
      table: nat, p: Pte)
    requires Layout(s, root, mid, tables, pages, index) && |tables| < ENTRIES - 1
    requires table !in tables && table != root && table != mid && Leads(p, table)
    requires forall j :: 0 <= j < ENTRIES ==> !EntryAt(s, table, j).on
    ensures Layout(SetEntry(s, mid, |tables|, p), root, mid, tables + [table], pages, index)
  {
    var n, tables' := |tables|, tables + [table];
    var r := SetEntry(s, mid, n, p);
    forall j | 0 <= j < |tables'| ensures Leads(EntryAt(r, mid, j), tables'[j]) {
      if j < n { assert EntryAt(r, mid, j) == EntryAt(s, mid, j) && tables'[j] == tables[j]; }
    }
    forall j | 0 <= j < |tables'|
      ensures tables'[j] != mid && tables'[j] != root
    {
      if j < n { assert tables'[j] == tables[j]; }
    }
    forall j | |tables'| <= j < ENTRIES
      ensures !EntryAt(r, mid, j).on
    {
      assert EntryAt(r, mid, j) == EntryAt(s, mid, j);
    }
    assert TablesOk(r, root, mid, tables');
    forall i: nat | i < ENTRIES * |tables'| ensures i / ENTRIES < |tables'| { }
    forall i: nat | i < ENTRIES * |tables'|
      ensures PageEntryAt(r, tables', i) ==
        if i < ENTRIES * n then PageEntryAt(s, tables, i) else EntryAt(s, table, i % ENTRIES)
    {
      if i < ENTRIES * n { assert tables'[i / ENTRIES] == tables[i / ENTRIES]; } else { assert i / ENTRIES == n; }
    }
  }

  datatype Outcome = Inserted | Refused | Halted

  /** `memset` of a table. */
  function Zeroed(s: State, table: nat): (r: State) {
    s.(ptes := map e | e in s.ptes && e.0 != table :: s.ptes[e])
  }

  /** The number of largest pages in the kernel's view of physical memory. */
  const VIEW: nat := 64

  /** The entry for the `i`th largest page of physical memory. */
  function ViewEntry(i: nat): (p: Pte) {
    Pte(true, Rights(true, true, true), false, true, i * PageSize(MAX_LEVEL) / PAGE_SIZE)
  }

  /** The entry leads to the `i`th largest page, for the kernel to do everything with, in all address spaces. */
  predicate Shows(p: Pte, i: nat) {
    p.on && p.rights.r && p.rights.w && p.rights.x && !p.user && p.global && Next(p) == i * PageSize(MAX_LEVEL)
  }

  lemma ViewShows(i: nat)
    ensures Shows(ViewEntry(i), i)
  {
    assert PageSize(0) == 0x1000 && PageSize(1) == 0x20_0000 && PageSize(2) == 0x4000_0000;
  }

  /** From the first kernel entry on, the root maps physical memory. */
  ghost predicate KernelView(s: State, root: nat) {
    forall j: nat :: ENTRIES / 4 <= j < ENTRIES / 4 + VIEW ==> Shows(EntryAt(s, root, j), j - ENTRIES / 4)
  }

  /** No entry but the first `n` of the kernel's view in the root changed. */
  ghost predicate OnlyView(s: State, root: nat, n: nat, r: State) {
    forall t: nat, j: nat ::
      t != root || j < ENTRIES / 4 || ENTRIES / 4 + n <= j ==> EntryAt(r, t, j) == EntryAt(s, t, j)
  }

  /** The first loop of `init_task`; each entry it fills was disabled. */
  method FillKernelView(s: State, root: nat) returns (r: State)
    requires forall j: nat :: !EntryAt(s, root, j).on
    ensures KernelView(r, root) && OnlyView(s, root, VIEW, r)
  {
    r := s;
    var n: nat := 0;
    while n < VIEW
      invariant n <= VIEW && OnlyView(s, root, n, r)
      invariant forall j: nat ::
        ENTRIES / 4 <= j < ENTRIES / 4 + n ==> Shows(EntryAt(r, root, j), j - ENTRIES / 4)
    {
      ViewIndex(n);
      var i := Index(KERNEL_SPACE_BASE + n * PageSize(MAX_LEVEL), MAX_LEVEL);
      assert !EntryAt(r, root, i).on;
      ghost var before := r;
      r := SetEntry(r, root, i, ViewEntry(n));
      ViewShows(n);
      forall j: nat | ENTRIES / 4 <= j < ENTRIES / 4 + n + 1 ensures Shows(EntryAt(r, root, j), j - ENTRIES / 4) {
        assert j != i ==> EntryAt(r, root, j) == EntryAt(before, root, j);
      }
      n := n + 1;
    }
  }

  /** The kernel's view of the `n`th largest page is translated by this entry of the root. */
  lemma ViewIndex(n: nat)
    requires n < VIEW
    ensures Index(KERNEL_SPACE_BASE + n * PageSize(MAX_LEVEL), MAX_LEVEL) == ENTRIES / 4 + n
  {
    assert PageSize(0) == 0x1000 && PageSize(1) == 0x20_0000 && PageSize(2) == 0x4000_0000;
  }

  class Space {
    const root: nat
    var s: State
    var spaces: nat
    var extensions: nat
    var index: map<nat, nat>
    ghost const mid: nat
    ghost var tables: seq<nat>
    ghost var pages: seq<nat>

    ghost predicate Valid()
      reads this
    {
      Layout(s, root, mid, tables, pages, index) && spaces == |pages| && extensions == |tables|
    }

    /**
     What `init_task` leaves: the kernel's view of physical memory, the inner table below the root, one table of spaces
     below it, and the first space; all three tables are zeroed first.
     */
    constructor (memory: State, root: nat, mid: nat, table: nat, page: nat)
      requires mid % PAGE_SIZE == 0 && table % PAGE_SIZE == 0 && page % PAGE_SIZE == 0
      requires root != mid && table != root && table != mid
      ensures Valid() && this.root == root && this.mid == mid && tables == [table] && pages == [page]
      ensures KernelView(s, root)
    {
      DivMod(mid, PAGE_SIZE);
      this.root, this.mid := root, mid;
      var zeroed := Zeroed(Zeroed(Zeroed(memory, root), mid), table);
      var filled := FillKernelView(zeroed, root);
      assert !EntryAt(filled, root, TOP).on;
      s := SetEntry(filled, root, TOP, Pte(true, Rights(true, true, false), false, false, mid / PAGE_SIZE));
      spaces, extensions, index, tables, pages := 0, 0, map[], [], [];
      new;
      forall j: nat ensures !EntryAt(s, mid, j).on && !EntryAt(s, table, j).on {
        assert EntryAt(s, mid, j) == EntryAt(zeroed, mid, j) && EntryAt(s, table, j) == EntryAt(zeroed, table, j);
      }
      var ok := ExtendCapSpace(table);
      var out := InsertCapSpace(page);
      forall j: nat | ENTRIES / 4 <= j < ENTRIES / 4 + VIEW ensures Shows(EntryAt(s, root, j), j - ENTRIES / 4) {
        assert EntryAt(s, root, j) == EntryAt(filled, root, j);
      }
    }

    /**
     `insert_cap_space`: with all tables full its test lets the call through, and an assertion on the missing table
     fails.
     */
    method InsertCapSpace(page: nat) returns (out: Outcome)
      requires Valid() && page % PAGE_SIZE == 0 && page !in pages
      modifies this
      ensures Valid() && tables == old(tables)
      ensures forall j: nat :: EntryAt(s, root, j) == EntryAt(old(s), root, j)
      ensures out.Inserted? <==> old(spaces) < ENTRIES * old(extensions)
      ensures out.Halted? <==> old(spaces) == ENTRIES * old(extensions)
      ensures pages == if out.Inserted? then old(pages) + [page] else old(pages)
    {
      if spaces / ENTRIES > extensions {
        return Refused;
      }
      SpaceIndices(spaces);
      var va := SpaceAddress(spaces);
      var p2 := EntryAt(s, root, Index(va, 2));
      assert p2.on;
      var p1 := EntryAt(s, Next(p2), Index(va, 1));
      if !p1.on {
        return Halted;
      }
      assert PageEntryAt(s, tables, spaces) == EntryAt(s, Next(p1), Index(va, 0));
      assert !EntryAt(s, Next(p1), Index(va, 0)).on;
      var p := Pte(true, Rights(true, true, false), false, false, page / PAGE_SIZE);
      DivMod(page, PAGE_SIZE);
      InsertLayout(s, root, mid, tables, pages, index, page, p);
      s := SetEntry(s, Next(p1), Index(va, 0), p);
      index := index[page := spaces];
      spaces := spaces + 1;
      pages := pages + [page];
      return Inserted;
    }

    /** `extend_cap_space`: at most 511 tables, and false when there are as many. */
    method ExtendCapSpace(table: nat) returns (ok: bool)
      requires Valid() && table % PAGE_SIZE == 0 && table !in tables && table != root && table != mid
      requires forall j :: 0 <= j < ENTRIES ==> !EntryAt(s, table, j).on
      modifies this
      ensures Valid() && pages == old(pages)
      ensures forall j: nat :: EntryAt(s, root, j) == EntryAt(old(s), root, j)
      ensures ok <==> old(extensions) < ENTRIES - 1
      ensures tables == if ok then old(tables) + [table] else old(tables)
    {
      if extensions == ENTRIES - 1 {
        return false;
      }
      ExtendIndices(extensions);
      var va := CAP_SPACE_BASE + PAGE_SIZE * ENTRIES * extensions;
      var p2 := EntryAt(s, root, Index(va, 2));
      assert p2.on;
      assert !EntryAt(s, Next(p2), Index(va, 1)).on;
      EntryGrants(Rights(false, false, false), table);
      ExtendLayout(s, root, mid, tables, pages, index, table, TableEntry(table));
      s := SetEntry(s, Next(p2), Index(va, 1), TableEntry(table));
      extensions := extensions + 1;
      tables := tables + [table];
      return true;
    }

    /** `lookup_cap` of a live task: exactly the numbers of occupied slots find them. */
    method LookupCap(desc: nat, occupied: set<nat>) returns (f: Found)
      requires Valid()
      ensures
        var found := Lookup(s, root, spaces, desc);
        f.Slot? <==> desc < spaces * SLOTS && found.Slot? && found.address in occupied
      ensures f.Slot? ==> f == Lookup(s, root, spaces, desc) && SlotIndex(index, f.address) == desc
    {
      LookupFinds(s, root, mid, tables, pages, index, desc);
      if desc >= spaces * SLOTS {
        return Missing;
      }
      LookupThenIndex(s, root, mid, tables, pages, index, desc);
      f := WalkSpace(SpaceAddress(desc / SLOTS), desc % SLOTS);
      if f.address !in occupied {
        return Missing;
      }
    }

    /** The loop of `lookup_cap` over the levels. */
    method WalkSpace(va: nat, slot: nat) returns (f: Found)
      ensures f == LookupAt(s, root, 2, va, slot)
    {
      var table, level: nat := root, MAX_LEVEL;
      while true
        invariant LookupAt(s, table, level, va, slot) == LookupAt(s, root, 2, va, slot)
        decreases level
      {
        var p := EntryAt(s, table, Index(va, level));
        if !p.on {
          return Missing;
        }
        table := Next(p);
        if level == 0 {
          return Slot(CapRuns.SlotAt(table, slot));
        }
        level := level - 1;
      }
    }
  }

  /** The walk from a table on the given level. */
  function LookupAt(s: State, table: nat, level: nat, va: nat, slot: nat): (f: Found)
    decreases level
  {
    var p := EntryAt(s, table, Index(va, level));
    if !p.on then Missing
    else if level == 0 then Slot(CapRuns.SlotAt(Next(p), slot))
    else LookupAt(s, Next(p), level - 1, va, slot)
  }

  lemma ExtendIndices(n: nat)
    requires n < ENTRIES
    ensures var va := CAP_SPACE_BASE + PAGE_SIZE * ENTRIES * n; Index(va, 2) == TOP && Index(va, 1) == n
  {
    SpaceIndices(ENTRIES * n);
    ModUnique(ENTRIES * n, ENTRIES, n, 0);
    assert SpaceAddress(ENTRIES * n) == CAP_SPACE_BASE + PAGE_SIZE * ENTRIES * n;
  }
}
