/** What the page tables mean: the walk that translates an address, and how the mapping operations change it. */
module Translation {
  import opened Arith
  import opened Capability
  import opened Paging

  const MAX_VIRTUAL_ADDRESS: nat := 0x40_0000_0000

  datatype Walked = Fault | Leaf(p: Pte, level: nat)

  /** `walk` of `user_memory.cpp`, from the table that the given level reached. */
  function Walk(s: State, table: nat, level: nat, va: nat): (w: Walked)
    decreases level
  {
    var p := EntryAt(s, table, Index(va, level));
    if !p.on then Fault
    else if IsTable(p) then if level == 0 then Fault else Walk(s, Next(p), level - 1, va)
    else if p.user then Leaf(p, level)
    else Fault
  }

  /** The loop of `walk`. */
  method WalkLoop(s: State, root: nat, va: nat) returns (w: Walked)
    requires va < MAX_VIRTUAL_ADDRESS
    ensures w == Walk(s, root, MAX_LEVEL, va)
  {
    var table, level: nat := root, MAX_LEVEL;
    var p := EntryAt(s, table, Index(va, level));
    while p.on && IsTable(p) && level > 0
      invariant level <= MAX_LEVEL && p == EntryAt(s, table, Index(va, level))
      invariant Walk(s, table, level, va) == Walk(s, root, MAX_LEVEL, va)
      decreases level
    {
      table, level := Next(p), level - 1;
      p := EntryAt(s, table, Index(va, level));
    }
    if !p.on || IsTable(p) || !p.user {
      return Fault;
    }
    return Leaf(p, level);
  }

  // ---------------------------------------------------------------- tables hang where they say

  predicate InTable(c: MapCap, va: nat) {
    c.Table? && c.base <= va < c.base + PageSize(c.level + 1)
  }

  /** What is mapped in a table is one level down, at the address of its entry. */
  predicate TreeAt(s: State, t: Id, c: Id) {
    t in s.caps && c in s.caps && s.caps[t].Table? && Hung(s.caps[c]) && s.caps[c].parent == s.caps[t].table ==>
      var T, C := s.caps[t], s.caps[c];
      if C.Table? then C.level + 1 == T.level && C.base == T.base + PageSize(T.level) * SlotOf(C)
      else C.level == T.level && C.address == T.base + PageSize(T.level) * SlotOf(C)
  }

  /** Where a kernel-half entry that is a table leads. */
  predicate KernelEntry(s: State, kernel: set<nat>, table: nat, i: nat) {
    IsTable(EntryAt(s, table, i)) ==> Next(EntryAt(s, table, i)) in kernel
  }

  /**
   `kernel` holds the tables of the kernel's half: no capability's table is among them, and their entries stay among
   them.
   */
  ghost predicate KernelTables(s: State, kernel: set<nat>) {
    && (forall c :: c in s.caps && s.caps[c].Table? ==> s.caps[c].table !in kernel)
    && (forall k, i :: k in kernel ==> KernelEntry(s, kernel, k, i))
    && (forall t, i: nat :: t in s.caps && s.caps[t].Table? && i < ENTRIES && !UserHalf(s.caps[t], i) ==>
          KernelEntry(s, kernel, s.caps[t].table, i))
  }

  ghost predicate Tree(s: State, kernel: set<nat>) {
    && Inv(s)
    && (forall t, c :: TreeAt(s, t, c))
    && KernelTables(s, kernel)
  }

  /** The walk of an address of a table goes on in the range of one of its entries. */
  lemma EntryRange(base: nat, level: nat, va: nat)
    requires base % PageSize(level + 1) == 0 && base <= va < base + PageSize(level + 1)
    ensures
      var a := base + PageSize(level) * Index(va, level);
      a <= va < a + PageSize(level)
  {
    var n, q, d := PageSize(level), base / PageSize(level + 1), va - base;
    DivMod(base, PageSize(level + 1));
    assert base == q * (ENTRIES * n);
    DivMod(d, n);
    var j := d / n;
    if j >= ENTRIES { MulLe(ENTRIES, j, n); }
    Regroup(q, n, j);
    assert j * n == n * j;
    ModUnique(va, n, q * ENTRIES + j, d % n);
    ModUnique(q * ENTRIES + j, ENTRIES, q, j);
  }

  /** And that entry is the only one with the address in its range. */
  lemma RangeEntry(base: nat, level: nat, i: nat, va: nat)
    requires base % PageSize(level + 1) == 0 && i < ENTRIES
    requires base + PageSize(level) * i <= va < base + PageSize(level) * i + PageSize(level)
    ensures Index(va, level) == i && base <= va < base + PageSize(level + 1)
  {
    var n, q := PageSize(level), base / PageSize(level + 1);
    DivMod(base, PageSize(level + 1));
    Regroup(q, n, i);
    ModUnique(va, n, q * ENTRIES + i, va - base - n * i);
    ModUnique(q * ENTRIES + i, ENTRIES, q, i);
    MulLe(i + 1, ENTRIES, n);
    assert (i + 1) * n == n * i + n;
  }

  /**
   From a table with a capability, an enabled table entry of the user half leads to another, whose range has the
   address.
   */
  lemma Descend(s: State, kernel: set<nat>, u: Id, va: nat) returns (c: Id)
    requires Tree(s, kernel) && u in s.caps && InTable(s.caps[u], va)
    requires var i := Index(va, s.caps[u].level); UserHalf(s.caps[u], i) && IsTable(EntryAt(s, s.caps[u].table, i))
    ensures c in s.caps && s.caps[c].Table? && InTable(s.caps[c], va) && s.caps[c].level + 1 == s.caps[u].level
    ensures s.caps[c].table == Next(EntryAt(s, s.caps[u].table, Index(va, s.caps[u].level)))
    ensures HangsAt(s.caps[c], s.caps[u].table, Index(va, s.caps[u].level))
  {
    var U, i := s.caps[u], Index(va, s.caps[u].level);
    assert EntryOk(s, u, i);
    c :| c in s.caps && HangsAt(s.caps[c], U.table, i);
    assert HungOk(s, s.caps[c]) && TreeAt(s, u, c);
    EntryRange(U.base, U.level, va);
  }

  // ---------------------------------------------------------------- switching one entry on

  /** The walk of `va` comes to the given table on the given level. */
  function Hits(s: State, table: nat, level: nat, va: nat, t: nat, l: nat): (b: bool)
    decreases level
  {
    || (table == t && level == l)
    || (level > 0 && var p := EntryAt(s, table, Index(va, level)); IsTable(p) && Hits(s, Next(p), level - 1, va, t, l))
  }

  /**
   An address translates exactly to an enabled user entry, not a table's, at its index in a table that its walk comes
   to.
   */
  lemma {:induction false} WalkExactly(s: State, table: nat, level: nat, va: nat, p: Pte, l: nat)
    ensures Walk(s, table, level, va) == Leaf(p, l) <==>
      exists t :: Hits(s, table, level, va, t, l) && p == EntryAt(s, t, Index(va, l)) && p.on && p.user && !IsTable(p)
    decreases level
  {
    var q := EntryAt(s, table, Index(va, level));
    if level > 0 && IsTable(q) { WalkExactly(s, Next(q), level - 1, va, p, l); }
    if Walk(s, table, level, va) == Leaf(p, l) && !IsTable(q) { assert Hits(s, table, level, va, table, l); }
    forall t | Hits(s, table, level, va, t, l) && p == EntryAt(s, t, Index(va, l)) && p.on && p.user && !IsTable(p)
      ensures Walk(s, table, level, va) == Leaf(p, l)
    {
      if !(table == t && level == l) { assert Hits(s, Next(q), level - 1, va, t, l); }
    }
    if Walk(s, table, level, va) == Leaf(p, l) && IsTable(q) {
      var t :| Hits(s, Next(q), level - 1, va, t, l) && p == EntryAt(s, t, Index(va, l));
      assert Hits(s, table, level, va, t, l);
    }
  }

  /** `r` has an entry for a page where `s` has a disabled one. */
  ghost predicate SwitchedOn(s: State, t: Id, i: nat, p: Pte, r: State) {
    && t in s.caps && UserHalf(s.caps[t], i)
    && !EntryAt(s, s.caps[t].table, i).on && p.on && p.user
    && (forall e :: EntryAt(r, e, i) == if e == s.caps[t].table then p else EntryAt(s, e, i))
    && (forall e, j :: j != i ==> EntryAt(r, e, j) == EntryAt(s, e, j))
  }

  /** Entries of the kernel's tables are as they were, so addresses that lead there translate as they did. */
  lemma KernelWalk(s: State, kernel: set<nat>, r: State, table: nat, level: nat, va: nat)
    requires Tree(s, kernel) && table in kernel
    requires forall e, j :: e in kernel ==> EntryAt(r, e, j) == EntryAt(s, e, j)
    ensures Walk(r, table, level, va) == Walk(s, table, level, va)
    decreases level
  {
    var p := EntryAt(s, table, Index(va, level));
    assert KernelEntry(s, kernel, table, Index(va, level));
    if IsTable(p) && level > 0 { KernelWalk(s, kernel, r, Next(p), level - 1, va); }
  }

  lemma KernelHits(s: State, kernel: set<nat>, table: nat, level: nat, va: nat, t: nat, l: nat)
    requires Tree(s, kernel) && table in kernel && t !in kernel
    ensures !Hits(s, table, level, va, t, l)
    decreases level
  {
    var p := EntryAt(s, table, Index(va, level));
    assert KernelEntry(s, kernel, table, Index(va, level));
    if IsTable(p) && level > 0 { KernelHits(s, kernel, Next(p), level - 1, va, t, l); }
  }

  /**
   From a table with a capability: exactly the walks that come to the switched entry change, from a fault to that
   entry.
   */
  ghost predicate WalkSwitched(s: State, t: Id, i: nat, p: Pte, r: State, table: nat, level: nat, va: nat)
    requires t in s.caps && s.caps[t].Table?
  {
    var T := s.caps[t];
    if Hits(s, table, level, va, T.table, T.level) && Index(va, T.level) == i then
      Walk(r, table, level, va) == Leaf(p, T.level) && Walk(s, table, level, va) == Fault
    else Walk(r, table, level, va) == Walk(s, table, level, va)
  }

  lemma SwitchWalk(s: State, kernel: set<nat>, t: Id, i: nat, p: Pte, r: State, u: Id, va: nat)
    requires Tree(s, kernel) && SwitchedOn(s, t, i, p, r)
    requires u in s.caps && InTable(s.caps[u], va) && UserHalf(s.caps[u], Index(va, s.caps[u].level))
    ensures WalkSwitched(s, t, i, p, r, s.caps[u].table, s.caps[u].level, va)
    decreases if u in s.caps then s.caps[u].level else 0
  {
    var U, T, n := s.caps[u], s.caps[t], Index(va, s.caps[u].level);
    assert OneFrame(s, u, t);
    if IsTable(EntryAt(s, U.table, n)) && U.level > 0 {
      var c := Descend(s, kernel, u, va);
      WholeTable(s.caps[c], Index(va, s.caps[c].level));
      SwitchWalk(s, kernel, t, i, p, r, c, va);
    }
  }

  /** The same for every address that a root table translates, the kernel's included. */
  lemma SwitchRoot(s: State, kernel: set<nat>, t: Id, i: nat, p: Pte, r: State, root: Id, va: nat)
    requires Tree(s, kernel) && SwitchedOn(s, t, i, p, r) && IsRoot(s, root) && va < MAX_VIRTUAL_ADDRESS
    ensures WalkSwitched(s, t, i, p, r, s.caps[root].table, MAX_LEVEL, va)
    ensures va >= KERNEL_SPACE_BASE ==>
      Walk(r, s.caps[root].table, MAX_LEVEL, va) == Walk(s, s.caps[root].table, MAX_LEVEL, va)
  {
    var R, n := s.caps[root], Index(va, MAX_LEVEL);
    RootRange(R, va);
    if va < KERNEL_SPACE_BASE {
      SwitchWalk(s, kernel, t, i, p, r, root, va);
    } else {
      assert KernelEntry(s, kernel, R.table, n);
      assert OneFrame(s, root, t);
      var q := EntryAt(s, R.table, n);
      if IsTable(q) {
        KernelWalk(s, kernel, r, Next(q), MAX_LEVEL - 1, va);
        KernelHits(s, kernel, Next(q), MAX_LEVEL - 1, va, s.caps[t].table, s.caps[t].level);
      }
    }
  }

  predicate IsRoot(s: State, root: Id) {
    root in s.caps && s.caps[root].Table? && s.caps[root].level == MAX_LEVEL
  }

  lemma RootRange(c: MapCap, va: nat)
    requires CapOk(c) && c.Table? && c.level == MAX_LEVEL && va < MAX_VIRTUAL_ADDRESS
    ensures InTable(c, va) && (UserHalf(c, Index(va, MAX_LEVEL)) <==> va < KERNEL_SPACE_BASE)
  {
    assert PageSize(0) == 0x1000 && PageSize(1) == 0x20_0000 && PageSize(2) == 0x4000_0000;
    assert PageSize(3) == 0x80_0000_0000;
    EntryRange(0, MAX_LEVEL, va);
  }

  // ---------------------------------------------------------------- the addresses whose walk comes to a table

  /** The table is reached from the root by the walk of its own recorded address. */
  predicate Attached(s: State, root: Id, t: Id)
    requires root in s.caps && s.caps[root].Table? && t in s.caps && s.caps[t].Table?
  {
    Hits(s, s.caps[root].table, MAX_LEVEL, s.caps[t].base, s.caps[t].table, s.caps[t].level)
  }

  lemma HitsInRange(s: State, kernel: set<nat>, u: Id, va: nat, t: Id)
    requires Tree(s, kernel) && t in s.caps && s.caps[t].Table?
    requires u in s.caps && InTable(s.caps[u], va) && UserHalf(s.caps[u], Index(va, s.caps[u].level))
    requires Hits(s, s.caps[u].table, s.caps[u].level, va, s.caps[t].table, s.caps[t].level)
    ensures InTable(s.caps[t], va)
    decreases if u in s.caps then s.caps[u].level else 0
  {
    var U, T := s.caps[u], s.caps[t];
    assert OneFrame(s, u, t);
    if u != t {
      var c := Descend(s, kernel, u, va);
      WholeTable(s.caps[c], Index(va, s.caps[c].level));
      HitsInRange(s, kernel, c, va, t);
    }
  }

  lemma NoHitsBelow(s: State, table: nat, level: nat, va: nat, t: nat, l: nat)
    requires level < l
    ensures !Hits(s, table, level, va, t, l)
    decreases level
  {
    if level > 0 { NoHitsBelow(s, Next(EntryAt(s, table, Index(va, level))), level - 1, va, t, l); }
  }

  lemma HitsSame(s: State, table: nat, level: nat, va: nat, vb: nat, t: nat, l: nat)
    requires forall m :: l < m <= level ==> Index(va, m) == Index(vb, m)
    ensures Hits(s, table, level, va, t, l) == Hits(s, table, level, vb, t, l)
    decreases level
  {
    if level > 0 {
      var x, y := Next(EntryAt(s, table, Index(va, level))), Next(EntryAt(s, table, Index(vb, level)));
      if level <= l {
        NoHitsBelow(s, x, level - 1, va, t, l);
        NoHitsBelow(s, y, level - 1, vb, t, l);
      } else {
        HitsSame(s, x, level - 1, va, vb, t, l);
      }
    }
  }

  lemma DivDiv(w: nat, a: nat, b: nat)
    requires a > 0 && b > 0
    ensures b * a > 0 && w / (b * a) == w / a / b
  {
    var q := w / a;
    DivMod(w, a);
    DivMod(q, b);
    var x, y := q / b, q % b;
    assert w == q * a + w % a && q == x * b + y;
    MulLe(y + 1, b, a);
    assert (y + 1) * a == y * a + a;
    Spread(x, b, y, a);
    ModUnique(w, b * a, x, y * a + w % a);
  }

  lemma Spread(x: nat, b: nat, y: nat, a: nat)
    ensures (x * b + y) * a == x * (b * a) + y * a
  {
  }

  /** Addresses of one table have the same index on every level above it. */
  lemma SamePage(base: nat, l: nat, va: nat, m: nat)
    requires base % PageSize(l + 1) == 0 && base <= va < base + PageSize(l + 1) && l < m
    ensures va / PageSize(m) == base / PageSize(m)
    decreases m
  {
    if m == l + 1 {
      var n := PageSize(m);
      DivMod(base, n);
      ModUnique(va, n, base / n, va - base);
    } else {
      SamePage(base, l, va, m - 1);
      DivDiv(va, PageSize(m - 1), ENTRIES);
      DivDiv(base, PageSize(m - 1), ENTRIES);
    }
  }

  /** An address comes to an attached table exactly when it is in the table's range. */
  lemma HitsExactly(s: State, kernel: set<nat>, root: Id, t: Id, va: nat)
    requires Tree(s, kernel) && IsRoot(s, root) && t in s.caps && s.caps[t].Table? && va < KERNEL_SPACE_BASE
    ensures Hits(s, s.caps[root].table, MAX_LEVEL, va, s.caps[t].table, s.caps[t].level) <==>
      Attached(s, root, t) && InTable(s.caps[t], va)
  {
    var R, T := s.caps[root], s.caps[t];
    RootRange(R, va);
    if Hits(s, R.table, MAX_LEVEL, va, T.table, T.level) { HitsInRange(s, kernel, root, va, t); }
    if InTable(T, va) {
      forall m | T.level < m <= MAX_LEVEL ensures Index(va, m) == Index(T.base, m) { SamePage(T.base, T.level, va, m); }
      HitsSame(s, R.table, MAX_LEVEL, va, T.base, T.table, T.level);
    }
  }
}
