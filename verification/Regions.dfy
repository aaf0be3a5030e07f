/** Boot: memory regions less the reserved regions, cut into aligned blocks of power-of-two size. */
module Regions {
  import opened Arith

  const ADDRESS_LIMIT: nat := 0x1_0000_0000_0000_0000

  datatype Region = Region(start: nat, end: nat)

  const NOTHING: Region := Region(0, 0)

  predicate In(x: nat, r: Region) { r.start <= x < r.end }

  /** The result of `subtract_region`. */
  datatype Pair = Pair(first: Region, second: Region)

  function Subtract(a: Region, b: Region): (d: Pair) {
    if a.start < b.start then
      if a.end <= b.start then Pair(a, NOTHING)
      else if a.end <= b.end then Pair(Region(a.start, b.start), NOTHING)
      else Pair(Region(a.start, b.start), Region(b.end, a.end))
    else if b.end < a.end then
      if b.end <= a.start then Pair(a, NOTHING) else Pair(Region(b.end, a.end), NOTHING)
    else Pair(NOTHING, NOTHING)
  }

  /** The two pieces hold the address exactly if it is in `a` and not in `b`, and not both of them do. */
  predicate Exact(a: Region, b: Region, d: Pair, x: nat) {
    && (In(x, d.first) || In(x, d.second) <==> In(x, a) && !In(x, b))
    && !(In(x, d.first) && In(x, d.second))
  }

  /** `b` does not both end before it starts and start inside `a`. */
  predicate Subtractable(a: Region, b: Region) { b.start <= b.end || b.start <= a.start || a.end <= b.start }

  /** The difference is exact if and only if the reserved region is not such a one. */
  lemma SubtractExact(a: Region, b: Region)
    ensures (forall x: nat :: Exact(a, b, Subtract(a, b), x)) <==> Subtractable(a, b)
  {
    if b.end < b.start && a.start < b.start < a.end {
      assert !Exact(a, b, Subtract(a, b), if a.start <= b.end then b.end else a.start);
    }
  }

  /** `subtract_region`: the two regions of `dst` are the difference. */
  method SubtractRegion(a: Region, b: Region, dst: array<Region>)
    requires dst.Length == 2
    modifies dst
    ensures Subtractable(a, b) ==> forall x: nat :: Exact(a, b, Pair(dst[0], dst[1]), x)
    ensures Pair(dst[0], dst[1]) == Subtract(a, b)
  {
    dst[0], dst[1] := NOTHING, NOTHING;
    if a.start < b.start {
      if a.end <= b.start {
        dst[0] := a;
      } else if a.end <= b.end {
        dst[0] := Region(a.start, b.start);
      } else {
        dst[0] := Region(a.start, b.start);
        dst[1] := Region(b.end, a.end);
      }
    } else if b.end < a.end {
      dst[0] := if b.end <= a.start then a else Region(b.end, a.end);
    }
    SubtractExact(a, b);
  }

  // ---------------------------------------------------------------- blocks

  function Pow2(n: nat): (p: nat)
    ensures p > 0
  {
    if n == 0 then 1 else 2 * Pow2(n - 1)
  }

  /** A memory capability of size `Pow2(bit)`. */
  datatype Block = Block(base: nat, bit: nat)

  function Size(b: Block): (n: nat) { Pow2(b.bit) }

  predicate InBlock(x: nat, b: Block) { b.base <= x < b.base + Size(b) }

  /** A multiple of `Pow2(bit)`. */
  predicate MultipleOf(a: nat, bit: nat) { a % Pow2(bit) == 0 }

  predicate Aligned(b: Block) { b.bit < 64 && MultipleOf(b.base, b.bit) }

  ghost predicate Covers(bs: seq<Block>, x: nat) { exists i :: 0 <= i < |bs| && InBlock(x, bs[i]) }

  predicate ApartBlocks(a: Block, b: Block) { a.base + Size(a) <= b.base || b.base + Size(b) <= a.base }

  ghost predicate Disjoint(bs: seq<Block>) {
    forall i, j :: 0 <= i < j < |bs| ==> ApartBlocks(bs[i], bs[j])
  }

  /** The blocks lie end to end from `lo` to `hi`. */
  ghost predicate Tiles(bs: seq<Block>, lo: nat, hi: nat) {
    if bs == [] then lo == hi
    else lo <= bs[|bs| - 1].base && bs[|bs| - 1].base + Size(bs[|bs| - 1]) == hi &&
         Tiles(bs[..|bs| - 1], lo, bs[|bs| - 1].base)
  }

  lemma TilesMore(bs: seq<Block>, lo: nat, hi: nat, b: Block)
    requires Tiles(bs, lo, hi) && b.base == hi && lo <= hi
    ensures Tiles(bs + [b], lo, hi + Size(b))
  {
    assert (bs + [b])[..|bs|] == bs;
  }

  /** Blocks end to end cover exactly their stretch, each address once. */
  lemma {:induction false} TilesExact(bs: seq<Block>, lo: nat, hi: nat)
    requires Tiles(bs, lo, hi)
    ensures lo <= hi && Disjoint(bs)
    ensures forall i :: 0 <= i < |bs| ==> lo <= bs[i].base && bs[i].base + Size(bs[i]) <= hi
    ensures forall x: nat :: Covers(bs, x) <==> lo <= x < hi
  {
    if bs != [] {
      var n, rest := |bs| - 1, bs[..|bs| - 1];
      TilesExact(rest, lo, bs[n].base);
      forall i | 0 <= i < |bs|
        ensures lo <= bs[i].base && bs[i].base + Size(bs[i]) <= hi
      {
        if i < n { assert bs[i] == rest[i]; }
      }
      forall i, j | 0 <= i < j < |bs| ensures ApartBlocks(bs[i], bs[j]) {
        assert bs[i] == rest[i];
        if j < n { assert ApartBlocks(rest[i], rest[j]); }
      }
      forall x: nat ensures Covers(bs, x) <==> lo <= x < hi { TilesCover(bs, lo, hi, x); }
    }
  }

  lemma TilesCover(bs: seq<Block>, lo: nat, hi: nat, x: nat)
    requires bs != [] && Tiles(bs, lo, hi)
    requires Covers(bs[..|bs| - 1], x) <==> lo <= x < bs[|bs| - 1].base
    ensures Covers(bs, x) <==> lo <= x < hi
  {
    var n, rest := |bs| - 1, bs[..|bs| - 1];
    if Covers(bs, x) {
      var i :| 0 <= i < |bs| && InBlock(x, bs[i]);
      if i < n { assert InBlock(x, rest[i]); }
    }
    if lo <= x < hi {
      if x < bs[n].base {
        var i :| 0 <= i < |rest| && InBlock(x, rest[i]);
        assert InBlock(x, bs[i]);
      } else {
        assert InBlock(x, bs[n]);
      }
    }
  }

  // ---------------------------------------------------------------- cutting one region

  lemma {:induction false} Pow2Grows(a: nat, b: nat)
    requires a <= b
    ensures Pow2(a) <= Pow2(b)
  {
    if a < b { Pow2Grows(a, b - 1); }
  }

  lemma Pow2Limit()
    ensures Pow2(64) == ADDRESS_LIMIT
  {
    assert Pow2(8) == 0x100;
    assert Pow2(16) == 0x1_0000;
    assert Pow2(24) == 0x100_0000;
    assert Pow2(32) == 0x1_0000_0000;
    assert Pow2(40) == 0x100_0000_0000;
    assert Pow2(48) == 0x1_0000_0000_0000;
    assert Pow2(56) == 0x100_0000_0000_0000;
  }

  /** A bit of an aligned, non-zero address lies below its top. */
  lemma ShiftBelow64(start: nat, bit: nat)
    requires 0 < start < ADDRESS_LIMIT && MultipleOf(start, bit)
    ensures bit < 64
  {
    Pow2Limit();
    if bit >= 64 {
      Pow2Grows(64, bit);
      DivMod(start, Pow2(bit));
    }
  }

  /** The bit tested in the first loop: is the address a multiple of the next power of two? */
  predicate BitSet(start: nat, bit: nat) { start / Pow2(bit) % 2 == 1 }

  lemma NextAlignment(start: nat, bit: nat)
    requires MultipleOf(start, bit)
    ensures !BitSet(start, bit) ==> MultipleOf(start, bit + 1)
    ensures BitSet(start, bit) ==> MultipleOf(start + Pow2(bit), bit + 1)
  {
    var p, q := Pow2(bit), start / Pow2(bit);
    DivMod(start, p);
    if q % 2 == 0 {
      assert start == q / 2 * (2 * p);
      ModUnique(start, 2 * p, q / 2, 0);
    } else {
      assert q == 2 * (q / 2) + 1;
      Halves(q / 2, p);
      ModUnique(start + p, 2 * p, q / 2 + 1, 0);
    }
  }

  lemma FromZero(start: nat)
    ensures MultipleOf(start, 0) && Tiles([], start, start)
  {
  }

  lemma NoTiles(lo: nat)
    ensures Tiles([], lo, lo) && Pow2(0) == 1
  {
  }

  lemma NextPow2(bit: nat)
    ensures Pow2(bit + 1) == 2 * Pow2(bit)
  {
  }

  lemma Halves(h: nat, p: nat)
    ensures (2 * h + 1) * p + p == (h + 1) * (2 * p)
  {
  }

  lemma LowerAlignment(start: nat, bit: nat)
    requires bit > 0 && MultipleOf(start, bit)
    ensures MultipleOf(start, bit - 1)
  {
    var p := Pow2(bit - 1);
    DivMod(start, 2 * p);
    ModUnique(start, p, 2 * (start / (2 * p)), 0);
  }

  lemma KeepsAlignment(start: nat, bit: nat)
    requires MultipleOf(start, bit)
    ensures MultipleOf(start + Pow2(bit), bit)
  {
    DivMod(start, Pow2(bit));
    ModUnique(start + Pow2(bit), Pow2(bit), start / Pow2(bit) + 1, 0);
  }

  /** Block sizes strictly increase, or strictly decrease. */
  predicate Rising(bs: seq<Block>) { forall i, j :: 0 <= i < j < |bs| ==> bs[i].bit < bs[j].bit }

  predicate Falling(bs: seq<Block>) { forall i, j :: 0 <= i < j < |bs| ==> bs[i].bit > bs[j].bit }

  predicate AllAligned(bs: seq<Block>) { forall i :: 0 <= i < |bs| ==> Aligned(bs[i]) }

  /**
   The first loop of `insert_memory_region_caps`; `start` is where it stops, at the end of the region or short of a
   block of size `bit`.
   */
  method CutUp(region: Region) returns (blocks: seq<Block>, start: nat, bit: nat)
    requires 0 < region.start < region.end < ADDRESS_LIMIT
    ensures region.start <= start <= region.end && Tiles(blocks, region.start, start) && AllAligned(blocks)
    ensures Rising(blocks)
    ensures start < region.end ==> bit < 64 && MultipleOf(start, bit) && region.end - start < Pow2(bit)
  {
    hide MultipleOf, BitSet, Tiles;
    blocks, start, bit := [], region.start, 0;
    FromZero(region.start);
    while start < region.end
      invariant region.start <= start <= region.end && MultipleOf(start, bit)
      invariant Tiles(blocks, region.start, start) && AllAligned(blocks) && Rising(blocks)
      invariant forall i :: 0 <= i < |blocks| ==> blocks[i].bit < bit
      decreases 64 - bit
    {
      var size := region.end - start;
      ShiftBelow64(start, bit);
      NextAlignment(start, bit);
      if BitSet(start, bit) {
        if size >= Pow2(bit) {
          TilesMore(blocks, region.start, start, Block(start, bit));
          blocks := blocks + [Block(start, bit)];
          start := start + Pow2(bit);
        } else {
          break;
        }
      }
      bit := bit + 1;
    }
  }

  /** The second loop; it never shifts by 64 or more, and `size_bit` stays above zero where it is decremented. */
  method CutDown(lo: nat, end: nat, from: nat) returns (blocks: seq<Block>)
    requires lo <= end && (lo < end ==> from < 64 && MultipleOf(lo, from) && end - lo < Pow2(from))
    ensures Tiles(blocks, lo, end) && AllAligned(blocks) && Falling(blocks)
  {
    hide MultipleOf, Tiles;
    var start, bit: nat := lo, from;
    blocks := [];
    NoTiles(lo);
    NextPow2(bit);
    while start < end
      invariant lo <= start <= end && Tiles(blocks, lo, start) && AllAligned(blocks) && Falling(blocks)
      invariant start < end ==> bit < 64 && MultipleOf(start, bit) && end - start < 2 * Pow2(bit)
      invariant forall i :: 0 <= i < |blocks| ==> bit <= blocks[i].bit
      invariant start < end && (exists i :: 0 <= i < |blocks| && blocks[i].bit == bit) ==> end - start < Pow2(bit)
      decreases bit, end - start
    {
      if end - start >= Pow2(bit) {
        TilesMore(blocks, lo, start, Block(start, bit));
        KeepsAlignment(start, bit);
        blocks := blocks + [Block(start, bit)];
        start := start + Pow2(bit);
      } else {
        assert bit > 0;
        LowerAlignment(start, bit);
        bit := bit - 1;
        NextPow2(bit);
      }
    }
  }

  /** The blocks for one piece: their sizes strictly increase up to some block and strictly decrease from there on. */
  method CutRegion(region: Region) returns (blocks: seq<Block>, turn: nat)
    requires 0 < region.start < region.end < ADDRESS_LIMIT
    ensures Tiles(blocks, region.start, region.end) && AllAligned(blocks)
    ensures turn <= |blocks| && Rising(blocks[..turn]) && Falling(blocks[turn..])
  {
    var up, start, bit := CutUp(region);
    var down := CutDown(start, region.end, bit);
    TilesJoin(up, down, region.start, start, region.end);
    blocks, turn := up + down, |up|;
    assert blocks[..turn] == up && blocks[turn..] == down;
  }

  lemma {:induction false} TilesJoin(a: seq<Block>, b: seq<Block>, lo: nat, mid: nat, hi: nat)
    requires Tiles(a, lo, mid) && Tiles(b, mid, hi)
    ensures Tiles(a + b, lo, hi)
  {
    TilesExact(a, lo, mid);
    if b == [] {
      assert a + b == a;
    } else {
      var n := |b| - 1;
      TilesJoin(a, b[..n], lo, mid, b[n].base);
      assert (a + b)[..|a + b| - 1] == a + b[..n];
    }
  }

  // ---------------------------------------------------------------- the whole recursion

  /** In `r`, and in none of the reserved regions from `index` on. */
  ghost predicate Usable(r: Region, reserved: seq<Region>, index: nat, x: nat) {
    In(x, r) && forall j :: index <= j < |reserved| ==> !In(x, reserved[j])
  }

  ghost predicate WellFormed(reserved: seq<Region>) {
    forall j :: 0 <= j < |reserved| ==> reserved[j].start <= reserved[j].end
  }

  /** Disjoint aligned blocks that cover exactly the usable addresses. */
  ghost predicate Exactly(bs: seq<Block>, r: Region, reserved: seq<Region>, index: nat) {
    && AllAligned(bs) && Disjoint(bs)
    && forall x: nat :: Covers(bs, x) <==> Usable(r, reserved, index, x)
  }

  /**
   `insert_memory_region_caps`: the memory capabilities made are disjoint, naturally aligned, and together
   exactly the region less all reserved regions.  A region that starts at address zero is refused.
   */
  method InsertMemoryRegion(region: Region, reserved: seq<Region>, index: nat) returns (blocks: seq<Block>)
    requires region.end < ADDRESS_LIMIT && index <= |reserved| && WellFormed(reserved)
    ensures region.start != 0 ==> Exactly(blocks, region, reserved, index)
    ensures region.start == 0 ==> blocks == []
    decreases |reserved| - index
  {
    if region.start >= region.end {
      return [];
    }
    if region.start == 0 {
      return [];
    }
    if index < |reserved| {
      var dst := new Region[2](_ => NOTHING);
      SubtractRegion(region, reserved[index], dst);
      var first, second := dst[0], dst[1];
      var one, two: seq<Block> := [], [];
      if first.start < first.end {
        one := InsertMemoryRegion(first, reserved, index + 1);
      }
      if second.start < second.end {
        two := InsertMemoryRegion(second, reserved, index + 1);
      }
      Together(region, reserved, index, Pair(first, second), one, two);
      return one + two;
    }
    var turn;
    blocks, turn := CutRegion(region);
    TilesExact(blocks, region.start, region.end);
  }

  lemma EmptyExactly(r: Region, reserved: seq<Region>, index: nat)
    requires r.start >= r.end
    ensures Exactly([], r, reserved, index)
  {
  }

  lemma Together(r: Region, reserved: seq<Region>, index: nat, d: Pair, one: seq<Block>, two: seq<Block>)
    requires index < |reserved| && WellFormed(reserved) && d == Subtract(r, reserved[index])
    requires d.first.start < d.first.end ==> Exactly(one, d.first, reserved, index + 1)
    requires d.first.start >= d.first.end ==> one == []
    requires d.second.start < d.second.end ==> Exactly(two, d.second, reserved, index + 1)
    requires d.second.start >= d.second.end ==> two == []
    ensures Exactly(one + two, r, reserved, index)
  {
    if one == [] && d.first.start >= d.first.end { EmptyExactly(d.first, reserved, index + 1); }
    if two == [] && d.second.start >= d.second.end { EmptyExactly(d.second, reserved, index + 1); }
    var bs := one + two;
    SubtractExact(r, reserved[index]);
    forall i, j | 0 <= i < j < |bs| ensures ApartBlocks(bs[i], bs[j]) {
      if i < |one| <= j { PiecesApart(r, reserved, index, one[i], two[j - |one|], one, two); }
    }
    forall x: nat ensures Covers(bs, x) <==> Usable(r, reserved, index, x) {
      assert Exact(r, reserved[index], Subtract(r, reserved[index]), x);
      CoversBoth(one, two, x);
      assert Usable(r, reserved, index, x) <==>
        In(x, r) && !In(x, reserved[index]) && forall j :: index + 1 <= j < |reserved| ==> !In(x, reserved[j]);
    }
  }

  lemma CoversBoth(one: seq<Block>, two: seq<Block>, x: nat)
    ensures Covers(one + two, x) <==> Covers(one, x) || Covers(two, x)
  {
    var bs := one + two;
    if Covers(bs, x) {
      var i :| 0 <= i < |bs| && InBlock(x, bs[i]);
      if i < |one| { assert InBlock(x, one[i]); } else { assert InBlock(x, two[i - |one|]); }
    }
    if Covers(one, x) {
      var i :| 0 <= i < |one| && InBlock(x, one[i]);
      assert InBlock(x, bs[i]);
    }
    if Covers(two, x) {
      var i :| 0 <= i < |two| && InBlock(x, two[i]);
      assert InBlock(x, bs[|one| + i]);
    }
  }

  /** Blocks of different pieces are apart, since no address is in both pieces. */
  lemma PiecesApart(r: Region, reserved: seq<Region>, index: nat, a: Block, b: Block, one: seq<Block>, two: seq<Block>)
    requires index < |reserved| && WellFormed(reserved) && a in one && b in two
    requires
      var d := Subtract(r, reserved[index]);
      Exactly(one, d.first, reserved, index + 1) && Exactly(two, d.second, reserved, index + 1)
    ensures ApartBlocks(a, b)
  {
    var x := if a.base <= b.base then b.base else a.base;
    SubtractExact(r, reserved[index]);
    assert Exact(r, reserved[index], Subtract(r, reserved[index]), x);
    assert InBlock(x, a) ==> Covers(one, x);
    assert InBlock(x, b) ==> Covers(two, x);
  }
}
