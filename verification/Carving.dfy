/** Carving an object out of a memory capability, in the 64-bit arithmetic of `create_memory_object`. */
module Carving {
  import opened Arith
  import opened Capability

  /** `round_up`, with the wrap-around of its addition. */
  function RoundUp(v: nat, align: nat): (r: nat) {
    if align == 0 then v else FloorTo((v + align - 1) % WORD, align)
  }

  /** The least multiple of `align` that is not below `v`. */
  function AlignUp(v: nat, align: nat): (r: nat) {
    if align == 0 then v else FloorTo(v + align - 1, align)
  }

  lemma AlignUpLeast(v: nat, align: nat)
    requires align > 0
    ensures AlignUp(v, align) % align == 0
    ensures v <= AlignUp(v, align) < v + align
  {
    FloorToMultiple(v + align - 1, align);
  }

  /** `round_up` is right when its addition does not wrap, and falls below its argument when it does. */
  lemma RoundUpCases(v: nat, align: nat)
    requires v < WORD && align < WORD
    ensures align == 0 || v + align - 1 < WORD ==> RoundUp(v, align) == AlignUp(v, align)
    ensures align > 0 && v + align - 1 >= WORD ==> RoundUp(v, align) < v
  {
    if align > 0 && v + align - 1 >= WORD {
      assert (v + align - 1) % WORD == v + align - 1 - WORD;
    }
  }

  datatype Result = TooLittle | OutOfRange | Carved(base: nat, used: nat)

  /** Where `create_memory_object` puts an object, and what it records as used. */
  function Carve(c: Cap, size: nat, align: nat): (r: Result)
    requires c.MemCap?
  {
    if size == 0 then TooLittle
    else
      var b := RoundUp((c.base + c.used) % WORD, align);
      var rem := (c.base + c.size - b) % WORD;
      if rem < size then TooLittle
      else if b >= MAX_PHYSICAL_ADDRESS || size >= MAX_PHYSICAL_ADDRESS then OutOfRange
      else Carved(b, (b + size - c.base) % WORD % MAX_PHYSICAL_ADDRESS)
  }

  /** The next aligned address does not pass the end of the memory. */
  predicate Fits(c: Cap, align: nat)
    requires c.MemCap?
  {
    AlignUp(c.base + c.used, align) <= c.base + c.size
  }

  /** As long as it fits, alignment does not wrap around. */
  lemma NoWrap(c: Cap, align: nat)
    requires c.MemCap? && WellSized(c) && align < WORD && Fits(c, align)
    ensures align > 0 ==> c.base + c.used + align - 1 < WORD
  {
    var v := c.base + c.used;
    if align > 0 && v > 0 {
      AlignUpLeast(v, align);
      PositiveMultiple(AlignUp(v, align), align);
    }
  }

  lemma PositiveMultiple(m: nat, align: nat)
    requires align > 0 && m > 0 && m % align == 0
    ensures align <= m
  {
  }

  /**
   An object is carved inside the unused part of its memory exactly when the next aligned
   address does not pass the end; then it is aligned, and `used_size` grows to its end.
   */
  lemma CarveExact(c: Cap, size: nat, align: nat)
    requires c.MemCap? && WellSized(c) && size < WORD && align < WORD && Carve(c, size, align).Carved?
    ensures
      var r := Carve(c, size, align);
      (c.base + c.used <= r.base && r.base + size <= c.base + c.size) <==> Fits(c, align)
    ensures
      var r := Carve(c, size, align);
      Fits(c, align) ==>
        && r.base == AlignUp(c.base + c.used, align)
        && (align > 0 ==> r.base % align == 0)
        && r.used == r.base + size - c.base
        && c.used < r.used <= c.size
  {
    var v := c.base + c.used;
    assert v % WORD == v;
    RoundUpCases(v, align);
    if align > 0 { AlignUpLeast(v, align); }
    if Fits(c, align) {
      NoWrap(c, align);
      FittingUse(c, size, Carve(c, size, align).base);
    }
  }

  lemma FittingUse(c: Cap, size: nat, b: nat)
    requires c.MemCap? && WellSized(c) && c.base + c.used <= b <= c.base + c.size && 0 < size
    requires (c.base + c.size - b) % WORD >= size
    ensures b + size <= c.base + c.size
    ensures (b + size - c.base) % WORD % MAX_PHYSICAL_ADDRESS == b + size - c.base
  {
    assert (c.base + c.size - b) % WORD == c.base + c.size - b;
  }

  /** A memory capability of one page, asked for a byte at a megabyte boundary, gives out memory it does not have. */
  lemma CarveEscapes()
    ensures
      var c := MemCap(false, 0x1000, 0x1000, 0);
      WellSized(c) && Carve(c, 1, 0x10_0000).Carved? && Carve(c, 1, 0x10_0000).base == 0x10_0000 > c.base + c.size
  {
  }
}
