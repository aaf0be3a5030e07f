/**
 Copying between user memory and the kernel, page by page, compared with copying one byte at a time through
 the translation of each address.
 */
module UserMemory {
  import opened Arith
  import opened Capability
  import opened Paging
  import opened Translation

  type Byte = b: nat | b < 256

  /** Physical memory; what was never written reads as zero. */
  type Memory = map<nat, Byte>

  function Get(m: Memory, a: nat): (b: Byte) { if a in m then m[a] else 0 }

  // ---------------------------------------------------------------- the translation is uniform on a page

  lemma SameAbove(va: nat, vb: nat, l: nat, m: nat)
    requires va / PageSize(l) == vb / PageSize(l) && l <= m
    ensures va / PageSize(m) == vb / PageSize(m)
    decreases m
  {
    if l < m {
      SameAbove(va, vb, l, m - 1);
      DivDiv(va, PageSize(m - 1), ENTRIES);
      DivDiv(vb, PageSize(m - 1), ENTRIES);
    }
  }

  lemma WalkUniform(s: State, table: nat, level: nat, va: nat, vb: nat)
    requires var w := Walk(s, table, level, va); w.Leaf? && va / PageSize(w.level) == vb / PageSize(w.level)
    ensures Walk(s, table, level, vb) == Walk(s, table, level, va) && Walk(s, table, level, va).level <= level
    decreases level
  {
    LeafBelow(s, table, level, va);
    SameAbove(va, vb, Walk(s, table, level, va).level, level);
    var p := EntryAt(s, table, Index(va, level));
    if IsTable(p) { WalkUniform(s, Next(p), level - 1, va, vb); }
  }

  lemma LeafBelow(s: State, table: nat, level: nat, va: nat)
    requires Walk(s, table, level, va).Leaf?
    ensures Walk(s, table, level, va).level <= level
    decreases level
  {
    var p := EntryAt(s, table, Index(va, level));
    if IsTable(p) { LeafBelow(s, Next(p), level - 1, va); }
  }

  predicate Translates(s: State, root: nat, va: nat) { Walk(s, root, MAX_LEVEL, va).Leaf? }

  /** The physical address of a byte. */
  function Physical(s: State, root: nat, va: nat): (a: nat)
    requires Translates(s, root, va)
  {
    var w := Walk(s, root, MAX_LEVEL, va);
    Next(w.p) + va % PageSize(w.level)
  }

  /** What one round of the loops works on: how much of the page is left, at most `limit`. */
  function Chunk(level: nat, va: nat, limit: nat): (n: nat)
    requires limit > 0
    ensures 0 < n <= limit
  {
    var rest := PageSize(level) - va % PageSize(level);
    if rest > limit then limit else rest
  }

  /** Byte `k` of the user memory from `va` on translates. */
  predicate Maps(s: State, root: nat, va: nat, k: nat) { Translates(s, root, va + k) }

  function Where(s: State, root: nat, va: nat, k: nat): (a: nat)
    requires Maps(s, root, va, k)
  {
    Physical(s, root, va + k)
  }

  /** The bytes of a chunk translate to consecutive addresses. */
  lemma ChunkConsecutive(s: State, root: nat, va: nat, k: nat, limit: nat, j: nat)
    requires Maps(s, root, va, k) && limit > 0 && j < Chunk(Walk(s, root, MAX_LEVEL, va + k).level, va + k, limit)
    ensures Maps(s, root, va, k + j) && Where(s, root, va, k + j) == Where(s, root, va, k) + j
  {
    var v := va + k;
    var n := PageSize(Walk(s, root, MAX_LEVEL, v).level);
    DivMod(v, n);
    ModUnique(v + j, n, v / n, v % n + j);
    WalkUniform(s, root, MAX_LEVEL, v, v + j);
    assert va + (k + j) == v + j;
  }

  /** Byte `k` is at the place it has in the chunk that starts at byte `f`. */
  predicate InChunk(s: State, root: nat, va: nat, f: nat, k: nat) {
    f <= k && Maps(s, root, va, f) && Maps(s, root, va, k) && Where(s, root, va, k) == Where(s, root, va, f) + (k - f)
  }

  lemma ChunkMaps(s: State, root: nat, va: nat, f: nat, size: nat, n: nat)
    requires f < size && Maps(s, root, va, f) && n <= Chunk(Walk(s, root, MAX_LEVEL, va + f).level, va + f, size - f)
    ensures forall k: nat :: f <= k < f + n ==> InChunk(s, root, va, f, k)
    ensures forall k: nat :: f <= k < f + n ==> Maps(s, root, va, k)
  {
    hide Maps, Where, Walk, Chunk;
    forall k: nat | f <= k < f + n ensures InChunk(s, root, va, f, k) {
      ChunkConsecutive(s, root, va, f, size - f, k - f);
      assert f + (k - f) == k;
    }
    forall k: nat | f <= k < f + n ensures Maps(s, root, va, k) { assert InChunk(s, root, va, f, k); }
  }

  // ---------------------------------------------------------------- one byte at a time

  /** How many bytes from `va` on translate, up to the first that does not. */
  function Reach(s: State, root: nat, va: nat, size: nat): (n: nat)
    ensures n <= size
    ensures forall k: nat :: k < n ==> Maps(s, root, va, k)
    ensures n < size ==> !Maps(s, root, va, n)
  {
    if size == 0 then 0
    else
      var n := Reach(s, root, va, size - 1);
      if n == size - 1 && Maps(s, root, va, n) then size else n
  }

  /** Memory after the first `n` bytes of `data` were stored, in order, each through the translation of its address. */
  function StoreEach(s: State, root: nat, m: Memory, va: nat, data: seq<Byte>, n: nat): (r: Memory)
    requires n <= |data| && forall k: nat :: k < n ==> Maps(s, root, va, k)
  {
    if n == 0 then m else StoreEach(s, root, m, va, data, n - 1)[Where(s, root, va, n - 1) := data[n - 1]]
  }

  /** Memory after `n` bytes were copied, in order, each through the translations of its two addresses. */
  function ForwardEach(s: State, from: nat, to: nat, m: Memory, src: nat, dst: nat, n: nat): (r: Memory)
    requires forall k: nat :: k < n ==> Maps(s, from, src, k)
    requires forall k: nat :: k < n ==> Maps(s, to, dst, k)
  {
    if n == 0 then m
    else
      var b := ForwardEach(s, from, to, m, src, dst, n - 1);
      b[Where(s, to, dst, n - 1) := Get(b, Where(s, from, src, n - 1))]
  }

  // ---------------------------------------------------------------- page by page

  /** A position up to which all bytes translate, and which does not, is how far the bytes reach. */
  lemma ReachIs(s: State, root: nat, va: nat, size: nat, n: nat)
    requires n <= size && (forall k: nat :: k < n ==> Maps(s, root, va, k)) && (n < size ==> !Maps(s, root, va, n))
    ensures Reach(s, root, va, size) == n
  {
    var r := Reach(s, root, va, size);
    var maps := Maps(s, root, va, r);
  }

  /**
   `read_user_memory`: the bytes up to the first that does not translate are read, and the result says whether all
   were.
   */
  method ReadUserMemory(s: State, root: nat, mem: Memory, src: nat, dst: array<Byte>) returns (ok: bool)
    requires src + dst.Length <= MAX_VIRTUAL_ADDRESS
    modifies dst
    ensures ok <==> forall k: nat :: k < dst.Length ==> Maps(s, root, src, k)
    ensures
      var n := Reach(s, root, src, dst.Length);
      && (forall k: nat :: k < n ==> Maps(s, root, src, k) && dst[k] == Get(mem, Where(s, root, src, k)))
      && (forall k :: n <= k < dst.Length ==> dst[k] == old(dst[k]))
  {
    hide Translates, Walk, Physical;
    var read: nat, size: nat := 0, dst.Length;
    while read < size
      invariant read <= size
      invariant forall k: nat :: k < read ==> Maps(s, root, src, k) && dst[k] == Get(mem, Where(s, root, src, k))
      invariant forall k :: read <= k < size ==> dst[k] == old(dst[k])
      decreases size - read
    {
      var w := WalkLoop(s, root, src + read);
      WalkedOn(s, root, src, read);
      if w.Fault? {
        ReachIs(s, root, src, size, read);
        return false;
      }
      var offset := (src + read) % PageSize(w.level);
      var length := Chunk(w.level, src + read, size - read);
      ChunkMaps(s, root, src, read, size, length);
      var base := Next(w.p) + offset;
      forall k | read <= k < read + length {
        dst[k] := Get(mem, base + (k - read));
      }
      forall k: nat | read <= k < read + length
        ensures Maps(s, root, src, k) && dst[k] == Get(mem, Where(s, root, src, k))
      {
        assert InChunk(s, root, src, read, k);
      }
      read := read + length;
    }
    ReachIs(s, root, src, size, size);
    return true;
  }

  /** What the result of a walk says. */
  lemma WalkedOn(s: State, root: nat, va: nat, k: nat)
    ensures Maps(s, root, va, k) <==> Walk(s, root, MAX_LEVEL, va + k).Leaf?
    ensures
      var w := Walk(s, root, MAX_LEVEL, va + k);
      w.Leaf? ==> Where(s, root, va, k) == Next(w.p) + (va + k) % PageSize(w.level)
  {
  }

  class Ram {
    var mem: Memory

    /**
     `write_user_memory`: the bytes up to the first that does not translate are written in order, and the result says
     whether all were.
     */
    method WriteUserMemory(s: State, root: nat, src: seq<Byte>, dst: nat) returns (ok: bool)
      requires dst + |src| <= MAX_VIRTUAL_ADDRESS
      modifies this
      ensures ok <==> forall k: nat :: k < |src| ==> Maps(s, root, dst, k)
      ensures mem == StoreEach(s, root, old(mem), dst, src, Reach(s, root, dst, |src|))
    {
      hide Translates, Walk, Chunk, PageSize;
      var written: nat, size: nat := 0, |src|;
      while written < size
        invariant written <= size
        invariant forall k: nat :: k < written ==> Maps(s, root, dst, k)
        invariant mem == StoreEach(s, root, old(mem), dst, src, written)
        decreases size - written
      {
        var w := WalkLoop(s, root, dst + written);
        WalkedOn(s, root, dst, written);
        if w.Fault? {
          ReachIs(s, root, dst, size, written);
          return false;
        }
        var offset := (dst + written) % PageSize(w.level);
        var length := Chunk(w.level, dst + written, size - written);
        StoreChunk(s, root, old(mem), dst, src, written, length);
        Store(Next(w.p) + offset, src, written, length);
        written := written + length;
      }
      ReachIs(s, root, dst, size, size);
      return true;
    }

    /** One `memcpy` from the kernel. */
    method Store(to: nat, src: seq<Byte>, f: nat, length: nat)
      requires f + length <= |src|
      modifies this
      ensures mem == StoreRange(old(mem), to, src, f, length)
    {
      var j: nat := 0;
      while j < length
        invariant j <= length && mem == StoreRange(old(mem), to, src, f, j)
      {
        mem := mem[to + j := src[f + j]];
        j := j + 1;
      }
    }

    /** One `memcpy` within physical memory. */
    method Copy(to: nat, from: nat, length: nat)
      modifies this
      ensures mem == CopyRange(old(mem), to, from, length)
    {
      var j: nat := 0;
      while j < length
        invariant j <= length && mem == CopyRange(old(mem), to, from, j)
      {
        mem := mem[to + j := Get(mem, from + j)];
        j := j + 1;
      }
    }

    /** `forward_user_memory`, which in each round copies as much as is left of the source's page. */
    method ForwardUserMemory(s: State, source: nat, target: nat, src: nat, dst: nat, size: nat) returns (ok: bool)
      requires src + size <= MAX_VIRTUAL_ADDRESS && dst + size <= MAX_VIRTUAL_ADDRESS
      modifies this
      ensures (mem, ok) == Rounds(s, source, target, old(mem), src, dst, size, 0)
    {
      hide Walk, CopyRange;
      var forwarded: nat := 0;
      while forwarded < size
        invariant forwarded <= size
        invariant Rounds(s, source, target, mem, src, dst, size, forwarded) ==
          Rounds(s, source, target, old(mem), src, dst, size, 0)
        decreases size - forwarded
      {
        var v := WalkLoop(s, source, src + forwarded);
        if v.Fault? {
          return false;
        }
        var w := WalkLoop(s, target, dst + forwarded);
        if w.Fault? {
          return false;
        }
        var length := Chunk(v.level, src + forwarded, size - forwarded);
        Copy(Next(w.p) + (dst + forwarded) % PageSize(w.level), Next(v.p) + (src + forwarded) % PageSize(v.level),
          length);
        forwarded := forwarded + length;
      }
      return true;
    }
  }

  function StoreRange(m: Memory, to: nat, data: seq<Byte>, f: nat, n: nat): (r: Memory)
    requires f + n <= |data|
  {
    if n == 0 then m else StoreRange(m, to, data, f, n - 1)[to + n - 1 := data[f + n - 1]]
  }

  /** A chunk stored at once is its bytes stored one by one. */
  lemma StoreChunk(s: State, root: nat, m: Memory, va: nat, data: seq<Byte>, f: nat, n: nat)
    requires f < |data| && Maps(s, root, va, f) && forall k: nat :: k < f ==> Maps(s, root, va, k)
    requires n <= Chunk(Walk(s, root, MAX_LEVEL, va + f).level, va + f, |data| - f)
    ensures forall k: nat :: k < f + n ==> Maps(s, root, va, k)
    ensures f + n <= |data|
    ensures StoreRange(StoreEach(s, root, m, va, data, f), Where(s, root, va, f), data, f, n)
         == StoreEach(s, root, m, va, data, f + n)
  {
    hide Maps, Where, Walk;
    ChunkMaps(s, root, va, f, |data|, n);
    StoreBytes(s, root, m, va, data, f, n);
  }

  lemma {:induction false} StoreBytes(s: State, root: nat, m: Memory, va: nat, data: seq<Byte>, f: nat, n: nat)
    requires f + n <= |data| && Maps(s, root, va, f)
    requires forall k: nat :: k < f + n ==> Maps(s, root, va, k)
    requires forall k: nat :: f <= k < f + n ==> InChunk(s, root, va, f, k)
    ensures StoreRange(StoreEach(s, root, m, va, data, f), Where(s, root, va, f), data, f, n)
         == StoreEach(s, root, m, va, data, f + n)
    decreases n
  {
    hide Maps, Where;
    if n > 0 {
      StoreBytes(s, root, m, va, data, f, n - 1);
      assert InChunk(s, root, va, f, f + n - 1);
    }
  }

  /** What the rounds of `forward_user_memory` from byte `k` on leave, and its result. */
  function Rounds(s: State, source: nat, target: nat, m: Memory, src: nat, dst: nat, size: nat,
      k: nat): (r: (Memory, bool))
    decreases size - k
  {
    if k >= size then (m, true)
    else
      var v, w := Walk(s, source, MAX_LEVEL, src + k), Walk(s, target, MAX_LEVEL, dst + k);
      if v.Fault? || w.Fault? then (m, false)
      else
        var n := Chunk(v.level, src + k, size - k);
        var a, b := Next(w.p) + (dst + k) % PageSize(w.level), Next(v.p) + (src + k) % PageSize(v.level);
        Rounds(s, source, target, CopyRange(m, a, b, n), src, dst, size, k + n)
  }

  /** All bytes of both stretches translate. */
  ghost predicate AllMap(s: State, source: nat, target: nat, src: nat, dst: nat, size: nat) {
    && (forall k: nat :: k < size ==> Maps(s, source, src, k))
    && (forall k: nat :: k < size ==> Maps(s, target, dst, k))
  }

  /**
   When the rounds fit, `forward_user_memory` succeeds exactly when every byte translates, and then has copied byte by
   byte.
   */
  lemma {:induction false} RoundsFromByte(s: State, source: nat, target: nat, m: Memory, src: nat, dst: nat,
      size: nat, k: nat)
    requires k <= size && AllMap(s, source, target, src, dst, k) && StepsFit(s, source, target, src, dst, size, k)
    ensures
      var r := Rounds(s, source, target, ForwardEach(s, source, target, m, src, dst, k), src, dst, size, k);
      && (r.1 <==> AllMap(s, source, target, src, dst, size))
      && (r.1 ==> r.0 == ForwardEach(s, source, target, m, src, dst, size))
    decreases size - k
  {
    hide Walk, CopyRange, Maps, Where, ForwardEach;
    if k < size {
      WalkedOn(s, source, src, k);
      WalkedOn(s, target, dst, k);
      var v, w := Walk(s, source, MAX_LEVEL, src + k), Walk(s, target, MAX_LEVEL, dst + k);
      if v.Leaf? && w.Leaf? {
        var n := Chunk(v.level, src + k, size - k);
        ForwardChunk(s, source, target, m, src, dst, size, k, n);
        RoundsFromByte(s, source, target, m, src, dst, size, k + n);
      }
    }
  }

  lemma ForwardIsByteCopy(s: State, source: nat, target: nat, m: Memory, src: nat, dst: nat, size: nat)
    requires StepsFit(s, source, target, src, dst, size, 0)
    ensures
      var r := Rounds(s, source, target, m, src, dst, size, 0);
      && (r.1 <==> AllMap(s, source, target, src, dst, size))
      && (r.1 ==> r.0 == ForwardEach(s, source, target, m, src, dst, size))
  {
    RoundsFromByte(s, source, target, m, src, dst, size, 0);
  }

  function CopyRange(m: Memory, to: nat, from: nat, n: nat): (r: Memory) {
    if n == 0 then m
    else
      var b := CopyRange(m, to, from, n - 1);
      b[to + n - 1 := Get(b, from + n - 1)]
  }

  /** The bytes from `f` to `f + n` of the stretch at `va` are consecutive in physical memory. */
  ghost predicate Consecutive(s: State, root: nat, va: nat, f: nat, n: nat) {
    forall k: nat :: f <= k < f + n ==> InChunk(s, root, va, f, k)
  }

  /** In each round, the target's bytes for what is left of the source's page are consecutive in physical memory. */
  ghost predicate StepsFit(s: State, source: nat, target: nat, src: nat, dst: nat, size: nat, k: nat)
    decreases size - k
  {
    k < size ==>
      var v, w := Walk(s, source, MAX_LEVEL, src + k), Walk(s, target, MAX_LEVEL, dst + k);
      v.Leaf? && w.Leaf? ==>
        var n := Chunk(v.level, src + k, size - k);
        Consecutive(s, target, dst, k, n) && StepsFit(s, source, target, src, dst, size, k + n)
  }

  /** So they are when no more is left of the source's page than of the target's. */
  lemma ShorterFits(s: State, source: nat, target: nat, src: nat, dst: nat, size: nat, k: nat)
    requires k < size && Maps(s, source, src, k) && Maps(s, target, dst, k)
    requires
      var v, w := Walk(s, source, MAX_LEVEL, src + k), Walk(s, target, MAX_LEVEL, dst + k);
      Chunk(v.level, src + k, size - k) <= Chunk(w.level, dst + k, size - k)
    ensures Consecutive(s, target, dst, k, Chunk(Walk(s, source, MAX_LEVEL, src + k).level, src + k, size - k))
  {
    ChunkMaps(s, target, dst, k, size, Chunk(Walk(s, source, MAX_LEVEL, src + k).level, src + k, size - k));
  }

  /** In each round, no more is left of the source's page than of the target's. */
  predicate StepsShorter(s: State, source: nat, target: nat, src: nat, dst: nat, size: nat, k: nat)
    decreases size - k
  {
    k < size ==>
      var v, w := Walk(s, source, MAX_LEVEL, src + k), Walk(s, target, MAX_LEVEL, dst + k);
      v.Leaf? && w.Leaf? ==>
        var n := Chunk(v.level, src + k, size - k);
        n <= Chunk(w.level, dst + k, size - k) && StepsShorter(s, source, target, src, dst, size, k + n)
  }

  lemma {:induction false} ShorterStepsFit(s: State, source: nat, target: nat, src: nat, dst: nat, size: nat, k: nat)
    requires StepsShorter(s, source, target, src, dst, size, k)
    ensures StepsFit(s, source, target, src, dst, size, k)
    decreases size - k
  {
    hide Walk, Chunk, Consecutive, Maps;
    if k < size {
      WalkedOn(s, source, src, k);
      WalkedOn(s, target, dst, k);
      var v, w := Walk(s, source, MAX_LEVEL, src + k), Walk(s, target, MAX_LEVEL, dst + k);
      if v.Leaf? && w.Leaf? {
        ShorterFits(s, source, target, src, dst, size, k);
        ShorterStepsFit(s, source, target, src, dst, size, k + Chunk(v.level, src + k, size - k));
      }
    }
  }

  /**
   When in each round no more is left of the source's page than of the target's, `forward_user_memory` succeeds exactly
   when every byte translates, and then has copied byte by byte.
   */
  lemma ShorterIsByteCopy(s: State, source: nat, target: nat, m: Memory, src: nat, dst: nat, size: nat)
    requires StepsShorter(s, source, target, src, dst, size, 0)
    ensures
      var r := Rounds(s, source, target, m, src, dst, size, 0);
      && (r.1 <==> AllMap(s, source, target, src, dst, size))
      && (r.1 ==> r.0 == ForwardEach(s, source, target, m, src, dst, size))
  {
    hide Rounds, AllMap, ForwardEach;
    ShorterStepsFit(s, source, target, src, dst, size, 0);
    ForwardIsByteCopy(s, source, target, m, src, dst, size);
  }

  /** A chunk copied at once is its bytes copied one by one. */
  lemma ForwardChunk(s: State, source: nat, target: nat, m: Memory, src: nat, dst: nat, size: nat, f: nat, n: nat)
    requires f < size && Maps(s, source, src, f) && Maps(s, target, dst, f)
    requires forall k: nat :: k < f ==> Maps(s, source, src, k)
    requires forall k: nat :: k < f ==> Maps(s, target, dst, k)
    requires n <= Chunk(Walk(s, source, MAX_LEVEL, src + f).level, src + f, size - f)
    requires Consecutive(s, target, dst, f, n)
    ensures forall k: nat :: k < f + n ==> Maps(s, source, src, k)
    ensures forall k: nat :: k < f + n ==> Maps(s, target, dst, k)
    ensures
      var b := ForwardEach(s, source, target, m, src, dst, f);
      CopyRange(b, Where(s, target, dst, f), Where(s, source, src, f), n)
        == ForwardEach(s, source, target, m, src, dst, f + n)
  {
    ChunkMaps(s, source, src, f, size, n);
    forall k: nat | f <= k < f + n ensures Maps(s, target, dst, k) { assert InChunk(s, target, dst, f, k); }
    ForwardBytes(s, source, target, m, src, dst, f, n);
  }

  lemma ForwardBytes(s: State, source: nat, target: nat, m: Memory, src: nat, dst: nat, f: nat, n: nat)
    requires Maps(s, source, src, f) && Maps(s, target, dst, f)
    requires forall k: nat :: k < f + n ==> Maps(s, source, src, k)
    requires forall k: nat :: k < f + n ==> Maps(s, target, dst, k)
    requires forall k: nat :: f <= k < f + n ==> InChunk(s, source, src, f, k)
    requires forall k: nat :: f <= k < f + n ==> InChunk(s, target, dst, f, k)
    ensures
      var b := ForwardEach(s, source, target, m, src, dst, f);
      CopyRange(b, Where(s, target, dst, f), Where(s, source, src, f), n)
        == ForwardEach(s, source, target, m, src, dst, f + n)
    decreases n
  {
    hide Maps, Where;
    if n > 0 {
      ForwardBytes(s, source, target, m, src, dst, f, n - 1);
      assert InChunk(s, source, src, f, f + n - 1) && InChunk(s, target, dst, f, f + n - 1);
    }
  }
}
