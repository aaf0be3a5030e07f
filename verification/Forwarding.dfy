/**
 When `forward_user_memory` copies as byte-by-byte copying does: exactly when each round's target bytes are
 consecutive.
 */
module Forwarding {
  import opened Arith
  import opened Capability
  import opened Paging
  import opened Translation
  import opened UserMemory

  /** One call: `size` bytes from `src` of the task with table `source` to `dst` of the task with table `target`. */
  datatype Job = Job(s: State, source: nat, target: nat, src: nat, dst: nat, size: nat)

  predicate FromMaps(j: Job, k: nat) { Maps(j.s, j.source, j.src, k) }

  predicate ToMaps(j: Job, k: nat) { Maps(j.s, j.target, j.dst, k) }

  function From(j: Job, k: nat): (a: nat)
    requires FromMaps(j, k)
  {
    Where(j.s, j.source, j.src, k)
  }

  function To(j: Job, k: nat): (a: nat)
    requires ToMaps(j, k)
  {
    Where(j.s, j.target, j.dst, k)
  }

  /** What is left of the source's page at byte `f`. */
  function Length(j: Job, f: nat): (n: nat)
    requires f < j.size && FromMaps(j, f)
    ensures 0 < n <= j.size - f
  {
    Chunk(Walk(j.s, j.source, MAX_LEVEL, j.src + f).level, j.src + f, j.size - f)
  }

  /** From byte `f` on, the first bytes of all rounds translate on both sides. */
  predicate Starts(j: Job, f: nat)
    decreases j.size - f
  {
    f < j.size ==> FromMaps(j, f) && ToMaps(j, f) && Starts(j, f + Length(j, f))
  }

  /** Where the rounds from byte `f` on put byte `k`. */
  function RoundTo(j: Job, f: nat, k: nat): (a: nat)
    requires Starts(j, f) && f <= k < j.size
    decreases j.size - f
  {
    if k < f + Length(j, f) then To(j, f) + (k - f) else RoundTo(j, f + Length(j, f), k)
  }

  // ---------------------------------------------------------------- copies from addresses to addresses

  /** The first `n` bytes, each from its address to its address, in order. */
  function CopySeq(m: Memory, from: seq<nat>, to: seq<nat>, n: nat): (r: Memory)
    requires n <= |from| && n <= |to|
  {
    if n == 0 then m
    else
      var b := CopySeq(m, from, to, n - 1);
      b[to[n - 1] := Get(b, from[n - 1])]
  }

  /** No byte goes to an address that one comes from. */
  predicate NoOverlap(from: seq<nat>, to: seq<nat>) {
    forall i, l :: 0 <= i < |from| && 0 <= l < |to| ==> from[i] != to[l]
  }

  lemma {:induction false} SourcesKept(m: Memory, from: seq<nat>, to: seq<nat>, n: nat, i: nat)
    requires n <= |from| && n <= |to| && i < |from| && NoOverlap(from, to)
    ensures Get(CopySeq(m, from, to, n), from[i]) == Get(m, from[i])
    decreases n
  {
    if n > 0 { SourcesKept(m, from, to, n - 1, i); }
  }

  /** A byte whose address no other byte goes to arrives. */
  lemma {:induction false} Arrives(m: Memory, from: seq<nat>, to: seq<nat>, n: nat, i: nat)
    requires i < n <= |from| && n <= |to| && NoOverlap(from, to) && Distinct(to)
    ensures Get(CopySeq(m, from, to, n), to[i]) == Get(m, from[i])
    decreases n
  {
    if i == n - 1 { SourcesKept(m, from, to, n - 1, i); } else { Arrives(m, from, to, n - 1, i); }
  }

  /** An address that is zero, and that only zeros go to, stays zero. */
  lemma {:induction false} StaysZero(m: Memory, from: seq<nat>, to: seq<nat>, n: nat, a: nat)
    requires n <= |from| && n <= |to| && NoOverlap(from, to) && Get(m, a) == 0
    requires forall l :: 0 <= l < n && to[l] == a ==> Get(m, from[l]) == 0
    ensures Get(CopySeq(m, from, to, n), a) == 0
    decreases n
  {
    if n > 0 {
      StaysZero(m, from, to, n - 1, a);
      SourcesKept(m, from, to, n - 1, n - 1);
    }
  }

  /** Two copies from the same addresses agree on all memories only if they go to the same addresses. */
  lemma Distinguished(from: seq<nat>, one: seq<nat>, two: seq<nat>, i: nat)
    requires |one| == |from| == |two| && i < |from| && one[i] != two[i]
    requires Distinct(from) && Distinct(one) && NoOverlap(from, one) && NoOverlap(from, two)
    ensures
      var m: Memory := map[from[i] := 1];
      Get(CopySeq(m, from, one, |from|), one[i]) == 1 && Get(CopySeq(m, from, two, |from|), one[i]) == 0
  {
    var m: Memory := map[from[i] := 1];
    Arrives(m, from, one, |from|, i);
    StaysZero(m, from, two, |from|, one[i]);
  }

  // ---------------------------------------------------------------- both ways of copying as such copies

  lemma {:induction false} FromAllMap(j: Job, f: nat, k: nat)
    requires Starts(j, f) && f <= k < j.size
    ensures FromMaps(j, k)
    decreases j.size - f
  {
    hide Maps, Walk, Chunk;
    var n := Length(j, f);
    if k < f + n {
      ChunkMaps(j.s, j.source, j.src, f, j.size, n);
    } else {
      FromAllMap(j, f + n, k);
    }
  }

  ghost predicate IsFrom(j: Job, from: seq<nat>) {
    |from| == j.size && forall k: nat :: k < j.size ==> FromMaps(j, k) && from[k] == From(j, k)
  }

  ghost predicate IsTo(j: Job, to: seq<nat>) {
    |to| == j.size && forall k: nat :: k < j.size ==> ToMaps(j, k) && to[k] == To(j, k)
  }

  ghost predicate IsRoundTo(j: Job, f: nat, to: seq<nat>) {
    |to| == j.size && Starts(j, f) && forall k: nat :: f <= k < j.size ==> to[k] == RoundTo(j, f, k)
  }

  /** Byte-by-byte copying is the copy to the bytes' own addresses. */
  lemma {:induction false} ForwardSeq(j: Job, m: Memory, from: seq<nat>, to: seq<nat>, n: nat)
    requires IsFrom(j, from) && IsTo(j, to) && n <= j.size
    ensures forall k: nat :: k < n ==> Maps(j.s, j.source, j.src, k)
    ensures forall k: nat :: k < n ==> Maps(j.s, j.target, j.dst, k)
    ensures ForwardEach(j.s, j.source, j.target, m, j.src, j.dst, n) == CopySeq(m, from, to, n)
    decreases n
  {
    hide Maps, Where;
    forall k: nat | k < n ensures Maps(j.s, j.source, j.src, k) { assert FromMaps(j, k); }
    forall k: nat | k < n ensures Maps(j.s, j.target, j.dst, k) { assert ToMaps(j, k); }
    if n > 0 {
      ForwardSeq(j, m, from, to, n - 1);
      assert from[n - 1] == From(j, n - 1) && to[n - 1] == To(j, n - 1);
    }
  }

  lemma {:induction false} RangeSeq(m: Memory, from: seq<nat>, to: seq<nat>, f: nat, n: nat, a: nat, b: nat)
    requires f + n <= |from| && f + n <= |to|
    requires forall k: nat :: f <= k < f + n ==> from[k] == b + (k - f) && to[k] == a + (k - f)
    ensures CopyRange(CopySeq(m, from, to, f), a, b, n) == CopySeq(m, from, to, f + n)
    decreases n
  {
    if n > 0 {
      RangeSeq(m, from, to, f, n - 1, a, b);
      assert from[f + n - 1] == b + (n - 1) && to[f + n - 1] == a + (n - 1);
    }
  }

  ghost function Forwarded(j: Job, m: Memory, f: nat): (r: (Memory, bool)) {
    Rounds(j.s, j.source, j.target, m, j.src, j.dst, j.size, f)
  }

  /** The rounds are the copy to where they put the bytes. */
  lemma {:induction false} RoundsSeq(j: Job, m: Memory, from: seq<nat>, to: seq<nat>, f: nat)
    requires f <= j.size && IsFrom(j, from) && IsRoundTo(j, f, to)
    ensures Forwarded(j, CopySeq(m, from, to, f), f) == (CopySeq(m, from, to, j.size), true)
    decreases j.size - f
  {
    hide Maps, Where, Walk, Chunk, CopyRange, RoundTo;
    if f < j.size {
      var n := Length(j, f);
      RoundRange(j, from, to, f, n);
      RangeSeq(m, from, to, f, n, To(j, f), From(j, f));
      NextRound(j, to, f, n);
      RoundsSeq(j, m, from, to, f + n);
      OneRound(j, CopySeq(m, from, to, f), f, n);
    }
  }

  lemma RoundRange(j: Job, from: seq<nat>, to: seq<nat>, f: nat, n: nat)
    requires f < j.size && IsFrom(j, from) && IsRoundTo(j, f, to) && FromMaps(j, f) && ToMaps(j, f) && n == Length(j, f)
    ensures forall k: nat :: f <= k < f + n ==> from[k] == From(j, f) + (k - f) && to[k] == To(j, f) + (k - f)
  {
    hide Maps, Where, Walk, Chunk;
    ChunkMaps(j.s, j.source, j.src, f, j.size, n);
    forall k: nat | f <= k < f + n ensures from[k] == From(j, f) + (k - f) && to[k] == To(j, f) + (k - f) {
      assert InChunk(j.s, j.source, j.src, f, k);
      assert from[k] == From(j, k) && to[k] == RoundTo(j, f, k);
    }
  }

  lemma NextRound(j: Job, to: seq<nat>, f: nat, n: nat)
    requires f < j.size && IsRoundTo(j, f, to) && FromMaps(j, f) && n == Length(j, f)
    ensures IsRoundTo(j, f + n, to)
  {
    forall k: nat | f + n <= k < j.size ensures to[k] == RoundTo(j, f + n, k) { assert to[k] == RoundTo(j, f, k); }
  }

  lemma OneRound(j: Job, m: Memory, f: nat, n: nat)
    requires f < j.size && FromMaps(j, f) && ToMaps(j, f) && n == Length(j, f)
    ensures Forwarded(j, m, f) == Forwarded(j, CopyRange(m, To(j, f), From(j, f), n), f + n)
  {
    hide Walk, CopyRange, Chunk;
    WalkedOn(j.s, j.source, j.src, f);
    WalkedOn(j.s, j.target, j.dst, f);
  }

  // ---------------------------------------------------------------- the exact condition

  ghost predicate FitsFrom(j: Job, f: nat) { StepsFit(j.s, j.source, j.target, j.src, j.dst, j.size, f) }

  /** The rounds put every byte from `f` on where its own address says. */
  ghost predicate Right(j: Job, f: nat)
    requires Starts(j, f)
  {
    forall k: nat :: f <= k < j.size ==> ToMaps(j, k) && RoundTo(j, f, k) == To(j, k)
  }

  /** The rounds fit exactly when they put every byte right. */
  lemma {:induction false} FitsRight(j: Job, f: nat)
    requires Starts(j, f)
    ensures FitsFrom(j, f) <==> Right(j, f)
    decreases j.size - f
  {
    hide Maps, Where, Walk, Chunk, Consecutive, Right, RoundTo;
    if f < j.size {
      var n := Length(j, f);
      FitsRight(j, f + n);
      WalkedOn(j.s, j.source, j.src, f);
      WalkedOn(j.s, j.target, j.dst, f);
      RightParts(j, f, n);
    } else {
      NothingLeft(j, f);
    }
  }

  lemma NothingLeft(j: Job, f: nat)
    requires Starts(j, f) && f >= j.size
    ensures Right(j, f)
  {
  }

  lemma RightParts(j: Job, f: nat, n: nat)
    requires f < j.size && Starts(j, f) && n == Length(j, f)
    ensures Right(j, f) <==> Consecutive(j.s, j.target, j.dst, f, n) && Right(j, f + n)
  {
    hide Maps, Where, Walk, Chunk;
    if Right(j, f) {
      forall k: nat | f <= k < f + n
        ensures InChunk(j.s, j.target, j.dst, f, k)
      {
        assert ToMaps(j, k) && RoundTo(j, f, k) == To(j, k);
      }
      forall k: nat | f + n <= k < j.size
        ensures ToMaps(j, k) && RoundTo(j, f + n, k) == To(j, k)
      {
        assert ToMaps(j, k) && RoundTo(j, f, k) == To(j, k);
      }
    }
    if Consecutive(j.s, j.target, j.dst, f, n) && Right(j, f + n) {
      forall k: nat | f <= k < j.size ensures ToMaps(j, k) && RoundTo(j, f, k) == To(j, k) {
        if k < f + n {
          assert InChunk(j.s, j.target, j.dst, f, k);
        } else {
          assert ToMaps(j, k) && RoundTo(j, f + n, k) == To(j, k);
        }
      }
    }
  }

  ghost predicate Mapped(j: Job) { AllMap(j.s, j.source, j.target, j.src, j.dst, j.size) }

  /**
   Forwarding does to memory `m` what byte-by-byte copying does: it succeeds when all bytes translate, and then leaves
   the same.
   */
  ghost predicate Agrees(j: Job, m: Memory) {
    var r := Forwarded(j, m, 0);
    && (r.1 <==> Mapped(j))
    && (Mapped(j) ==> r.0 == ForwardEach(j.s, j.source, j.target, m, j.src, j.dst, j.size))
  }

  /** No physical byte is read twice, written twice by the byte-by-byte copy, or both read and written. */
  ghost predicate NoAliasing(j: Job)
    requires Starts(j, 0)
  {
    && (forall i: nat, l: nat :: i < l < j.size && FromMaps(j, i) && FromMaps(j, l) ==> From(j, i) != From(j, l))
    && (forall i: nat, l: nat :: i < l < j.size && ToMaps(j, i) && ToMaps(j, l) ==> To(j, i) != To(j, l))
    && (forall i: nat, l: nat :: i < j.size && l < j.size && FromMaps(j, i) && ToMaps(j, l) ==> From(j, i) != To(j, l))
    && (forall i: nat, l: nat :: i < j.size && l < j.size && FromMaps(j, i) ==> From(j, i) != RoundTo(j, 0, l))
  }

  /** Unless all rounds start on bytes that translate, both ways of copying fail. */
  lemma {:induction false} FaultsAgree(j: Job, m: Memory, f: nat)
    requires !Starts(j, f)
    ensures !Forwarded(j, m, f).1 && !Mapped(j)
    decreases j.size - f
  {
    hide Walk, CopyRange, Chunk;
    assert f < j.size;
    WalkedOn(j.s, j.source, j.src, f);
    WalkedOn(j.s, j.target, j.dst, f);
    if FromMaps(j, f) && ToMaps(j, f) {
      var n := Length(j, f);
      OneRound(j, m, f, n);
      FaultsAgree(j, CopyRange(m, To(j, f), From(j, f), n), f + n);
    }
  }

  /** Where the rounds fit, forwarding agrees with byte-by-byte copying on every memory. */
  lemma FitsAgrees(j: Job, m: Memory)
    requires FitsFrom(j, 0)
    ensures Agrees(j, m)
  {
    ForwardIsByteCopy(j.s, j.source, j.target, m, j.src, j.dst, j.size);
  }

  /** Where they do not, and nothing is aliased, there is a memory on which forwarding disagrees. */
  lemma MisfitDisagrees(j: Job) returns (m: Memory)
    requires Starts(j, 0) && NoAliasing(j) && !FitsFrom(j, 0)
    ensures !Agrees(j, m)
  {
    hide Maps, Where, Walk, Chunk, Rounds, CopySeq, ForwardEach, StepsFit, RoundTo, NoAliasing;
    m := map[];
    FitsRight(j, 0);
    var from, two := Froms(j), RoundTos(j);
    RoundsSeq(j, m, from, two, 0);
    NothingCopied(m, from, two);
    if Mapped(j) {
      var one := Tos(j);
      var i: nat :| i < j.size && !(ToMaps(j, i) && RoundTo(j, 0, i) == To(j, i));
      Separate(j, from, one, two);
      assert one[i] == To(j, i) && two[i] == RoundTo(j, 0, i);
      m := map[from[i] := 1];
      Distinguished(from, one, two, i);
      RoundsSeq(j, m, from, two, 0);
      ForwardSeq(j, m, from, one, j.size);
      NothingCopied(m, from, two);
    }
  }

  lemma NothingCopied(m: Memory, from: seq<nat>, to: seq<nat>)
    ensures CopySeq(m, from, to, 0) == m
  {
  }

  ghost function Froms(j: Job): (from: seq<nat>)
    requires Starts(j, 0)
    ensures IsFrom(j, from)
  {
    assert forall k: nat :: k < j.size ==> FromMaps(j, k) by {
      forall k: nat | k < j.size ensures FromMaps(j, k) { FromAllMap(j, 0, k); }
    }
    seq(j.size, k requires 0 <= k < j.size => From(j, k))
  }

  ghost function Tos(j: Job): (to: seq<nat>)
    requires Mapped(j)
    ensures IsTo(j, to)
  {
    assert forall k: nat :: k < j.size ==> ToMaps(j, k) by {
      forall k: nat | k < j.size ensures ToMaps(j, k) { assert Maps(j.s, j.target, j.dst, k); }
    }
    seq(j.size, k requires 0 <= k < j.size => To(j, k))
  }

  ghost function RoundTos(j: Job): (to: seq<nat>)
    requires Starts(j, 0)
    ensures IsRoundTo(j, 0, to)
  {
    seq(j.size, k requires 0 <= k < j.size => RoundTo(j, 0, k))
  }

  lemma Separate(j: Job, from: seq<nat>, one: seq<nat>, two: seq<nat>)
    requires Starts(j, 0) && NoAliasing(j) && IsFrom(j, from) && IsTo(j, one) && IsRoundTo(j, 0, two)
    ensures Distinct(from) && Distinct(one) && NoOverlap(from, one) && NoOverlap(from, two)
  {
    hide Maps, Where, RoundTo, From, To;
    forall i: nat | i < j.size ensures from[i] == From(j, i) && one[i] == To(j, i) && two[i] == RoundTo(j, 0, i) { }
  }

  /** Without aliasing, forwarding is byte-by-byte copying exactly when each round's target bytes are consecutive. */
  lemma ForwardExactly(j: Job)
    requires Starts(j, 0) && NoAliasing(j)
    ensures (forall m: Memory :: Agrees(j, m)) <==> FitsFrom(j, 0)
  {
    if FitsFrom(j, 0) {
      forall m: Memory ensures Agrees(j, m) { FitsAgrees(j, m); }
    } else {
      var m := MisfitDisagrees(j);
    }
  }

  // ---------------------------------------------------------------- a copy that goes wrong

  /** A 2 MiB page at address 0 of one task; two 4 KiB pages, not adjacent in physical memory, at 0 of another. */
  function Uneven(): (s: State) {
    var rw := Rights(true, true, false);
    State(map[],
          map[(0x1000, 0) := TableEntry(0x2000), (0x2000, 0) := PageEntry(rw, 0x20_0000),
              (0x3000, 0) := TableEntry(0x4000), (0x4000, 0) := TableEntry(0x5000),
              (0x5000, 0) := PageEntry(rw, 0x6000), (0x5000, 1) := PageEntry(rw, 0x9000)])
  }

  const UNEVEN: Job := Job(Uneven(), 0x1000, 0x3000, 0, 0, 5000)

  lemma UnevenBytes(k: nat)
    requires k < 5000
    ensures FromMaps(UNEVEN, k) && From(UNEVEN, k) == 0x20_0000 + k
    ensures ToMaps(UNEVEN, k) && To(UNEVEN, k) == if k < 4096 then 0x6000 + k else 0x9000 + (k - 4096)
  {
    assert PageSize(0) == 0x1000 && PageSize(1) == 0x20_0000 && PageSize(2) == 0x4000_0000;
  }

  /** One round copies all 5000 bytes. */
  lemma UnevenRound()
    ensures Starts(UNEVEN, 0) && forall k: nat :: k < 5000 ==> RoundTo(UNEVEN, 0, k) == 0x6000 + k
  {
    hide Maps, Where;
    UnevenBytes(0);
    UnevenLength();
    forall k: nat | k < 5000 ensures RoundTo(UNEVEN, 0, k) == 0x6000 + k { }
  }

  lemma UnevenLength()
    ensures FromMaps(UNEVEN, 0) && Length(UNEVEN, 0) == 5000
  {
    UnevenBytes(0);
    assert PageSize(0) == 0x1000 && PageSize(1) == 0x20_0000 && PageSize(2) == 0x4000_0000;
  }

  /**
   With a one in byte 4096 of the source, byte-by-byte copying puts it at 0x9000; forwarding reports success, leaves
   0x9000 as it was, and overwrites 0x7000, just past the target's first page.
   */
  lemma ForwardOverruns()
    ensures
      var m: Memory := map[0x20_1000 := 1];
      var r := Forwarded(UNEVEN, m, 0);
      && Mapped(UNEVEN) && r.1
      && Get(ForwardEach(Uneven(), 0x1000, 0x3000, m, 0, 0, 5000), 0x9000) == 1
      && Get(r.0, 0x9000) == 0 && Get(r.0, 0x7000) == 1
  {
    hide Maps, Where, Walk, Rounds, CopySeq, ForwardEach, Uneven, From, To, RoundTo, Starts;
    var m: Memory := map[0x20_1000 := 1];
    UnevenRound();
    forall k: nat | k < 5000 ensures FromMaps(UNEVEN, k) && ToMaps(UNEVEN, k) { UnevenBytes(k); }
    UnevenMapped();
    var from, one, two := Froms(UNEVEN), Tos(UNEVEN), RoundTos(UNEVEN);
    UnevenSeqs(from, one, two);
    Distinguished(from, one, two, 4096);
    Arrives(m, from, two, 5000, 4096);
    RoundsSeq(UNEVEN, m, from, two, 0);
    NothingCopied(m, from, two);
    ForwardSeq(UNEVEN, m, from, one, 5000);
  }

  lemma UnevenMapped()
    ensures Mapped(UNEVEN)
  {
    hide Maps, Where;
    forall k: nat | k < 5000 ensures FromMaps(UNEVEN, k) { UnevenBytes(k); }
    forall k: nat | k < 5000 ensures ToMaps(UNEVEN, k) { UnevenBytes(k); }
    forall k: nat | k < 5000 ensures Maps(UNEVEN.s, UNEVEN.source, UNEVEN.src, k) { assert FromMaps(UNEVEN, k); }
    forall k: nat | k < 5000 ensures Maps(UNEVEN.s, UNEVEN.target, UNEVEN.dst, k) { assert ToMaps(UNEVEN, k); }
  }

  lemma UnevenSeqs(from: seq<nat>, one: seq<nat>, two: seq<nat>)
    requires IsFrom(UNEVEN, from) && IsTo(UNEVEN, one) && IsRoundTo(UNEVEN, 0, two)
    ensures |from| == |one| == |two| == 5000
    ensures Distinct(from) && Distinct(one) && Distinct(two) && NoOverlap(from, one) && NoOverlap(from, two)
    ensures from[4096] == 0x20_1000 && one[4096] == 0x9000 && two[4096] == 0x7000
  {
    hide Maps, Where, From, To, RoundTo, Starts;
    UnevenRound();
    forall k: nat | k < 5000
      ensures from[k] == 0x20_0000 + k && one[k] == (if k < 4096 then 0x6000 + k else 0x9000 + (k - 4096))
      ensures two[k] == 0x6000 + k
    {
      UnevenBytes(k);
    }
  }
}
