/**
 The walk over a flattened devicetree: what the walker does on any bytes, and that on the bytes of a tree
 (section 5.4 of the Devicetree Specification) it visits the nodes of that tree.
 */
module DeviceTree {

  type Byte = b: nat | b < 256

  const BEGIN_NODE: nat := 1
  const END_NODE: nat := 2
  const PROP: nat := 3
  const NOP: nat := 4

  // ---------------------------------------------------------------- cursor helpers

  /** The big-endian number at `p`; what is outside the blob reads as zero. */
  function U32(d: seq<Byte>, p: nat): (n: nat) {
    if p + 4 <= |d| then
      var a: nat, b: nat, c: nat, e: nat := d[p], d[p + 1], d[p + 2], d[p + 3];
      a * 0x100_0000 + b * 0x1_0000 + c * 0x100 + e
    else 0
  }

  function Align(p: nat): (q: nat)
    ensures p <= q < p + 4 && q % 4 == 0
  {
    (p + 3) / 4 * 4
  }

  /** Just past the string at `p` and its terminator. */
  function PastString(d: seq<Byte>, p: nat): (q: nat)
    ensures q > p
    decreases |d| - p
  {
    if p >= |d| || d[p] == 0 then p + 1 else PastString(d, p + 1)
  }

  function SkipNops(d: seq<Byte>, p: nat): (q: nat)
    ensures q >= p && U32(d, q) != NOP
    decreases |d| - p
  {
    if U32(d, p) == NOP then SkipNops(d, p + 4) else p
  }

  /** The string at offset `p`, without its terminator. */
  function StringAt(d: seq<Byte>, p: nat): (s: seq<Byte>)
    decreases |d| - p
  {
    if p >= |d| || d[p] == 0 then [] else [d[p]] + StringAt(d, p + 1)
  }

  // ---------------------------------------------------------------- what the walker does

  /** `#address-cells` and `#size-cells` for the children of a node. */
  datatype Cells = Cells(address: nat, size: nat)

  const DEFAULT_CELLS: Cells := Cells(2, 1)

  /** "#address-cells" */
  const ADDRESS_CELLS: seq<Byte> := [35, 97, 100, 100, 114, 101, 115, 115, 45, 99, 101, 108, 108, 115]

  /** "#size-cells" */
  const SIZE_CELLS: seq<Byte> := [35, 115, 105, 122, 101, 45, 99, 101, 108, 108, 115]

  /** What a property with name offset `off` and first word `v` does to the cell counts. */
  function SetCells(strings: seq<Byte>, off: nat, v: nat, c: Cells): (r: Cells) {
    if off >= |strings| then c
    else if StringAt(strings, off) == ADDRESS_CELLS then c.(address := v)
    else if StringAt(strings, off) == SIZE_CELLS then c.(size := v)
    else c
  }

  /** One call of the callback: the node's name, and the cell counts its parent gives it. */
  datatype Visit = Visit(name: seq<Byte>, cells: Cells)

  /** The callback, as it answers after the calls so far. */
  type Callback = seq<Visit> -> bool

  datatype Result = Parsed(pos: nat, log: seq<Visit>) | Halted

  /** The part of a node's name that is copied: what comes before an `@`, at most 31 bytes of it. */
  function BaseName(s: seq<Byte>): (r: seq<Byte>) {
    var b := Before(s, 64);
    if |b| > 31 then b[..31] else b
  }

  function Before(s: seq<Byte>, c: Byte): (r: seq<Byte>) {
    if s == [] || s[0] == c then [] else [s[0]] + Before(s[1..], c)
  }

  /** The loop over properties: where it ends, and the cell counts found. */
  function Props(d: seq<Byte>, strings: seq<Byte>, p: nat, end: nat, c: Cells): (r: (nat, Cells))
    ensures r.0 >= p
    decreases end - p
  {
    if p >= end then (p, c)
    else
      var q := SkipNops(d, p);
      if U32(d, q) != PROP then (q, c)
      else
        Props(d, strings, Align(q + 12 + U32(d, q + 4)), end, SetCells(strings, U32(d, q + 8), U32(d, q + 12), c))
  }

  function Left(d: seq<Byte>, p: nat): (n: nat) { if p < |d| then |d| - p else 0 }

  /** `_parse_dtb_node`; `on` says whether the callback is called or replaced by one that refuses. */
  function ParseNode(d: seq<Byte>, strings: seq<Byte>, p: nat, end: nat, c: Cells, on: bool, cb: Callback,
      log: seq<Visit>): (r: Result)
    ensures r.Parsed? ==> r.pos > p
    decreases Left(d, p), 0
  {
    if c.address == 0 then Halted
    else if U32(d, p) != BEGIN_NODE then Parsed(p + 4, log)
    else
      var log' := if on then log + [Visit(BaseName(StringAt(d, p + 4)), c)] else log;
      var go := on && cb(log');
      var q := SkipNops(d, Align(PastString(d, p + 4)));
      var (q', cells) := Props(d, strings, q, end, DEFAULT_CELLS);
      var r := ParseKids(d, strings, q', end, cells, go, cb, log');
      if r.Halted? then Halted
      else if r.pos < end && U32(d, r.pos) == END_NODE then Parsed(r.pos + 4, r.log)
      else r
  }

  /** The loop over children. */
  function ParseKids(d: seq<Byte>, strings: seq<Byte>, p: nat, end: nat, c: Cells, on: bool, cb: Callback,
      log: seq<Visit>): (r: Result)
    ensures r.Parsed? ==> r.pos >= p
    decreases Left(d, p), 1
  {
    if p >= end then Parsed(p, log)
    else
      var q := SkipNops(d, p);
      if U32(d, q) != BEGIN_NODE then Parsed(q, log)
      else
        var r := ParseNode(d, strings, q, end, c, on, cb, log);
        if r.Halted? then Halted else ParseKids(d, strings, r.pos, end, c, on, cb, r.log)
  }

  // ---------------------------------------------------------------- trees and their bytes

  /** A property; `gap` is the number of NOP tokens after it. */
  datatype Property = Property(off: nat, value: seq<Byte>, gap: nat)

  /** A node; `gap` NOP tokens come after its name, `after` of them after its end. */
  datatype Node = Node(name: seq<Byte>, gap: nat, props: seq<Property>, kids: seq<Node>, after: nat)

  function Big(n: nat): (s: seq<Byte>)
    requires n < 0x1_0000_0000
    ensures |s| == 4
  {
    [n / 0x100_0000, n / 0x1_0000 % 256, n / 0x100 % 256, n % 256]
  }

  function Nops(n: nat): (s: seq<Byte>)
    ensures |s| == 4 * n
  {
    if n == 0 then [] else Big(NOP) + Nops(n - 1)
  }

  /** Zero bytes up to the next multiple of four. */
  function Padding(n: nat): (s: seq<Byte>)
    ensures |s| == Align(n) - n
  {
    seq(Align(n) - n, _ => 0)
  }

  predicate PropOk(strings: seq<Byte>, a: Property) {
    && a.off < 0x1_0000_0000 && |a.value| < 0x1_0000_0000
    && (a.off < |strings| && (StringAt(strings, a.off) == ADDRESS_CELLS || StringAt(strings, a.off) == SIZE_CELLS) ==>
          |a.value| == 4)
  }

  /** A tree that can be written: no zero byte in a name, numbers of 32 bits, cell counts of one word. */
  ghost predicate NodeOk(strings: seq<Byte>, n: Node)
    decreases n
  {
    && (forall i :: 0 <= i < |n.name| ==> n.name[i] != 0)
    && (forall i :: 0 <= i < |n.props| ==> PropOk(strings, n.props[i]))
    && (forall i :: 0 <= i < |n.kids| ==> NodeOk(strings, n.kids[i]))
  }

  function PropBytes(a: Property): (s: seq<Byte>)
    requires a.off < 0x1_0000_0000 && |a.value| < 0x1_0000_0000
  {
    Big(PROP) + Big(|a.value|) + Big(a.off) + a.value + Padding(|a.value|) + Nops(a.gap)
  }

  function PropsBytes(strings: seq<Byte>, ps: seq<Property>): (s: seq<Byte>)
    requires forall i :: 0 <= i < |ps| ==> PropOk(strings, ps[i])
  {
    if ps == [] then [] else assert PropOk(strings, ps[0]); PropBytes(ps[0]) + PropsBytes(strings, ps[1..])
  }

  ghost function NodeBytes(strings: seq<Byte>, n: Node): (s: seq<Byte>)
    requires NodeOk(strings, n)
    decreases n, |n.kids| + 1
  {
    Big(BEGIN_NODE) + (n.name + [0]) + Padding(|n.name| + 1) + Nops(n.gap)
      + PropsBytes(strings, n.props) + KidsBytes(strings, n, 0) + Big(END_NODE)
  }

  /** The children from number `i` on. */
  ghost function KidsBytes(strings: seq<Byte>, n: Node, i: nat): (s: seq<Byte>)
    requires NodeOk(strings, n) && i <= |n.kids|
    decreases n, |n.kids| - i
  {
    if i == |n.kids| then [] else NodeBytes(strings, n.kids[i]) + Nops(n.kids[i].after) + KidsBytes(strings, n, i + 1)
  }

  // ---------------------------------------------------------------- what a walk of the tree should visit

  function Word(s: seq<Byte>): (n: nat) { U32(s, 0) }

  function CellsOf(strings: seq<Byte>, ps: seq<Property>, c: Cells): (r: Cells) {
    if ps == [] then c else CellsOf(strings, ps[1..], SetCells(strings, ps[0].off, Word(ps[0].value), c))
  }

  /** Every node that has children gives them at least one address cell. */
  ghost predicate NoZeroCells(strings: seq<Byte>, n: Node)
    decreases n
  {
    && (n.kids != [] ==> CellsOf(strings, n.props, DEFAULT_CELLS).address > 0)
    && forall i :: 0 <= i < |n.kids| ==> NoZeroCells(strings, n.kids[i])
  }

  /**
   The calls of the callback on a tree: the node first, with its parent's cell counts, then its children in
   order, with the counts the node gives; none below a node for which the callback returned false.
   */
  ghost function Visits(strings: seq<Byte>, n: Node, c: Cells, on: bool, cb: Callback, log: seq<Visit>): (r: seq<Visit>)
    decreases n, |n.kids| + 1
  {
    var log' := if on then log + [Visit(BaseName(n.name), c)] else log;
    KidVisits(strings, n, 0, CellsOf(strings, n.props, DEFAULT_CELLS), on && cb(log'), cb, log')
  }

  ghost function KidVisits(strings: seq<Byte>, n: Node, i: nat, c: Cells, on: bool, cb: Callback,
      log: seq<Visit>): (r: seq<Visit>)
    requires i <= |n.kids|
    decreases n, |n.kids| - i
  {
    if i == |n.kids| then log
    else KidVisits(strings, n, i + 1, c, on, cb, Visits(strings, n.kids[i], c, on, cb, log))
  }

  // ---------------------------------------------------------------- bytes in place

  /** The bytes `s` are at `p`. */
  predicate At(d: seq<Byte>, p: nat, s: seq<Byte>) {
    p + |s| <= |d| && forall i :: 0 <= i < |s| ==> d[p + i] == s[i]
  }

  lemma AtParts(d: seq<Byte>, p: nat, a: seq<Byte>, b: seq<Byte>)
    requires At(d, p, a + b)
    ensures At(d, p, a) && At(d, p + |a|, b)
  {
    var s := a + b;
    forall i | 0 <= i < |a| ensures d[p + i] == a[i] { assert s[i] == a[i]; }
    forall i | 0 <= i < |b| ensures d[p + |a| + i] == b[i] {
      assert s[|a| + i] == b[i] && d[p + (|a| + i)] == s[|a| + i];
    }
  }

  /** The digits of a number of 32 bits, to the base 256, make it up. */
  lemma Digits(n: nat)
    requires n < 0x1_0000_0000
    ensures n == n / 0x100_0000 * 0x100_0000 + n / 0x1_0000 % 256 * 0x1_0000 + n / 0x100 % 256 * 0x100 + n % 256
  {
    TopDigit(n);
    MiddleDigit(n);
  }

  lemma TopDigit(n: nat)
    ensures n / 0x1_0000 == n / 0x100_0000 * 256 + n / 0x1_0000 % 256
  {
  }

  lemma MiddleDigit(n: nat)
    ensures n / 0x100 == n / 0x1_0000 * 256 + n / 0x100 % 256
  {
  }

  lemma BigAt(d: seq<Byte>, p: nat, n: nat)
    requires n < 0x1_0000_0000 && At(d, p, Big(n))
    ensures U32(d, p) == n
  {
    var s := Big(n);
    assert d[p + 0] == s[0] && d[p + 1] == s[1] && d[p + 2] == s[2] && d[p + 3] == s[3];
    Digits(n);
  }

  lemma {:induction false} NopsAt(d: seq<Byte>, p: nat, n: nat)
    requires At(d, p, Nops(n)) && U32(d, p + 4 * n) != NOP
    ensures SkipNops(d, p) == p + 4 * n
    decreases n
  {
    if n > 0 {
      AtParts(d, p, Big(NOP), Nops(n - 1));
      BigAt(d, p, NOP);
      NopsAt(d, p + 4, n - 1);
    }
  }

  lemma {:induction false} NameAt(d: seq<Byte>, p: nat, s: seq<Byte>)
    requires At(d, p, s + [0]) && forall i :: 0 <= i < |s| ==> s[i] != 0
    ensures StringAt(d, p) == s && PastString(d, p) == p + |s| + 1
    decreases |s|
  {
    var z := s + [0];
    assert d[p + 0] == z[0];
    if s != [] {
      assert z == [s[0]] + (s[1..] + [0]);
      AtParts(d, p, [s[0]], s[1..] + [0]);
      NameAt(d, p + 1, s[1..]);
    }
  }

  /** A whole number of words. */
  predicate Whole(n: nat) { n % 4 == 0 }

  lemma WholeSum(a: nat, b: nat)
    requires Whole(a) && Whole(b)
    ensures Whole(a + b)
  {
  }

  lemma WholeWords(n: nat)
    ensures Whole(4 * n) && Whole(Align(n))
  {
  }

  lemma AlignFrom(p: nat, n: nat)
    requires Whole(p)
    ensures Align(p + n) == p + Align(n)
  {
  }

  // ---------------------------------------------------------------- the walker on the properties of a node

  lemma PropSize(a: Property)
    requires a.off < 0x1_0000_0000 && |a.value| < 0x1_0000_0000
    ensures |PropBytes(a)| == 12 + Align(|a.value|) + 4 * a.gap && Whole(|PropBytes(a)|)
  {
    hide Big, Nops;
    WholeWords(|a.value|);
  }

  /** What stands where in the bytes of a property. */
  lemma PropAt(d: seq<Byte>, strings: seq<Byte>, p: nat, a: Property, c: Cells)
    requires PropOk(strings, a) && At(d, p, PropBytes(a)) && Whole(p)
    ensures U32(d, p) == PROP && U32(d, p + 4) == |a.value| && U32(d, p + 8) == a.off
    ensures SetCells(strings, a.off, U32(d, p + 12), c) == SetCells(strings, a.off, Word(a.value), c)
    ensures Align(p + 12 + |a.value|) == p + 12 + Align(|a.value|)
    ensures At(d, p + 12 + Align(|a.value|), Nops(a.gap))
  {
    hide At, Big, Nops, Padding, U32;
    var n := |a.value|;
    var s1 := Big(PROP) + Big(n);
    var s2 := s1 + Big(a.off);
    var s3 := s2 + a.value;
    var s4 := s3 + Padding(n);
    AtParts(d, p, s4, Nops(a.gap));
    AtParts(d, p, s3, Padding(n));
    AtParts(d, p, s2, a.value);
    AtParts(d, p, s1, Big(a.off));
    AtParts(d, p, Big(PROP), Big(n));
    BigAt(d, p, PROP);
    BigAt(d, p + 4, n);
    BigAt(d, p + 8, a.off);
    AlignFrom(p + 12, n);
    if n == 4 { WordAt(d, p + 12, a.value); }
  }

  lemma WordAt(d: seq<Byte>, p: nat, s: seq<Byte>)
    requires |s| == 4 && At(d, p, s)
    ensures U32(d, p) == Word(s)
  {
    assert d[p + 0] == s[0] && d[p + 1] == s[1] && d[p + 2] == s[2] && d[p + 3] == s[3];
  }

  /** NOP tokens before the next property, or before what follows the last, make no difference. */
  lemma PropsSkip(d: seq<Byte>, strings: seq<Byte>, p: nat, end: nat, c: Cells)
    requires SkipNops(d, p) < end
    ensures Props(d, strings, p, end, c) == Props(d, strings, SkipNops(d, p), end, c)
  {
    assert SkipNops(d, SkipNops(d, p)) == SkipNops(d, p);
  }

  lemma {:induction false} PropsLength(strings: seq<Byte>, ps: seq<Property>)
    requires forall i :: 0 <= i < |ps| ==> PropOk(strings, ps[i])
    ensures Whole(|PropsBytes(strings, ps)|)
  {
    hide PropBytes, Whole;
    if ps != [] {
      assert PropOk(strings, ps[0]);
      PropSize(ps[0]);
      PropsLength(strings, ps[1..]);
      WholeSum(|PropBytes(ps[0])|, |PropsBytes(strings, ps[1..])|);
    } else {
      WholeWords(0);
    }
  }

  /** The first property's bytes and the others'. */
  lemma PropsAt(d: seq<Byte>, strings: seq<Byte>, p: nat, ps: seq<Property>)
    requires ps != [] && (forall i :: 0 <= i < |ps| ==> PropOk(strings, ps[i])) && At(d, p, PropsBytes(strings, ps))
    requires Whole(p)
    ensures PropOk(strings, ps[0]) && At(d, p, PropBytes(ps[0])) && U32(d, p) == PROP
    ensures
      var q := p + |PropBytes(ps[0])|;
      && At(d, q, PropsBytes(strings, ps[1..])) && Whole(q)
      && |PropsBytes(strings, ps)| == |PropBytes(ps[0])| + |PropsBytes(strings, ps[1..])|
  {
    hide PropBytes, Whole, At, U32, PropOk;
    assert PropOk(strings, ps[0]);
    BytesOk(strings, ps[0]);
    AtParts(d, p, PropBytes(ps[0]), PropsBytes(strings, ps[1..]));
    PropSize(ps[0]);
    WholeSum(p, |PropBytes(ps[0])|);
    PropAt(d, strings, p, ps[0], DEFAULT_CELLS);
  }

  lemma BytesOk(strings: seq<Byte>, a: Property)
    requires PropOk(strings, a)
    ensures a.off < 0x1_0000_0000 && |a.value| < 0x1_0000_0000
  {
  }

  /** The loop reads the properties of a node and stops at the token that follows them. */
  lemma {:induction false} PropsParse(d: seq<Byte>, strings: seq<Byte>, p: nat, end: nat, ps: seq<Property>, c: Cells)
    requires (forall i :: 0 <= i < |ps| ==> PropOk(strings, ps[i])) && At(d, p, PropsBytes(strings, ps)) && Whole(p)
    requires var e := p + |PropsBytes(strings, ps)|; e < end && U32(d, e) != PROP && U32(d, e) != NOP
    ensures Props(d, strings, p, end, c) == (p + |PropsBytes(strings, ps)|, CellsOf(strings, ps, c))
    decreases |ps|
  {
    hide At, U32, PropBytes, PropOk, PropsBytes, Whole, SetCells, Nops;
    if ps == [] {
      NoProps(strings);
    } else {
      PropsAt(d, strings, p, ps);
      var a := ps[0];
      BytesOk(strings, a);
      PropSize(a);
      PropAt(d, strings, p, a, c);
      var q, g, c' := p + |PropBytes(a)|, p + 12 + Align(|a.value|), SetCells(strings, a.off, Word(a.value), c);
      PropsParse(d, strings, q, end, ps[1..], c');
      if ps[1..] != [] { PropsAt(d, strings, q, ps[1..]); } else { NoProps(strings); }
      NopsAt(d, g, a.gap);
      PropsSkip(d, strings, g, end, c');
    }
  }

  lemma NoProps(strings: seq<Byte>)
    ensures PropsBytes(strings, []) == []
  {
  }

  // ---------------------------------------------------------------- the walker on a tree

  lemma NodeSize(strings: seq<Byte>, n: Node)
    requires NodeOk(strings, n)
    ensures |NodeBytes(strings, n)| ==
      8 + Align(|n.name| + 1) + 4 * n.gap + |PropsBytes(strings, n.props)| + |KidsBytes(strings, n, 0)|
  {
    hide Big, Nops, PropsBytes, KidsBytes, Padding;
  }

  lemma KidsSize(strings: seq<Byte>, n: Node, i: nat)
    requires NodeOk(strings, n) && i <= |n.kids|
    ensures i == |n.kids| ==> KidsBytes(strings, n, i) == []
    ensures i < |n.kids| ==>
      |KidsBytes(strings, n, i)|
        == |NodeBytes(strings, n.kids[i])| + 4 * n.kids[i].after + |KidsBytes(strings, n, i + 1)|
  {
    hide Big, Nops, NodeBytes;
  }

  lemma {:induction false} NodeBytesLength(strings: seq<Byte>, n: Node)
    requires NodeOk(strings, n)
    ensures Whole(|NodeBytes(strings, n)|)
    decreases n, |n.kids| + 1
  {
    hide NodeBytes, KidsBytes, PropsBytes;
    NodeSize(strings, n);
    PropsLength(strings, n.props);
    KidsBytesLength(strings, n, 0);
    WholeWords(|n.name| + 1);
  }

  lemma {:induction false} KidsBytesLength(strings: seq<Byte>, n: Node, i: nat)
    requires NodeOk(strings, n) && i <= |n.kids|
    ensures Whole(|KidsBytes(strings, n, i)|)
    decreases n, |n.kids| - i
  {
    hide NodeBytes, KidsBytes;
    KidsSize(strings, n, i);
    if i < |n.kids| {
      NodeBytesLength(strings, n.kids[i]);
      KidsBytesLength(strings, n, i + 1);
    }
  }

  /** The bytes of the body of a node, from its properties on. */
  lemma NodeParts(strings: seq<Byte>, n: Node)
    requires NodeOk(strings, n)
    ensures
      var s2 := Big(BEGIN_NODE) + (n.name + [0]) + Padding(|n.name| + 1);
      NodeBytes(strings, n) ==
        s2 + Nops(n.gap) + PropsBytes(strings, n.props) + (KidsBytes(strings, n, 0) + Big(END_NODE))
  {
    hide Big, Nops, PropsBytes, KidsBytes, Padding;
  }

  /** The start of a node's bytes. */
  lemma NodeAt(d: seq<Byte>, strings: seq<Byte>, p: nat, n: Node)
    requires NodeOk(strings, n) && At(d, p, NodeBytes(strings, n)) && Whole(p)
    ensures U32(d, p) == BEGIN_NODE && StringAt(d, p + 4) == n.name
    ensures Align(PastString(d, p + 4)) == p + 4 + Align(|n.name| + 1)
  {
    hide At, Big, Nops, PropsBytes, KidsBytes, Padding, NodeBytes, U32, StringAt, PastString;
    NodeParts(strings, n);
    var s1 := Big(BEGIN_NODE) + (n.name + [0]);
    var s2 := s1 + Padding(|n.name| + 1);
    AtParts(d, p, s2 + Nops(n.gap) + PropsBytes(strings, n.props), KidsBytes(strings, n, 0) + Big(END_NODE));
    AtParts(d, p, s2 + Nops(n.gap), PropsBytes(strings, n.props));
    AtParts(d, p, s2, Nops(n.gap));
    AtParts(d, p, s1, Padding(|n.name| + 1));
    AtParts(d, p, Big(BEGIN_NODE), n.name + [0]);
    BigAt(d, p, BEGIN_NODE);
    NameAt(d, p + 4, n.name);
    AlignFrom(p + 4, |n.name| + 1);
  }

  /** The rest of a node's bytes. */
  lemma BodyAt(d: seq<Byte>, strings: seq<Byte>, p: nat, n: Node)
    requires NodeOk(strings, n) && At(d, p, NodeBytes(strings, n)) && Whole(p)
    ensures
      var a := p + 4 + Align(|n.name| + 1);
      var q := a + 4 * n.gap;
      var k := q + |PropsBytes(strings, n.props)|;
      && At(d, a, Nops(n.gap)) && At(d, q, PropsBytes(strings, n.props))
      && At(d, k, KidsBytes(strings, n, 0) + Big(END_NODE))
      && Whole(q) && Whole(k) && p + |NodeBytes(strings, n)| == k + |KidsBytes(strings, n, 0)| + 4
  {
    hide At, Big, Nops, PropsBytes, KidsBytes, Padding, NodeBytes;
    NodeParts(strings, n);
    NodeSize(strings, n);
    var s2 := Big(BEGIN_NODE) + (n.name + [0]) + Padding(|n.name| + 1);
    AtParts(d, p, s2 + Nops(n.gap) + PropsBytes(strings, n.props), KidsBytes(strings, n, 0) + Big(END_NODE));
    AtParts(d, p, s2 + Nops(n.gap), PropsBytes(strings, n.props));
    AtParts(d, p, s2, Nops(n.gap));
    PropsLength(strings, n.props);
    WholeWords(|n.name| + 1);
    WholeWords(n.gap);
    WholeSum(p + 4 + Align(|n.name| + 1), 4 * n.gap);
    WholeSum(p + 4 + Align(|n.name| + 1) + 4 * n.gap, |PropsBytes(strings, n.props)|);
  }

  /** A child's bytes, the NOP tokens after it, and what follows. */
  lemma KidAt(d: seq<Byte>, strings: seq<Byte>, p: nat, n: Node, i: nat)
    requires NodeOk(strings, n) && i < |n.kids| && Whole(p) && At(d, p, KidsBytes(strings, n, i) + Big(END_NODE))
    ensures
      var kid := n.kids[i];
      var e := p + |NodeBytes(strings, kid)|;
      && At(d, p, NodeBytes(strings, kid)) && At(d, e, Nops(kid.after)) && Whole(e + 4 * kid.after)
      && At(d, e + 4 * kid.after, KidsBytes(strings, n, i + 1) + Big(END_NODE))
  {
    hide At, Big, Nops, NodeBytes;
    var kid, rest := n.kids[i], KidsBytes(strings, n, i + 1) + Big(END_NODE);
    var head := NodeBytes(strings, kid) + Nops(kid.after);
    assert KidsBytes(strings, n, i) + Big(END_NODE) == head + rest;
    AtParts(d, p, head, rest);
    AtParts(d, p, NodeBytes(strings, kid), Nops(kid.after));
    NodeBytesLength(strings, kid);
    WholeWords(kid.after);
    WholeSum(p, |NodeBytes(strings, kid)|);
    WholeSum(p + |NodeBytes(strings, kid)|, 4 * kid.after);
  }

  /** The token at the start of what is left of a node after some of its children. */
  lemma KidsToken(d: seq<Byte>, strings: seq<Byte>, p: nat, n: Node, i: nat)
    requires NodeOk(strings, n) && i <= |n.kids| && Whole(p) && At(d, p, KidsBytes(strings, n, i) + Big(END_NODE))
    ensures U32(d, p) == if i < |n.kids| then BEGIN_NODE else END_NODE
  {
    hide At, Big, NodeBytes, KidsBytes, U32;
    if i < |n.kids| {
      KidAt(d, strings, p, n, i);
      NodeAt(d, strings, p, n.kids[i]);
    } else {
      KidsSize(strings, n, i);
      assert [] + Big(END_NODE) == Big(END_NODE);
      BigAt(d, p, END_NODE);
    }
  }

  /** The walk from the children on, past NOP tokens. */
  lemma KidsSkip(d: seq<Byte>, strings: seq<Byte>, p: nat, end: nat, c: Cells, on: bool, cb: Callback, log: seq<Visit>)
    requires SkipNops(d, p) < end
    ensures ParseKids(d, strings, p, end, c, on, cb, log) == ParseKids(d, strings, SkipNops(d, p), end, c, on, cb, log)
  {
    assert SkipNops(d, SkipNops(d, p)) == SkipNops(d, p);
  }

  /** From child `i` on, all goes well: there are address cells for them, and below them. */
  ghost predicate KidsFine(strings: seq<Byte>, n: Node, i: nat, c: Cells) {
    (i < |n.kids| ==> c.address > 0) && forall j :: i <= j < |n.kids| ==> NoZeroCells(strings, n.kids[j])
  }

  /**
   On the bytes of a node the walker consumes exactly them and makes exactly the calls of the tree, unless a
   node with children has a zero `#address-cells`; then its assertion fails.
   */
  lemma {:induction false} NodeParse(d: seq<Byte>, strings: seq<Byte>, p: nat, end: nat, n: Node, c: Cells, on: bool,
      cb: Callback, log: seq<Visit>)
    requires NodeOk(strings, n) && At(d, p, NodeBytes(strings, n)) && Whole(p) && p + |NodeBytes(strings, n)| <= end
    requires c.address > 0
    ensures
      var r := ParseNode(d, strings, p, end, c, on, cb, log);
      if NoZeroCells(strings, n) then r == Parsed(p + |NodeBytes(strings, n)|, Visits(strings, n, c, on, cb, log))
      else r == Halted
    decreases n, |n.kids| + 1
  {
    hide At, Big, Nops, NodeBytes, KidsBytes, PropsBytes, U32, Whole, BaseName, ParseNode, ParseKids, NoZeroCells,
      KidsFine, Props, CellsOf, NodeOk;
    NodeFacts(strings, n, c, on, cb, log);
    NodeAt(d, strings, p, n);
    BodyAt(d, strings, p, n);
    var a := p + 4 + Align(|n.name| + 1);
    var q := a + 4 * n.gap;
    var k := q + |PropsBytes(strings, n.props)|;
    KidsToken(d, strings, k, n, 0);
    PropsParse(d, strings, q, end, n.props, DEFAULT_CELLS);
    if n.props != [] { PropsAt(d, strings, q, n.props); } else { NoProps(strings); }
    NopsAt(d, a, n.gap);
    var log' := if on then log + [Visit(BaseName(n.name), c)] else log;
    var cells := CellsOf(strings, n.props, DEFAULT_CELLS);
    KidsParse(d, strings, k, end, n, 0, cells, on && cb(log'), cb, log');
    NodeSteps(d, strings, p, end, c, on, cb, log, a, q, k, cells);
  }

  lemma NodeFacts(strings: seq<Byte>, n: Node, c: Cells, on: bool, cb: Callback, log: seq<Visit>)
    ensures NoZeroCells(strings, n) <==> KidsFine(strings, n, 0, CellsOf(strings, n.props, DEFAULT_CELLS))
    ensures NodeOk(strings, n) ==> forall i :: 0 <= i < |n.props| ==> PropOk(strings, n.props[i])
  {
  }

  /** `_parse_dtb_node`, once it is known where its loops end. */
  lemma NodeSteps(d: seq<Byte>, strings: seq<Byte>, p: nat, end: nat, c: Cells, on: bool, cb: Callback,
      log: seq<Visit>, a: nat, q: nat, k: nat, cells: Cells)
    requires c.address > 0 && U32(d, p) == BEGIN_NODE && Align(PastString(d, p + 4)) == a && SkipNops(d, a) == q
    requires Props(d, strings, q, end, DEFAULT_CELLS) == (k, cells)
    ensures
      var log' := if on then log + [Visit(BaseName(StringAt(d, p + 4)), c)] else log;
      var r := ParseKids(d, strings, k, end, cells, on && cb(log'), cb, log');
      ParseNode(d, strings, p, end, c, on, cb, log) ==
        if r.Parsed? && r.pos < end && U32(d, r.pos) == END_NODE then Parsed(r.pos + 4, r.log) else r
  {
    hide U32, StringAt, PastString, Align, SkipNops, Props, BaseName, ParseKids;
  }

  /** One round of the loop over children. */
  lemma KidsSteps(d: seq<Byte>, strings: seq<Byte>, p: nat, end: nat, c: Cells, on: bool, cb: Callback, log: seq<Visit>)
    requires p < end && U32(d, p) == BEGIN_NODE
    ensures
      var r := ParseNode(d, strings, p, end, c, on, cb, log);
      ParseKids(d, strings, p, end, c, on, cb, log) ==
        if r.Halted? then Halted else ParseKids(d, strings, r.pos, end, c, on, cb, r.log)
  {
    hide U32, ParseNode;
  }

  lemma KidsEnd(d: seq<Byte>, strings: seq<Byte>, p: nat, end: nat, c: Cells, on: bool, cb: Callback, log: seq<Visit>)
    requires p < end && U32(d, p) == END_NODE
    ensures ParseKids(d, strings, p, end, c, on, cb, log) == Parsed(p, log)
  {
    hide U32, ParseNode;
  }

  lemma KidsFineNext(strings: seq<Byte>, n: Node, i: nat, c: Cells)
    requires i < |n.kids|
    ensures KidsFine(strings, n, i, c) <==>
      c.address > 0 && NoZeroCells(strings, n.kids[i]) && KidsFine(strings, n, i + 1, c)
  {
  }

  lemma NoCellsHalts(d: seq<Byte>, strings: seq<Byte>, p: nat, end: nat, c: Cells, on: bool, cb: Callback,
      log: seq<Visit>)
    requires c.address == 0
    ensures ParseNode(d, strings, p, end, c, on, cb, log) == Halted
  {
    hide U32, ParseKids;
  }

  lemma {:induction false} KidsParse(d: seq<Byte>, strings: seq<Byte>, p: nat, end: nat, n: Node, i: nat, c: Cells,
      on: bool, cb: Callback, log: seq<Visit>)
    requires NodeOk(strings, n) && i <= |n.kids| && Whole(p)
    requires At(d, p, KidsBytes(strings, n, i) + Big(END_NODE)) && p + |KidsBytes(strings, n, i)| + 4 <= end
    ensures U32(d, p + |KidsBytes(strings, n, i)|) == END_NODE
    ensures
      var r := ParseKids(d, strings, p, end, c, on, cb, log);
      if KidsFine(strings, n, i, c)
      then r == Parsed(p + |KidsBytes(strings, n, i)|, KidVisits(strings, n, i, c, on, cb, log))
      else r == Halted
    decreases n, |n.kids| - i
  {
    hide At, Big, Nops, NodeBytes, KidsBytes, U32, Whole, ParseNode, ParseKids, NoZeroCells, KidsFine, SkipNops;
    KidsToken(d, strings, p, n, i);
    KidsSize(strings, n, i);
    if i < |n.kids| {
      KidAt(d, strings, p, n, i);
      var kid := n.kids[i];
      var e := p + |NodeBytes(strings, kid)|;
      KidsToken(d, strings, e + 4 * kid.after, n, i + 1);
      NopsAt(d, e, kid.after);
      KidsParse(d, strings, e + 4 * kid.after, end, n, i + 1, c, on, cb, Visits(strings, kid, c, on, cb, log));
      KidsSteps(d, strings, p, end, c, on, cb, log);
      KidsFineNext(strings, n, i, c);
      if c.address > 0 {
        NodeParse(d, strings, p, end, kid, c, on, cb, log);
        KidsSkip(d, strings, e, end, c, on, cb, Visits(strings, kid, c, on, cb, log));
      } else {
        NoCellsHalts(d, strings, p, end, c, on, cb, log);
      }
    } else {
      KidsEnd(d, strings, p, end, c, on, cb, log);
      NoKidsFine(strings, n, i, c);
    }
  }

  lemma NoKidsFine(strings: seq<Byte>, n: Node, i: nat, c: Cells)
    requires i == |n.kids|
    ensures KidsFine(strings, n, i, c)
  {
  }

  /** `for_each_dtb_node`, on the structure block at `start`. */
  function ForEachNode(d: seq<Byte>, strings: seq<Byte>, start: nat, size: nat, cb: Callback): (r: Result) {
    ParseNode(d, strings, SkipNops(d, start), start + size, DEFAULT_CELLS, true, cb, [])
  }

  /**
   On the structure block of any tree, `for_each_dtb_node` makes the calls of that tree: all nodes once, in pre-order,
   but for those below a refusal.
   */
  lemma ForEachVisits(d: seq<Byte>, strings: seq<Byte>, start: nat, size: nat, gap: nat, n: Node, cb: Callback)
    requires NodeOk(strings, n) && Whole(start) && At(d, start, Nops(gap) + NodeBytes(strings, n))
    requires 4 * gap + |NodeBytes(strings, n)| <= size
    ensures
      var r := ForEachNode(d, strings, start, size, cb);
      if NoZeroCells(strings, n)
      then r == Parsed(start + 4 * gap + |NodeBytes(strings, n)|, Visits(strings, n, DEFAULT_CELLS, true, cb, []))
      else r == Halted
  {
    hide At, Nops, NodeBytes, U32, ParseNode, Visits;
    AtParts(d, start, Nops(gap), NodeBytes(strings, n));
    WholeWords(gap);
    WholeSum(start, 4 * gap);
    NodeAt(d, strings, start + 4 * gap, n);
    NopsAt(d, start, gap);
    NodeParse(d, strings, start + 4 * gap, start + size, n, DEFAULT_CELLS, true, cb, []);
  }

  // ---------------------------------------------------------------- what names and cell counts are

  lemma {:induction false} BeforeIs(s: seq<Byte>, c: Byte)
    ensures var r := Before(s, c); r <= s && c !in r && (|r| == |s| || s[|r|] == c)
  {
    if s != [] && s[0] != c {
      BeforeIs(s[1..], c);
      var r := Before(s[1..], c);
      assert s == [s[0]] + s[1..];
      if |r| < |s[1..]| { assert s[1..][|r|] == s[|r| + 1]; }
    }
  }

  /** A node's name is copied up to an `@`, the end, or 31 bytes, whichever comes first. */
  lemma BaseNameIs(s: seq<Byte>)
    ensures var r := BaseName(s); r <= s && 64 !in r && |r| <= 31 && (|r| == 31 || |r| == |s| || s[|r|] == 64)
  {
    BeforeIs(s, 64);
  }

  /** Property `a` has the given name. */
  predicate Named(strings: seq<Byte>, a: Property, name: seq<Byte>) {
    a.off < |strings| && StringAt(strings, a.off) == name
  }

  /** The last property of that name, if any. */
  ghost predicate LastNamed(strings: seq<Byte>, ps: seq<Property>, name: seq<Byte>, i: int) {
    && -1 <= i < |ps| && (i >= 0 ==> Named(strings, ps[i], name))
    && forall j :: i < j < |ps| ==> !Named(strings, ps[j], name)
  }

  /**
   The cell counts are what the last `#address-cells` and the last `#size-cells` say, or as before where there is
   none.
   */
  lemma {:induction false} CellsOfIs(strings: seq<Byte>, ps: seq<Property>, c: Cells, a: int, z: int)
    requires LastNamed(strings, ps, ADDRESS_CELLS, a) && LastNamed(strings, ps, SIZE_CELLS, z)
    ensures CellsOf(strings, ps, c).address == if a >= 0 then Word(ps[a].value) else c.address
    ensures CellsOf(strings, ps, c).size == if z >= 0 then Word(ps[z].value) else c.size
    decreases |ps|
  {
    if ps != [] {
      var rest, d := ps[1..], SetCells(strings, ps[0].off, Word(ps[0].value), c);
      LaterNamed(strings, ps, ADDRESS_CELLS, a);
      LaterNamed(strings, ps, SIZE_CELLS, z);
      CellsOfIs(strings, rest, d, if a > 0 then a - 1 else -1, if z > 0 then z - 1 else -1);
      OtherName();
      assert a >= 0 || !Named(strings, ps[0], ADDRESS_CELLS);
      assert z >= 0 || !Named(strings, ps[0], SIZE_CELLS);
    }
  }

  lemma OtherName()
    ensures ADDRESS_CELLS != SIZE_CELLS
  {
    assert ADDRESS_CELLS[1] != SIZE_CELLS[1];
  }

  lemma LaterNamed(strings: seq<Byte>, ps: seq<Property>, name: seq<Byte>, i: int)
    requires ps != [] && LastNamed(strings, ps, name, i)
    ensures LastNamed(strings, ps[1..], name, if i > 0 then i - 1 else -1)
  {
    forall j | (if i > 0 then i - 1 else -1) < j < |ps| - 1
      ensures !Named(strings, ps[1..][j], name)
    {
      assert ps[1..][j] == ps[j + 1];
    }
  }
}
