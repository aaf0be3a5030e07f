/** The devicetree walker as it is: a cursor advanced in place by helpers, loops and recursion. */
module DtbWalker {
  import opened DeviceTree

  class Walker {
    const data: seq<Byte>
    const strings: seq<Byte>
    const callback: Callback
    var src: nat
    var log: seq<Visit>

    constructor (data: seq<Byte>, strings: seq<Byte>, start: nat, callback: Callback)
      ensures this.data == data && this.strings == strings && this.callback == callback && src == start && log == []
    {
      this.data, this.strings, this.callback, src, log := data, strings, callback, start, [];
    }

    /** `_dtb_next_u32`. */
    method NextU32() returns (n: nat)
      modifies this`src
      ensures n == U32(data, old(src)) && src == old(src) + 4
    {
      n := U32(data, src);
      src := src + 4;
    }

    /** `_dtb_next_str`. */
    method NextString() returns (s: seq<Byte>)
      modifies this`src
      ensures s == StringAt(data, old(src)) && src == PastString(data, old(src))
    {
      s := [];
      while src < |data| && data[src] != 0
        invariant s + StringAt(data, src) == StringAt(data, old(src))
        invariant PastString(data, src) == PastString(data, old(src))
        decreases |data| - src
      {
        s := s + [data[src]];
        src := src + 1;
      }
      src := src + 1;
    }

    /** `_dtb_skip_nop`. */
    method SkipNop()
      modifies this`src
      ensures src == SkipNops(data, old(src)) && (Whole(old(src)) ==> Whole(src))
    {
      while U32(data, src) == NOP
        invariant Whole(old(src)) ==> Whole(src)
        invariant SkipNops(data, src) == SkipNops(data, old(src))
        decreases |data| - src
      {
        src := src + 4;
      }
    }

    /** The loop of `_parse_dtb_node` over properties. */
    method ReadProps(end: nat) returns (cells: Cells)
      modifies this`src
      ensures (src, cells) == Props(data, strings, old(src), end, DEFAULT_CELLS) && src >= old(src)
      ensures Whole(old(src)) ==> Whole(src)
    {
      hide U32, SkipNops, Align, SetCells;
      cells := DEFAULT_CELLS;
      while src < end
        invariant src >= old(src) && (Whole(old(src)) ==> Whole(src))
        invariant Props(data, strings, src, end, cells) == Props(data, strings, old(src), end, DEFAULT_CELLS)
        decreases end - src
      {
        var p := src;
        SkipNop();
        if U32(data, src) != PROP {
          return;
        }
        src := src + 4;
        var len := NextU32();
        var off := NextU32();
        cells := SetCells(strings, off, U32(data, src), cells);
        AlignWhole(src + len);
        src := Align(src + len);
      }
    }

    /** `_parse_dtb_node`; false stands for its failed assertion on the address cells. */
    method ParseDtbNode(end: nat, c: Cells, on: bool) returns (ok: bool)
      requires Whole(src)
      modifies this
      ensures Whole(src)
      ensures (if ok then Parsed(src, log) else Halted) ==
        ParseNode(data, strings, old(src), end, c, on, callback, old(log))
      decreases Left(data, src), 0
    {
      hide U32, SkipNops, Align, Props, ParseKids, StringAt, PastString, BaseName;
      if c.address == 0 {
        return false;
      }
      assert src % 4 == 0;
      var token := NextU32();
      if token != BEGIN_NODE {
        return true;
      }
      InData(data, old(src));
      var name := NextString();
      AlignWhole(src);
      src := Align(src);
      SkipNop();
      if on {
        log := log + [Visit(BaseName(name), c)];
      }
      var go := on && callback(log);
      var cells := ReadProps(end);
      ok := ParseChildren(end, cells, go);
      if ok && src < end && U32(data, src) == END_NODE {
        src := src + 4;
      }
    }

    /** `for_each_dtb_node`, from the start of a structure block of `size` bytes. */
    method ForEachDtbNode(size: nat) returns (ok: bool)
      requires Whole(src) && log == []
      modifies this
      ensures (if ok then Parsed(src, log) else Halted) == ForEachNode(data, strings, old(src), size, callback)
    {
      var end := src + size;
      SkipNop();
      ok := ParseDtbNode(end, DEFAULT_CELLS, true);
    }

    /** The loop of `_parse_dtb_node` over children. */
    method ParseChildren(end: nat, cells: Cells, go: bool) returns (ok: bool)
      requires Whole(src)
      modifies this
      ensures Whole(src)
      ensures (if ok then Parsed(src, log) else Halted) ==
        ParseKids(data, strings, old(src), end, cells, go, callback, old(log))
      decreases Left(data, src), 1
    {
      hide U32, SkipNops, ParseNode;
      while src < end
        invariant src >= old(src) && Whole(src)
        invariant ParseKids(data, strings, src, end, cells, go, callback, log) ==
          ParseKids(data, strings, old(src), end, cells, go, callback, old(log))
        decreases end - src
      {
        SkipNop();
        if U32(data, src) != BEGIN_NODE {
          return true;
        }
        var more := ParseDtbNode(end, cells, go);
        if !more {
          return false;
        }
      }
      return true;
    }
  }

  lemma AlignWhole(p: nat)
    ensures Whole(Align(p))
  {
  }

  lemma InData(d: seq<Byte>, p: nat)
    requires U32(d, p) == BEGIN_NODE
    ensures p + 4 <= |d|
  {
  }
}
