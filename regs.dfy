// A memory-mapped register block as the regmap layer presents it: a map
// from byte offset to a 32-bit word, written whole or through a mask.
module Regs {
  type u32 = x: int | 0 <= x < 0x1_0000_0000

  type RegFile = map<int, bv32>

  /** The word a register reads back; a register the model never wrote reads 0. */
  function Get(m: RegFile, off: int): bv32
  {
    if off in m then m[off] else 0
  }

  /** Register file after `regmap_write(off, v)`. */
  function Written(m: RegFile, off: int, v: bv32): (r: RegFile)
    ensures Get(r, off) == v
    ensures forall o :: o != off ==> Get(r, o) == Get(m, o)
    ensures forall o :: o != off && o in m ==> o in r && r[o] == m[o]
  {
    m[off := v]
  }

  /** The word `regmap_update_bits` computes from the old word. */
  function Merge(cur: bv32, mask: bv32, v: bv32): (r: bv32)
    ensures r & mask == v & mask
    ensures r & !mask == cur & !mask
  {
    (cur & !mask) | (v & mask)
  }

  /** Register file after `regmap_update_bits(off, mask, v)`. */
  function BitsUpdated(m: RegFile, off: int, mask: bv32, v: bv32): (r: RegFile)
    ensures Get(r, off) & mask == v & mask
    ensures Get(r, off) & !mask == Get(m, off) & !mask
    ensures forall o :: o != off ==> Get(r, o) == Get(m, o)
  {
    m[off := Merge(Get(m, off), mask, v)]
  }

  /** A 32-bit word read as a C `int` (two's complement). */
  function Signed(x: bv32): int
  {
    if x < 0x8000_0000 then x as int else x as int - 0x1_0000_0000
  }

  /** Single-bit mask, the kernel's BIT(n). */
  function Bit(n: nat): (r: bv32)
    requires n < 32
    ensures r != 0 && r & (r - 1) == 0
  {
    1 << n
  }

  /** Updating the same bits to the same value a second time changes nothing. */
  lemma UpdateTwice(m: RegFile, off: int, mask: bv32, v: bv32)
    ensures BitsUpdated(BitsUpdated(m, off, mask, v), off, mask, v) == BitsUpdated(m, off, mask, v)
  {
    var w := Merge(Get(m, off), mask, v);
    MergeAgain(Get(m, off), mask, v);
    var once := BitsUpdated(m, off, mask, v);
    assert Get(once, off) == w;
  }

  lemma MergeAgain(cur: bv32, mask: bv32, v: bv32)
    ensures Merge(Merge(cur, mask, v), mask, v) == Merge(cur, mask, v)
  {
    var w := (cur & !mask) | (v & mask);
    assert (w & !mask) | (v & mask) == w;
  }

  /** Two updates of the same word make one word holding both merges. */
  lemma UpdatedTwice(m: RegFile, off: int, mask1: bv32, v1: bv32, mask2: bv32, v2: bv32)
    ensures BitsUpdated(BitsUpdated(m, off, mask1, v1), off, mask2, v2)
         == m[off := Merge(Merge(Get(m, off), mask1, v1), mask2, v2)]
  {
    var w := Merge(Get(m, off), mask1, v1);
    assert Get(BitsUpdated(m, off, mask1, v1), off) == w;
  }

  /** An update whose mask covers every bit is a plain write. */
  lemma FullMaskIsWrite(m: RegFile, off: int, v: bv32)
    ensures BitsUpdated(m, off, 0xffff_ffff, v) == Written(m, off, v)
  {
    assert Merge(Get(m, off), 0xffff_ffff, v) == v;
  }

  /** The register block of one hardware unit, as the driver's regmap handle. */
  class RegMap {
    var regs: RegFile

    constructor (init: RegFile)
      ensures regs == init
    {
      regs := init;
    }

    method Write(off: int, v: bv32)
      modifies this
      ensures regs == Written(old(regs), off, v)
    {
      regs := Written(regs, off, v);
    }

    method UpdateBits(off: int, mask: bv32, v: bv32)
      modifies this
      ensures regs == BitsUpdated(old(regs), off, mask, v)
    {
      regs := BitsUpdated(regs, off, mask, v);
    }

    method Read(off: int) returns (v: bv32)
      ensures v == Get(regs, off)
    {
      v := Get(regs, off);
    }
  }
}
