// The channel colour-space converter (CCSC) of the DE2 mixer: a fixed
// 3x4 coefficient matrix per conversion mode, written word by word.
module Csc {
  import opened Regs
  import opened Wrappers

  datatype CscMode = Off | Yuv2Rgb | Yvu2Rgb

  /** The four CCSC unit offsets, indexed by the mixer's `ccsc` set and the VI layer. */
  const CcscBases: seq<seq<int>> := [[0xAA050, 0xFA000], [0xA0000, 0xF0000]]

  /** Control word of a CCSC unit; bit 0 enables it. */
  function CtrlOffset(base: int): int { base }
  const CTRL_EN: bv32 := 1

  /** Offset of coefficient word `i` (0..11) of a CCSC unit. */
  function CoeffOffset(base: int, i: nat): int { base + 0x10 + 4 * i }

  /** Rows are (Y, U, V, constant) factors for R, G and B; two's complement, 10 fraction bits. */
  const Yuv2RgbTable: seq<bv32> := [
    0x000004A8, 0x00000000, 0x00000662, 0xFFFC845A,
    0x000004A8, 0xFFFFFE6F, 0xFFFFFCBF, 0x00021DF4,
    0x000004A8, 0x00000813, 0x00000000, 0xFFFBAC4A
  ]

  const Yvu2RgbTable: seq<bv32> := [
    0x000004A8, 0x00000662, 0x00000000, 0xFFFC845A,
    0x000004A8, 0xFFFFFCBF, 0xFFFFFE6F, 0x00021DF4,
    0x000004A8, 0x00000000, 0x00000813, 0xFFFBAC4A
  ]

  /** The table a mode programs; OFF (and any other mode) has none. */
  function TableFor(mode: CscMode): (r: Option<seq<bv32>>)
    ensures r.Some? <==> mode != Off
    ensures r.Some? ==> |r.value| == 12
    ensures mode == Yuv2Rgb ==> r == Some(Yuv2RgbTable)
    ensures mode == Yvu2Rgb ==> r == Some(Yvu2RgbTable)
  {
    match mode
    case Yuv2Rgb => Some(Yuv2RgbTable)
    case Yvu2Rgb => Some(Yvu2RgbTable)
    case Off => None
  }

  /** The word written for entry `i`: the constant column (every fourth entry)
      carries a 0x2000 bias; the C code adds it in `int` and the regmap stores
      the low 32 bits, which is bit-vector addition. */
  function CoeffWord(table: seq<bv32>, i: nat): bv32
    requires i < |table|
  {
    if (i + 1) % 4 == 0 then table[i] + 0x2000 else table[i]
  }

  /** Register file after the first `n` coefficient writes of the loop. */
  function CoeffsWritten(m: RegFile, base: int, table: seq<bv32>, n: nat): RegFile
    requires n <= |table|
  {
    if n == 0 then m
    else Written(CoeffsWritten(m, base, table, n - 1), CoeffOffset(base, n - 1), CoeffWord(table, n - 1))
  }

  /** After `n` writes, word k < n holds entry k (biased on the constant column)
      and every register outside the written words is unchanged. */
  lemma {:induction false} CoeffsWrittenSpec(m: RegFile, base: int, table: seq<bv32>, n: nat)
    requires n <= |table|
    ensures forall k :: 0 <= k < n ==> Get(CoeffsWritten(m, base, table, n), CoeffOffset(base, k)) == CoeffWord(table, k)
    ensures forall o :: (forall k :: 0 <= k < n ==> o != CoeffOffset(base, k)) ==>
              Get(CoeffsWritten(m, base, table, n), o) == Get(m, o)
  {
    if n > 0 {
      CoeffsWrittenSpec(m, base, table, n - 1);
    }
  }

  /** The full programming of a unit: exactly the 12 words base+0x10+4i are written,
      word i holding table[i], plus 0x2000 for i = 3, 7 and 11. */
  lemma ProgrammedWords(m: RegFile, base: int, table: seq<bv32>)
    requires |table| == 12
    ensures forall i :: 0 <= i < 12 ==>
              Get(CoeffsWritten(m, base, table, 12), base + 0x10 + 4 * i)
                == if i == 3 || i == 7 || i == 11 then table[i] + 0x2000 else table[i]
    ensures forall o :: (o < base + 0x10 || o >= base + 0x40 || (o - base) % 4 != 0) ==>
              Get(CoeffsWritten(m, base, table, 12), o) == Get(m, o)
  {
    CoeffsWrittenSpec(m, base, table, 12);
    forall i | 0 <= i < 12
      ensures Get(CoeffsWritten(m, base, table, 12), base + 0x10 + 4 * i)
                == if i == 3 || i == 7 || i == 11 then table[i] + 0x2000 else table[i]
    {
      assert CoeffOffset(base, i) == base + 0x10 + 4 * i;
    }
    forall o | o < base + 0x10 || o >= base + 0x40 || (o - base) % 4 != 0
      ensures Get(CoeffsWritten(m, base, table, 12), o) == Get(m, o)
    {
      forall k | 0 <= k < 12 ensures o != CoeffOffset(base, k) {
        assert (CoeffOffset(base, k) - base) % 4 == 0;
      }
    }
  }

  /** The YVU table is the YUV table with the U and V columns swapped in every row. */
  lemma YvuSwapsChromaColumns()
    ensures |Yuv2RgbTable| == |Yvu2RgbTable| == 12
    ensures forall row :: 0 <= row < 3 ==>
              Yvu2RgbTable[4 * row] == Yuv2RgbTable[4 * row]
              && Yvu2RgbTable[4 * row + 1] == Yuv2RgbTable[4 * row + 2]
              && Yvu2RgbTable[4 * row + 2] == Yuv2RgbTable[4 * row + 1]
              && Yvu2RgbTable[4 * row + 3] == Yuv2RgbTable[4 * row + 3]
  {
    forall row | 0 <= row < 3
      ensures Yvu2RgbTable[4 * row] == Yuv2RgbTable[4 * row]
              && Yvu2RgbTable[4 * row + 1] == Yuv2RgbTable[4 * row + 2]
              && Yvu2RgbTable[4 * row + 2] == Yuv2RgbTable[4 * row + 1]
              && Yvu2RgbTable[4 * row + 3] == Yuv2RgbTable[4 * row + 3]
    {
      assert row == 0 || row == 1 || row == 2;
    }
  }

  /** The four CCSC units do not overlap: each unit's control and coefficient
      words (base .. base+0x3c) lie apart from every other unit's. */
  lemma CcscUnitsDisjoint(c1: nat, l1: nat, c2: nat, l2: nat, o1: nat, o2: nat)
    requires c1 < 2 && l1 < 2 && c2 < 2 && l2 < 2 && o1 < 0x40 && o2 < 0x40
    requires (c1, l1) != (c2, l2)
    ensures CcscBases[c1][l1] + o1 != CcscBases[c2][l2] + o2
  {
  }

  /** Programs the 12 coefficient words of the unit at `base` for `mode`;
      mode OFF returns without touching any register. */
  method SetCoefficients(rm: RegMap, base: int, mode: CscMode)
    modifies rm
    ensures mode == Off ==> rm.regs == old(rm.regs)
    ensures mode != Off ==> rm.regs == CoeffsWritten(old(rm.regs), base, TableFor(mode).value, 12)
  {
    var table: seq<bv32>;
    match mode {
      case Yuv2Rgb => table := Yuv2RgbTable;
      case Yvu2Rgb => table := Yvu2RgbTable;
      case Off => return;
    }
    var i := 0;
    while i < 12
      invariant 0 <= i <= 12
      invariant rm.regs == CoeffsWritten(old(rm.regs), base, table, i)
    {
      var data := CoeffWord(table, i);
      rm.Write(CoeffOffset(base, i), data);
      i := i + 1;
    }
  }

  /** `sunh5_csc_set_ccsc_coefficients`: the unit is picked by the mixer's
      `ccsc` set and the VI layer index. */
  method SetCcscCoefficients(rm: RegMap, ccsc: nat, layer: nat, mode: CscMode)
    requires ccsc < 2 && layer < 2
    modifies rm
    ensures mode == Off ==> rm.regs == old(rm.regs)
    ensures mode != Off ==> rm.regs == CoeffsWritten(old(rm.regs), CcscBases[ccsc][layer], TableFor(mode).value, 12)
  {
    SetCoefficients(rm, CcscBases[ccsc][layer], mode);
  }

  /** Sets bit 0 of the unit's control word to `enable`; no other bit or register changes. */
  method Enable(rm: RegMap, base: int, enable: bool)
    modifies rm
    ensures Get(rm.regs, CtrlOffset(base)) & CTRL_EN == if enable then CTRL_EN else 0
    ensures Get(rm.regs, CtrlOffset(base)) & !CTRL_EN == Get(old(rm.regs), CtrlOffset(base)) & !CTRL_EN
    ensures forall o :: o != CtrlOffset(base) ==> Get(rm.regs, o) == Get(old(rm.regs), o)
    ensures rm.regs == BitsUpdated(old(rm.regs), CtrlOffset(base), CTRL_EN, if enable then CTRL_EN else 0)
  {
    var val: bv32 := if enable then CTRL_EN else 0;
    rm.UpdateBits(CtrlOffset(base), CTRL_EN, val);
  }

  /** `sunh5_csc_enable_ccsc`. */
  method EnableCcsc(rm: RegMap, ccsc: nat, layer: nat, enable: bool)
    requires ccsc < 2 && layer < 2
    modifies rm
    ensures rm.regs == BitsUpdated(old(rm.regs), CtrlOffset(CcscBases[ccsc][layer]), CTRL_EN, if enable then CTRL_EN else 0)
  {
    Enable(rm, CcscBases[ccsc][layer], enable);
  }
}
