// Register layout of the DE2/DE3 mixer: size and coordinate encoders, the
// blender and channel base addresses, and the blender's per-pipe fields.
module MixerRegs {
  import opened Regs

  /** `struct sunh5_mixer_cfg`. */
  datatype MixerCfg = MixerCfg(
    viNum: nat, uiNum: nat, scalerMask: bv32, ccsc: nat,
    modRate: nat, isDe3: bool, scanlineYuv: bv32)

  /** Number of planes (VI plus UI channels) a mixer exposes. */
  function PlaneCount(cfg: MixerCfg): nat { cfg.viNum + cfg.uiNum }

  /** Whether channel `ch` has a scaler (bit `ch` of `scaler_mask`). */
  predicate HasScaler(cfg: MixerCfg, ch: nat)
    requires ch < 32
  {
    cfg.scalerMask & Bit(ch) != 0
  }

  const GLOBAL_CTL: int := 0x0
  const GLOBAL_CTL_RT_EN: bv32 := 1
  const GLOBAL_DBUFF: int := 0x8
  const GLOBAL_DBUFF_ENABLE: bv32 := 1
  const GLOBAL_SIZE: int := 0xc
  const DE2_MIXER_UNIT_SIZE: int := 0x6000

  const DE2_BLD_BASE: int := 0x1000
  const DE2_CH_BASE: int := 0x2000
  const DE2_CH_SIZE: int := 0x1000
  const DE3_BLD_BASE: int := 0x800
  const DE3_CH_BASE: int := 0x1000
  const DE3_CH_SIZE: int := 0x800

  const COLOR_BLACK: bv32 := 0xff00_0000
  const BLEND_MODE_DEF: bv32 := 0x0301_0301
  const OUTCTL_INTERLACED: bv32 := 2
  const PIPE_CTL_EN_MSK: bv32 := 0x1f00

  /** Sub-engines the driver only ever switches off. */
  const SubEngineEnables: seq<int> := [0xa0000, 0xa2000, 0xa4000, 0xa6000, 0xa8000, 0xaa000, 0xb0000]

  /** SUNH5_MIXER_SIZE(w, h): (h-1) in the upper half-word, (w-1) in the lower,
      computed in 32-bit unsigned arithmetic. Within 1..65536 both dimensions
      can be read back. */
  function Size(w: bv32, h: bv32): (r: bv32)
    ensures 1 <= w <= 0x10000 ==> r & 0xffff == w - 1
    ensures 1 <= w <= 0x10000 && 1 <= h <= 0x10000 ==> r >> 16 == h - 1
  {
    ((h - 1) << 16) | (w - 1)
  }

  /** SUNH5_MIXER_COORD(x, y): y in the upper half-word, x in the lower. */
  function Coord(x: bv32, y: bv32): (r: bv32)
    ensures x < 0x10000 ==> r & 0xffff == x
    ensures x < 0x10000 && y < 0x10000 ==> r >> 16 == y
  {
    CoordHalves(x, y);
    (y << 16) | x
  }

  lemma CoordHalves(x: bv32, y: bv32)
    ensures x < 0x10000 ==> ((y << 16) | x) & 0xffff == x
    ensures x < 0x10000 && y < 0x10000 ==> ((y << 16) | x) >> 16 == y
  {
    if x < 0x10000 {
      LowHalf(x, y);
      if y < 0x10000 {
        HighHalf(x, y);
      }
    }
  }

  lemma LowHalf(x: bv32, y: bv32)
    requires x < 0x10000
    ensures ((y << 16) | x) & 0xffff == x
  {
  }

  lemma HighHalf(x: bv32, y: bv32)
    requires x < 0x10000 && y < 0x10000
    ensures ((y << 16) | x) >> 16 == y
  {
  }

  /** Two sizes within range are equal exactly when both dimensions are. */
  lemma SizeInjective(w1: bv32, h1: bv32, w2: bv32, h2: bv32)
    requires 1 <= w1 <= 0x10000 && 1 <= h1 <= 0x10000
    requires 1 <= w2 <= 0x10000 && 1 <= h2 <= 0x10000
    ensures Size(w1, h1) == Size(w2, h2) <==> w1 == w2 && h1 == h2
  {
    if Size(w1, h1) == Size(w2, h2) {
      assert w1 - 1 == w2 - 1;
      assert h1 - 1 == h2 - 1;
    }
  }

  function BlenderBase(isDe3: bool): int
  {
    if isDe3 then DE3_BLD_BASE else DE2_BLD_BASE
  }

  function ChannelBase(isDe3: bool, ch: nat): int
  {
    if isDe3 then DE3_CH_BASE + ch * DE3_CH_SIZE else DE2_CH_BASE + ch * DE2_CH_SIZE
  }

  function ChannelSize(isDe3: bool): int
  {
    if isDe3 then DE3_CH_SIZE else DE2_CH_SIZE
  }

  /** Every channel's register window (one channel size long) sits above the
      blender's 0x100-byte window and apart from every other channel's. */
  lemma WindowsDisjoint(isDe3: bool, ch1: nat, ch2: nat, o1: int, o2: int)
    requires 0 <= o1 < ChannelSize(isDe3) && 0 <= o2 < ChannelSize(isDe3)
    ensures ChannelBase(isDe3, ch1) >= BlenderBase(isDe3) + 0x100
    ensures ch1 != ch2 ==> ChannelBase(isDe3, ch1) + o1 != ChannelBase(isDe3, ch2) + o2
  {
    if ch1 < ch2 {
      assert ChannelBase(isDe3, ch2) - ChannelBase(isDe3, ch1) >= ChannelSize(isDe3);
    } else if ch2 < ch1 {
      assert ChannelBase(isDe3, ch1) - ChannelBase(isDe3, ch2) >= ChannelSize(isDe3);
    }
  }

  // Blender registers, relative to the blender base.
  function PipeCtl(base: int): int { base }
  function AttrFcolor(base: int, x: nat): int { base + 0x4 + 0x10 * x }
  function AttrInsize(base: int, x: nat): int { base + 0x8 + 0x10 * x }
  function AttrCoord(base: int, x: nat): int { base + 0xc + 0x10 * x }
  function Route(base: int): int { base + 0x80 }
  function BkColor(base: int): int { base + 0x88 }
  function OutSize(base: int): int { base + 0x8c }
  function BlendMode(base: int, x: nat): int { base + 0x90 + 0x4 * x }
  function OutCtl(base: int): int { base + 0xfc }

  /** For the eight pipes the route nibbles can address, the per-pipe attribute
      words (stride 0x10) and blend-mode words (stride 4) are all distinct from
      each other and from the fixed blender words. */
  lemma BlenderWordsDistinct(base: int, x: nat, y: nat)
    requires x < 8 && y < 8
    ensures x != y ==> AttrFcolor(base, x) != AttrFcolor(base, y) && AttrInsize(base, x) != AttrInsize(base, y)
                       && AttrCoord(base, x) != AttrCoord(base, y) && BlendMode(base, x) != BlendMode(base, y)
    ensures AttrFcolor(base, x) != AttrInsize(base, y) && AttrInsize(base, x) != AttrCoord(base, y)
            && AttrFcolor(base, x) != AttrCoord(base, y)
    ensures PipeCtl(base) < AttrFcolor(base, x) < Route(base) && AttrCoord(base, x) < Route(base)
    ensures OutSize(base) < BlendMode(base, x) < OutCtl(base)
  {
  }

  // Pipe and route-slot indices are the C code's `unsigned int`, so they are
  // 32-bit words here and every mask below is a bit-vector shift.

  /** SUNH5_MIXER_BLEND_PIPE_CTL_EN(p): the enable bit of pipe p. */
  function PipeEn(p: bv32): bv32
    requires p < 24
  {
    1 << (8 + p)
  }

  /** SUNH5_MIXER_BLEND_PIPE_CTL_FC_EN(p): the fill-colour enable bit of pipe p. */
  function PipeFcEn(p: bv32): bv32
    requires p < 32
  {
    1 << p
  }

  /** The five pipe-enable bits lie inside EN_MSK (bits 12:8), are pairwise
      distinct, and never coincide with a fill-colour bit. */
  lemma PipeEnInMask(p: bv32, q: bv32)
    requires p < 5 && q < 5
    ensures PipeEn(p) & PIPE_CTL_EN_MSK == PipeEn(p)
    ensures p != q ==> PipeEn(p) & PipeEn(q) == 0
    ensures PipeEn(p) & PipeFcEn(q) == 0
  {
  }

  /** SUNH5_MIXER_BLEND_ROUTE_PIPE_SHIFT(n) and _PIPE_MSK(n): nibble n of the route word. */
  function RouteShift(n: bv32): bv32 { 4 * n }

  function RouteMask(n: bv32): bv32
    requires n < 8
  {
    0xf << RouteShift(n)
  }

  /** The channel a route word sends to blend pipe `n`. */
  function RouteNibble(w: bv32, n: bv32): bv32
    requires n < 8
  {
    (w >> RouteShift(n)) & 0xf
  }

  /** Route nibbles of distinct pipes do not overlap, and a channel number
      below 16 placed at pipe n is read back from that nibble. */
  lemma RouteNibbles(n: bv32, k: bv32, ch: bv32)
    requires n < 8 && k < 8 && ch < 16
    ensures n != k ==> RouteMask(n) & RouteMask(k) == 0
    ensures RouteNibble(ch << RouteShift(n), n) == ch
  {
  }
}
