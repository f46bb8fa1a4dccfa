// The VI layer controller (sunh5_vi_layer.c): the video layers of the
// mixer's VI channels, which take RGB and YUV framebuffers of up to three
// planes and feed them through the channel's scaler and colour converter.
module ViLayer {
  import opened Regs
  import opened Errno
  import opened Wrappers
  import opened MixerRegs
  import opened Formats
  import opened Layers
  import Csc
  import UiLayer

  // Channel registers of a VI layer (sunh5_vi_layer.h), from the channel base.
  function Attr(ch: int, overlay: nat): int { ch + 0x30 * overlay }
  function LayerSize(ch: int, overlay: nat): int { ch + 0x30 * overlay + 0x4 }
  function Pitch(ch: int, overlay: nat, plane: nat): int { ch + 0x30 * overlay + 0xc + 4 * plane }
  function TopLaddr(ch: int, overlay: nat, plane: nat): int { ch + 0x30 * overlay + 0x18 + 4 * plane }
  function OvlSize(ch: int): int { ch + 0xe8 }
  function HdsY(ch: int): int { ch + 0xf0 }
  function HdsUv(ch: int): int { ch + 0xf4 }
  function VdsY(ch: int): int { ch + 0xf8 }
  function VdsUv(ch: int): int { ch + 0xfc }

  /** LAYER_ATTR_RGB_MODE: bit 15 of the attribute word, set for formats read as RGB. */
  const ATTR_RGB_MODE: bv32 := 0x8000

  /** A coarse down-sampling word: N in the upper half-word, M in the lower. */
  function DsWord(n: bv32, m: bv32): bv32 { (n << 16) | m }

  function AttrOf(cfg: MixerCfg, channel: nat, overlay: nat): int { Attr(ChannelBase(cfg.isDe3, channel), overlay) }

  /** A VI layer's attribute word lies outside the blender's words. */
  lemma AttrApart(cfg: MixerCfg, channel: nat, overlay: nat)
    ensures Apart(AttrOf(cfg, channel, overlay), BlenderBase(cfg.isDe3))
  {
  }

  /** `sunh5_vi_layer_enable`. */
  method Enable(rm: RegMap, cfg: MixerCfg, channel: nat, overlay: nat, enable: bool, zpos: bv32, oldZpos: bv32)
    requires channel < 16 && zpos < 8 && oldZpos < 8
    modifies rm
    ensures rm.regs == SlotUpdated(old(rm.regs), AttrOf(cfg, channel, overlay), BlenderBase(cfg.isDe3),
                                   channel as bv32, enable, zpos, oldZpos)
  {
    LayerEnable(rm, AttrOf(cfg, channel, overlay), BlenderBase(cfg.isDe3), channel as bv32, enable, zpos, oldZpos);
  }

  /** `sunh5_vi_layer_atomic_disable`: vacate the slot the old state held. */
  method AtomicDisable(rm: RegMap, cfg: MixerCfg, layer: Layer, oldZpos: bv32)
    requires layer.channel < 16 && oldZpos < 8
    modifies rm
    ensures rm.regs == SlotUpdated(old(rm.regs), AttrOf(cfg, layer.channel, layer.overlay), BlenderBase(cfg.isDe3),
                                   layer.channel as bv32, false, 0, oldZpos)
  {
    Enable(rm, cfg, layer.channel, layer.overlay, false, 0, oldZpos);
  }

  // ---- update_coord: alignment to the chroma subsampling ----

  /** Size and 16.16 phase along one axis. */
  datatype Window = Window(size: bv32, phase: bv32)

  /** `update_coord`'s alignment along one axis with subsampling factor `sub`:
      the start pixel is rounded down to a multiple of `sub`, the size grows
      by what the start lost and is rounded down to a multiple of `sub`, and
      the phase takes over the lost pixels. A factor of 1 changes nothing. */
  function Align(start: bv32, size: bv32, phase: bv32, sub: bv32): Window
  {
    if sub > 1 then
      var r := start & Mask(sub);
      Window((size + r) & !Mask(sub), phase + (r << 16))
    else Window(size, phase)
  }

  /** The pixel start rounded down to the subsampling factor. */
  function AlignedStart(start: bv32, sub: bv32): bv32 { start & !Mask(sub) }

  /** The low bits a subsampling factor (a power of two) rounds away. */
  function Mask(sub: bv32): bv32 { sub - 1 }

  predicate ValidSub(sub: bv32) { sub == 1 || sub == 2 || sub == 4 }

  /** The aligned 16.16 start (aligned pixel plus the new phase) is the
      requested 16.16 start: alignment moves pixels into the phase and
      loses nothing. */
  lemma AlignKeepsOrigin(x1: bv32, size: bv32, sub: bv32)
    requires ValidSub(sub) && x1 < 0x8000_0000
    ensures (AlignedStart(x1 >> 16, sub) << 16) + Align(x1 >> 16, size, x1 & 0xffff, sub).phase == x1
  {
    if sub == 1 {
      OriginAt1(x1, size);
    } else if sub == 2 {
      OriginAt2(x1, size);
    } else {
      OriginAt4(x1, size);
    }
  }

  // The alignment facts for each factor, with the factor written out so the
  // solver folds the masks into constants.
  lemma OriginAt1(x1: bv32, size: bv32)
    ensures (AlignedStart(x1 >> 16, 1) << 16) + Align(x1 >> 16, size, x1 & 0xffff, 1).phase == x1
  {
  }

  lemma OriginAt2(x1: bv32, size: bv32)
    requires x1 < 0x8000_0000
    ensures (AlignedStart(x1 >> 16, 2) << 16) + Align(x1 >> 16, size, x1 & 0xffff, 2).phase == x1
  {
  }

  lemma OriginAt4(x1: bv32, size: bv32)
    requires x1 < 0x8000_0000
    ensures (AlignedStart(x1 >> 16, 4) << 16) + Align(x1 >> 16, size, x1 & 0xffff, 4).phase == x1
  {
  }

  /** The aligned size is a multiple of the subsampling factor. */
  lemma AlignedSizeMultiple(start: bv32, size: bv32, phase: bv32, sub: bv32)
    requires ValidSub(sub) && size < 0x8000
    ensures Align(start, size, phase, sub).size & Mask(sub) == 0
  {
    if sub == 1 {
      SizeAt1(start, size, phase);
    } else if sub == 2 {
      SizeAt2(start, size, phase);
    } else {
      SizeAt4(start, size, phase);
    }
  }

  /** The aligned window, from the aligned start, ends no later than the
      requested window ... */
  lemma AlignedEndWithin(start: bv32, size: bv32, phase: bv32, sub: bv32)
    requires ValidSub(sub) && size < 0x8000
    ensures Align(start, size, phase, sub).size <= size + (start & Mask(sub))
  {
    if sub == 1 {
      SizeAt1(start, size, phase);
    } else if sub == 2 {
      SizeAt2(start, size, phase);
    } else {
      SizeAt4(start, size, phase);
    }
  }

  /** ... and less than one factor before it. */
  lemma AlignedEndClose(start: bv32, size: bv32, phase: bv32, sub: bv32)
    requires ValidSub(sub) && size < 0x8000
    ensures size + (start & Mask(sub)) < Align(start, size, phase, sub).size + sub
  {
    if sub == 1 {
      SizeAt1(start, size, phase);
    } else if sub == 2 {
      SizeAt2(start, size, phase);
    } else {
      SizeAt4(start, size, phase);
    }
  }

  // The three size facts for each factor.
  lemma SizeAt1(start: bv32, size: bv32, phase: bv32)
    requires size < 0x8000
    ensures Align(start, size, phase, 1).size & Mask(1) == 0
    ensures Align(start, size, phase, 1).size <= size + (start & Mask(1))
    ensures size + (start & Mask(1)) < Align(start, size, phase, 1).size + 1
  {
  }

  lemma SizeAt2(start: bv32, size: bv32, phase: bv32)
    requires size < 0x8000
    ensures Align(start, size, phase, 2).size & Mask(2) == 0
    ensures Align(start, size, phase, 2).size <= size + (start & Mask(2))
    ensures size + (start & Mask(2)) < Align(start, size, phase, 2).size + 2
  {
  }

  lemma SizeAt4(start: bv32, size: bv32, phase: bv32)
    requires size < 0x8000
    ensures Align(start, size, phase, 4).size & Mask(4) == 0
    ensures Align(start, size, phase, 4).size <= size + (start & Mask(4))
    ensures size + (start & Mask(4)) < Align(start, size, phase, 4).size + 4
  {
  }

  /** The aligned start is a multiple of the factor, at or below the
      requested start, and less than one factor below it. */
  lemma AlignedStartBounds(start: bv32, sub: bv32)
    requires ValidSub(sub)
    ensures AlignedStart(start, sub) & Mask(sub) == 0
    ensures AlignedStart(start, sub) <= start && start - AlignedStart(start, sub) < sub
  {
    if sub == 1 {
      StartAt1(start);
    } else if sub == 2 {
      StartAt2(start);
    } else {
      StartAt4(start);
    }
  }

  lemma StartAt1(start: bv32)
    ensures AlignedStart(start, 1) & Mask(1) == 0
    ensures AlignedStart(start, 1) <= start && start - AlignedStart(start, 1) < 1
  {
  }

  lemma StartAt2(start: bv32)
    ensures AlignedStart(start, 2) & Mask(2) == 0
    ensures AlignedStart(start, 2) <= start && start - AlignedStart(start, 2) < 2
  {
  }

  lemma StartAt4(start: bv32)
    ensures AlignedStart(start, 4) & Mask(4) == 0
    ensures AlignedStart(start, 4) <= start && start - AlignedStart(start, 4) < 4
  {
  }

  function AlignedH(s: PlaneState, fb: Framebuffer): Window { Align(SrcX(s), SrcWidth(s), HPhase(s), fb.hsub) }
  function AlignedV(s: PlaneState, fb: Framebuffer): Window { Align(SrcY(s), SrcHeight(s), VPhase(s), fb.vsub) }

  predicate Subsampled(fb: Framebuffer) { fb.hsub > 1 || fb.vsub > 1 }

  /** SIZE of the aligned source. */
  function Insize(s: PlaneState, fb: Framebuffer): bv32 { Size(AlignedH(s, fb).size, AlignedV(s, fb).size) }

  /** The scaler is used when the sizes differ, when the chroma has to be
      scaled up to the luma, or when the source starts mid-pixel. */
  predicate NeedsScaler(s: PlaneState, fb: Framebuffer)
  {
    Insize(s, fb) != Outsize(s) || Subsampled(fb) || AlignedH(s, fb).phase != 0 || AlignedV(s, fb).phase != 0
  }

  /** For a framebuffer without subsampling, the VI layer programs the same
      source size and takes the scaler exactly when the UI layer would. */
  lemma UnsubsampledAgreesWithUi(s: PlaneState, fb: Framebuffer)
    requires Visible(s) && fb.hsub == 1 && fb.vsub == 1
    ensures Insize(s, fb) == UiLayer.Insize(s)
    ensures NeedsScaler(s, fb) <==> UiLayer.Scaler(s).ScalerOn?
  {
  }

  // ---- update_coord: coarse scaling ----

  /** The parts of the CRTC's display mode the bandwidth estimate reads. */
  datatype Timing = Timing(clock: nat, htotal: nat, vtotal: nat, vdisplay: nat)

  /** Truncation to an unsigned 64-bit variable (`Lower32` truncates to 32). */
  function U64(x: nat): (r: nat)
    ensures r < 0x1_0000_0000_0000_0000
  {
    x % 0x1_0000_0000_0000_0000
  }

  function Max(a: bv32, b: bv32): bv32 { if a > b then a else b }

  /** Frames per second of the mode, kept in a `u32`; 0 for a mode without
      totals, where the driver would divide by zero. */
  function Fps(t: Timing): nat
  {
    if t.htotal == 0 || t.vtotal == 0 then 0 else Lower32(t.clock * 1000 / (t.vtotal * t.htotal))
  }

  /** The `u32` divisor of the bandwidth estimate: active lines per second
      times the wider of source and destination, with 32-bit wrap-around. */
  function BandwidthDivisor(t: Timing, srcW: bv32, dstW: bv32): nat
  {
    Lower32(Lower32(t.vdisplay * Fps(t)) * Max(srcW, dstW) as int)
  }

  /** The mode allows the estimate: no division by zero. */
  predicate Schedulable(t: Timing, s: PlaneState, fb: Framebuffer)
  {
    t.htotal > 0 && t.vtotal > 0 && BandwidthDivisor(t, AlignedH(s, fb).size, DstWidth(s)) != 0
  }

  /** Scaled lines the unit can produce per output line, in percent: the
      module clock at 80 % efficiency over the divisor, in a `u64`; 0 where
      the driver would divide by zero. */
  function Ability(rate: nat, t: Timing, s: PlaneState, fb: Framebuffer): nat
  {
    var d := BandwidthDivisor(t, AlignedH(s, fb).size, DstWidth(s));
    if d == 0 then 0 else Quotient(U64(rate * 80), d)
  }

  /** Unsigned division of naturals. */
  function Quotient(a: nat, d: nat): nat
    requires d != 0
  {
    a / d
  }

  /** Source lines needed per output line, in percent, in `u32` arithmetic. */
  function Required(srcH: nat, dstH: nat): nat
    requires dstH != 0
  {
    Lower32(srcH * 100) / dstH
  }

  /** The line count vertical coarse scaling reads: the ability (truncated
      to 32 bits) times the destination height, over 100. */
  function CoarseHeight(ability: nat, dstH: nat): (r: nat)
    ensures r < 0x1_0000_0000
  {
    Lower32(Lower32(ability) * dstH) / 100
  }

  /** A non-zero word is a non-zero number. */
  lemma NonZeroValue(a: bv32)
    requires a != 0
    ensures a as int != 0
  {
  }

  predicate VerticalCoarse(rate: nat, t: Timing, s: PlaneState, fb: Framebuffer)
    requires Visible(s)
  {
    NonZeroValue(DstHeight(s));
    Ability(rate, t, s, fb) < Required(AlignedV(s, fb).size as int, DstHeight(s) as int)
  }

  /** Width of the scaler's line buffer: the mixer's YUV scanline for
      subsampled formats, 2048 otherwise. */
  function Scanline(cfg: MixerCfg, fb: Framebuffer): bv32 { if Subsampled(fb) then cfg.scanlineYuv else 2048 }

  predicate HorizontalCoarse(cfg: MixerCfg, s: PlaneState, fb: Framebuffer)
  {
    AlignedH(s, fb).size as int > Scanline(cfg, fb) as int
  }

  /** Source width and height the scaler is set up for, after coarse scaling. */
  function ScaledWidth(cfg: MixerCfg, s: PlaneState, fb: Framebuffer): bv32
  {
    if HorizontalCoarse(cfg, s, fb) then Scanline(cfg, fb) else AlignedH(s, fb).size
  }

  /** The width the scaler is set up for is the aligned width narrowed to
      the scanline buffer. */
  lemma ScaledWidthNarrowed(cfg: MixerCfg, s: PlaneState, fb: Framebuffer)
    ensures ScaledWidth(cfg, s, fb) as int == Narrowed(AlignedH(s, fb).size as int, Scanline(cfg, fb) as int)
  {
  }

  /** Horizontal coarse scaling: the scaler is never set up wider than its
      line buffer nor wider than the aligned source; a source that fits keeps
      its width and a wider one is read as exactly one scanline. */
  function Narrowed(width: nat, scanline: nat): (r: nat)
    ensures r <= scanline && r <= width
    ensures width <= scanline ==> r == width
    ensures width > scanline ==> r == scanline
  {
    if width > scanline then scanline else width
  }

  function ScaledHeight(rate: nat, t: Timing, s: PlaneState, fb: Framebuffer): bv32
    requires Visible(s)
  {
    if VerticalCoarse(rate, t, s, fb) then Word(CoarseHeight(Ability(rate, t, s, fb), DstHeight(s) as int))
    else AlignedV(s, fb).size
  }

  /** 16.16 scale factor from a source to a destination extent. */
  function Scale(src: bv32, dst: bv32): bv32
    requires dst != 0
  {
    (src << 16) / dst
  }

  /** The scaler request of the VI `update_coord`. */
  function Scaler(cfg: MixerCfg, rate: nat, t: Timing, s: PlaneState, fb: Framebuffer): ScalerCall
    requires Visible(s)
  {
    if NeedsScaler(s, fb) then
      var w, h := ScaledWidth(cfg, s, fb), ScaledHeight(rate, t, s, fb);
      ScalerOn(w, h, DstWidth(s), DstHeight(s), Scale(w, DstWidth(s)), Scale(h, DstHeight(s)),
               AlignedH(s, fb).phase, AlignedV(s, fb).phase)
    else ScalerOff
  }

  /** The horizontal down-sampling word, N = scanline and M = aligned width
      (`hn`, `hm`) when the line is coarsely scaled, 0 otherwise. */
  function HorizontalDs(cfg: MixerCfg, s: PlaneState, fb: Framebuffer): bv32
  {
    if NeedsScaler(s, fb) && HorizontalCoarse(cfg, s, fb) then DsWord(Scanline(cfg, fb), AlignedH(s, fb).size)
    else 0
  }

  /** The vertical down-sampling word, N = coarse height and M = aligned
      height (`vn`, `vm`) when vertical coarse scaling is used, 0 otherwise. */
  function VerticalDs(rate: nat, t: Timing, s: PlaneState, fb: Framebuffer): bv32
    requires Visible(s)
  {
    if NeedsScaler(s, fb) && VerticalCoarse(rate, t, s, fb) then
      DsWord(Word(CoarseHeight(Ability(rate, t, s, fb), DstHeight(s) as int)), AlignedV(s, fb).size)
    else 0
  }

  /** Subsampled formats always go through the scaler. */
  lemma SubsampledUsesScaler(cfg: MixerCfg, rate: nat, t: Timing, s: PlaneState, fb: Framebuffer)
    requires Visible(s) && Subsampled(fb) && Schedulable(t, s, fb)
    ensures Scaler(cfg, rate, t, s, fb).ScalerOn?
  {
  }

  /** A source needing fewer lines than the unit can scale keeps its height;
      one needing more is read at `CoarseHeight` lines. */
  lemma VerticalCoarseChoice(cfg: MixerCfg, rate: nat, t: Timing, s: PlaneState, fb: Framebuffer)
    requires Visible(s) && NeedsScaler(s, fb) && Schedulable(t, s, fb)
    ensures var r := Scaler(cfg, rate, t, s, fb);
      && (VerticalCoarse(rate, t, s, fb) ==> r.srcH == Word(CoarseHeight(Ability(rate, t, s, fb), DstHeight(s) as int)))
      && (!VerticalCoarse(rate, t, s, fb) ==> r.srcH == AlignedV(s, fb).size)
  {
  }

  /** Without 32-bit wrap-around, vertical coarse scaling reads fewer lines
      than the source has. */
  lemma {:induction false} CoarseBelowSource(ability: nat, h: nat, d: nat)
    requires d != 0 && h * 100 < 0x1_0000_0000 && ability * d < 0x1_0000_0000
    requires ability < Required(h, d)
    ensures CoarseHeight(ability, d) < h
  {
    var q := (h * 100) / d;
    assert Lower32(ability) == ability;
    assert ability + 1 <= q;
    assert q * d <= h * 100;
    MulMono(ability + 1, q, d);
    assert (ability + 1) * d == ability * d + d;
    assert Lower32(ability * d) == ability * d;
  }

  lemma MulMono(a: nat, b: nat, c: nat)
    requires a <= b
    ensures a * c <= b * c
  {
  }

  /** The down-sampling registers stay 0 unless the line is coarsely scaled. */
  lemma HorizontalDsOff(cfg: MixerCfg, s: PlaneState, fb: Framebuffer)
    requires !NeedsScaler(s, fb) || !HorizontalCoarse(cfg, s, fb)
    ensures HorizontalDs(cfg, s, fb) == 0
  {
  }

  /** Both halves of a down-sampling word read back when they fit 16 bits. */
  lemma DsFields(n: bv32, m: bv32)
    requires n < 0x10000 && m < 0x10000
    ensures DsWord(n, m) >> 16 == n && DsWord(n, m) & 0xffff == m
  {
  }

  /** With horizontal coarse scaling, N reads back as the scanline and M as
      the aligned source width. */
  lemma HorizontalDsFields(cfg: MixerCfg, s: PlaneState, fb: Framebuffer)
    requires NeedsScaler(s, fb) && HorizontalCoarse(cfg, s, fb)
    requires Scanline(cfg, fb) < 0x10000 && AlignedH(s, fb).size < 0x10000
    ensures HorizontalDs(cfg, s, fb) >> 16 == Scanline(cfg, fb)
    ensures HorizontalDs(cfg, s, fb) & 0xffff == AlignedH(s, fb).size
  {
    HorizontalDsCoarse(cfg, s, fb);
    DsFields(Scanline(cfg, fb), AlignedH(s, fb).size);
  }

  lemma HorizontalDsCoarse(cfg: MixerCfg, s: PlaneState, fb: Framebuffer)
    requires NeedsScaler(s, fb) && HorizontalCoarse(cfg, s, fb)
    ensures HorizontalDs(cfg, s, fb) == DsWord(Scanline(cfg, fb), AlignedH(s, fb).size)
  {
  }

  /** With vertical coarse scaling, N reads back as the coarse height the
      scaler is set up for and M as the aligned source height. */
  lemma VerticalDsFields(cfg: MixerCfg, rate: nat, t: Timing, s: PlaneState, fb: Framebuffer)
    requires Visible(s) && NeedsScaler(s, fb) && Schedulable(t, s, fb) && VerticalCoarse(rate, t, s, fb)
    requires CoarseHeight(Ability(rate, t, s, fb), DstHeight(s) as int) < 0x10000 && AlignedV(s, fb).size < 0x10000
    ensures VerticalDs(rate, t, s, fb) >> 16 == Scaler(cfg, rate, t, s, fb).srcH
    ensures VerticalDs(rate, t, s, fb) & 0xffff == AlignedV(s, fb).size
  {
    var n := Word(CoarseHeight(Ability(rate, t, s, fb), DstHeight(s) as int));
    SmallHalfWord(CoarseHeight(Ability(rate, t, s, fb), DstHeight(s) as int));
    DsFields(n, AlignedV(s, fb).size);
  }

  lemma SmallHalfWord(x: nat)
    requires x < 0x10000
    ensures Word(x) < 0x10000
  {
  }

  // ---- update_coord: the registers ----

  /** Register file after `update_coord` writes the layer and overlay sizes,
      the four down-sampling words (`hds` to both horizontal ones, `vds` to
      both vertical ones) and the blend slot's position and size. */
  function CoordWords(m: RegFile, cfg: MixerCfg, channel: nat, overlay: nat, s: PlaneState, fb: Framebuffer,
                      zpos: nat, hds: bv32, vds: bv32): RegFile
  {
    var bld, ch := BlenderBase(cfg.isDe3), ChannelBase(cfg.isDe3, channel);
    var m1 := Written(Written(m, LayerSize(ch, overlay), Insize(s, fb)), OvlSize(ch), Insize(s, fb));
    var m2 := Written(Written(Written(Written(m1, HdsY(ch), hds), HdsUv(ch), hds), VdsY(ch), vds), VdsUv(ch), vds);
    Written(Written(m2, AttrCoord(bld, zpos), Coord(s.dst.x1, s.dst.y1)), AttrInsize(bld, zpos), Outsize(s))
  }

  /** `update_coord` as written: all four down-sampling registers receive
      the horizontal word, and the vertical `vn`/`vm` it computes are dropped. */
  function CoordWritten(m: RegFile, cfg: MixerCfg, channel: nat, overlay: nat, s: PlaneState,
                        fb: Framebuffer, zpos: nat): RegFile
  {
    CoordWords(m, cfg, channel, overlay, s, fb, zpos, HorizontalDs(cfg, s, fb), HorizontalDs(cfg, s, fb))
  }

  /** `update_coord` as intended: the vertical registers receive the
      vertical word, as the coarse height it sets up for the scaler
      requires. A reference definition; the driver model follows the code. */
  function CoordCorrected(m: RegFile, cfg: MixerCfg, channel: nat, overlay: nat, rate: nat, t: Timing,
                        s: PlaneState, fb: Framebuffer, zpos: nat): RegFile
    requires Visible(s)
  {
    CoordWords(m, cfg, channel, overlay, s, fb, zpos, HorizontalDs(cfg, s, fb), VerticalDs(rate, t, s, fb))
  }

  /** The words `update_coord` writes hold the aligned source size, the
      down-sampling words and the destination position and size. */
  lemma CoordWordsHold(m: RegFile, cfg: MixerCfg, channel: nat, overlay: nat, s: PlaneState, fb: Framebuffer,
                       zpos: nat, hds: bv32, vds: bv32)
    requires zpos < 8 && overlay < 4
    ensures var r := CoordWords(m, cfg, channel, overlay, s, fb, zpos, hds, vds);
      var bld, ch := BlenderBase(cfg.isDe3), ChannelBase(cfg.isDe3, channel);
      && Get(r, LayerSize(ch, overlay)) == Insize(s, fb) && Get(r, OvlSize(ch)) == Insize(s, fb)
      && Get(r, HdsY(ch)) == hds && Get(r, HdsUv(ch)) == hds
      && Get(r, VdsY(ch)) == vds && Get(r, VdsUv(ch)) == vds
      && Get(r, AttrCoord(bld, zpos)) == Coord(s.dst.x1, s.dst.y1)
      && Get(r, AttrInsize(bld, zpos)) == Outsize(s)
  {
    BlenderWordsDistinct(BlenderBase(cfg.isDe3), zpos, zpos);
  }

  /** `update_coord` writes no register besides the eight it names. */
  lemma CoordFrame(m: RegFile, cfg: MixerCfg, channel: nat, overlay: nat, s: PlaneState, fb: Framebuffer,
                   zpos: nat, hds: bv32, vds: bv32, o: int)
    requires var bld, ch := BlenderBase(cfg.isDe3), ChannelBase(cfg.isDe3, channel);
      o !in {LayerSize(ch, overlay), OvlSize(ch), HdsY(ch), HdsUv(ch), VdsY(ch), VdsUv(ch),
             AttrCoord(bld, zpos), AttrInsize(bld, zpos)}
    ensures Get(CoordWords(m, cfg, channel, overlay, s, fb, zpos, hds, vds), o) == Get(m, o)
  {
  }

  /** As written, a plane read with vertical coarse scaling but no
      horizontal coarse scaling gets no vertical down-sampling at all, while
      the scaler is set up for the reduced height; the corrected update
      programs the vertical word. */
  lemma AsWrittenDropsVerticalCoarse(m: RegFile, cfg: MixerCfg, channel: nat, overlay: nat, rate: nat, t: Timing,
                                     s: PlaneState, fb: Framebuffer, zpos: nat)
    requires Visible(s) && NeedsScaler(s, fb) && Schedulable(t, s, fb) && zpos < 8 && overlay < 4
    requires VerticalCoarse(rate, t, s, fb) && !HorizontalCoarse(cfg, s, fb) && AlignedV(s, fb).size != 0
    ensures var ch := ChannelBase(cfg.isDe3, channel);
      && Get(CoordWritten(m, cfg, channel, overlay, s, fb, zpos), VdsY(ch)) == 0
      && Get(CoordCorrected(m, cfg, channel, overlay, rate, t, s, fb, zpos), VdsY(ch)) != 0
  {
    var n := Word(CoarseHeight(Ability(rate, t, s, fb), DstHeight(s) as int));
    HorizontalDsOff(cfg, s, fb);
    VerticalDsCoarse(rate, t, s, fb);
    DsWordNonZero(n, AlignedV(s, fb).size);
    CoordWordsHold(m, cfg, channel, overlay, s, fb, zpos, 0, 0);
    CoordWordsHold(m, cfg, channel, overlay, s, fb, zpos, 0, VerticalDs(rate, t, s, fb));
  }

  lemma VerticalDsCoarse(rate: nat, t: Timing, s: PlaneState, fb: Framebuffer)
    requires Visible(s) && NeedsScaler(s, fb) && Schedulable(t, s, fb) && VerticalCoarse(rate, t, s, fb)
    ensures VerticalDs(rate, t, s, fb)
              == DsWord(Word(CoarseHeight(Ability(rate, t, s, fb), DstHeight(s) as int)), AlignedV(s, fb).size)
  {
  }

  lemma DsWordNonZero(n: bv32, m: bv32)
    requires m != 0
    ensures DsWord(n, m) != 0
  {
  }

  /** Without coarse scaling in either direction, both update paths leave
      all four down-sampling registers at 0, as they agree. */
  lemma CoordAgreesWithoutVerticalCoarse(m: RegFile, cfg: MixerCfg, channel: nat, overlay: nat, rate: nat,
                                         t: Timing, s: PlaneState, fb: Framebuffer, zpos: nat)
    requires Visible(s) && (NeedsScaler(s, fb) ==> Schedulable(t, s, fb) && !VerticalCoarse(rate, t, s, fb))
    requires !HorizontalCoarse(cfg, s, fb)
    ensures CoordCorrected(m, cfg, channel, overlay, rate, t, s, fb, zpos)
              == CoordWritten(m, cfg, channel, overlay, s, fb, zpos)
  {
    HorizontalDsOff(cfg, s, fb);
    VerticalDsOff(rate, t, s, fb);
  }

  lemma VerticalDsOff(rate: nat, t: Timing, s: PlaneState, fb: Framebuffer)
    requires Visible(s) && (NeedsScaler(s, fb) ==> Schedulable(t, s, fb) && !VerticalCoarse(rate, t, s, fb))
    ensures VerticalDs(rate, t, s, fb) == 0
  {
  }

  /** `sunh5_vi_layer_update_coord` as written: the vertical word is
      computed for the scaler but the horizontal word goes to all four
      down-sampling registers; returns what it asks of the scaler. */
  method UpdateCoord(rm: RegMap, cfg: MixerCfg, channel: nat, overlay: nat, rate: nat, t: Timing,
                     s: PlaneState, fb: Framebuffer, zpos: nat) returns (scaler: ScalerCall)
    requires Visible(s) && (NeedsScaler(s, fb) ==> Schedulable(t, s, fb))
    modifies rm
    ensures scaler == Scaler(cfg, rate, t, s, fb)
    ensures rm.regs == CoordWritten(old(rm.regs), cfg, channel, overlay, s, fb, zpos)
  {
    var h := AlignedH(s, fb);
    var v := AlignedV(s, fb);
    var insize := Size(h.size, v.size);
    var hds: bv32 := 0;
    var vds: bv32 := 0;
    if insize != Outsize(s) || Subsampled(fb) || h.phase != 0 || v.phase != 0 {
      var srcW, srcH;
      srcW, srcH, hds, vds := CoarseScaling(cfg, rate, t, s, fb);
      DstNonEmpty(s);
      scaler := ScalerOn(srcW, srcH, DstWidth(s), DstHeight(s), Scale(srcW, DstWidth(s)), Scale(srcH, DstHeight(s)),
                         h.phase, v.phase);
    } else {
      scaler := ScalerOff;
    }
    WriteCoordWords(rm, cfg, channel, overlay, s, fb, zpos, hds, hds);
  }

  /** The scaling branch of `update_coord`: vertical coarse scaling when the
      unit cannot keep up with the source lines, then horizontal coarse
      scaling when the line is wider than the scanline buffer. */
  method CoarseScaling(cfg: MixerCfg, rate: nat, t: Timing, s: PlaneState, fb: Framebuffer)
    returns (srcW: bv32, srcH: bv32, hds: bv32, vds: bv32)
    requires Visible(s) && NeedsScaler(s, fb) && Schedulable(t, s, fb)
    ensures srcW == ScaledWidth(cfg, s, fb) && srcH == ScaledHeight(rate, t, s, fb)
    ensures hds == HorizontalDs(cfg, s, fb) && vds == VerticalDs(rate, t, s, fb)
  {
    srcH, vds := VerticalStep(rate, t, s, fb);
    srcW, hds := HorizontalStep(cfg, s, fb);
  }

  method VerticalStep(rate: nat, t: Timing, s: PlaneState, fb: Framebuffer) returns (srcH: bv32, vds: bv32)
    requires Visible(s) && NeedsScaler(s, fb) && Schedulable(t, s, fb)
    ensures srcH == ScaledHeight(rate, t, s, fb) && vds == VerticalDs(rate, t, s, fb)
  {
    srcH, vds := AlignedV(s, fb).size, 0;
    if VerticalCoarse(rate, t, s, fb) {
      var vn := Word(CoarseHeight(Ability(rate, t, s, fb), DstHeight(s) as int));
      vds := DsWord(vn, srcH);
      srcH := vn;
    }
  }

  method HorizontalStep(cfg: MixerCfg, s: PlaneState, fb: Framebuffer) returns (srcW: bv32, hds: bv32)
    requires NeedsScaler(s, fb)
    ensures srcW == ScaledWidth(cfg, s, fb) && hds == HorizontalDs(cfg, s, fb)
  {
    srcW, hds := AlignedH(s, fb).size, 0;
    var scanline := Scanline(cfg, fb);
    if srcW as int > scanline as int {
      hds := DsWord(scanline, srcW);
      srcW := scanline;
    }
  }

  lemma DstNonEmpty(s: PlaneState)
    requires Visible(s)
    ensures DstWidth(s) != 0 && DstHeight(s) != 0
  {
  }

  /** The register writes of `update_coord`, in its order. */
  method WriteCoordWords(rm: RegMap, cfg: MixerCfg, channel: nat, overlay: nat, s: PlaneState, fb: Framebuffer,
                         zpos: nat, hds: bv32, vds: bv32)
    modifies rm
    ensures rm.regs == CoordWords(old(rm.regs), cfg, channel, overlay, s, fb, zpos, hds, vds)
  {
    var bld := BlenderBase(cfg.isDe3);
    var ch := ChannelBase(cfg.isDe3, channel);
    rm.Write(LayerSize(ch, overlay), Insize(s, fb));
    rm.Write(OvlSize(ch), Insize(s, fb));
    rm.Write(HdsY(ch), hds);
    rm.Write(HdsUv(ch), hds);
    rm.Write(VdsY(ch), vds);
    rm.Write(VdsUv(ch), vds);
    rm.Write(AttrCoord(bld, zpos), Coord(s.dst.x1, s.dst.y1));
    rm.Write(AttrInsize(bld, zpos), Outsize(s));
  }

  // ---- update_format ----

  /** The CCSC unit that converts for VI channel `channel`. */
  function CscUnit(cfg: MixerCfg, channel: nat): int
    requires cfg.ccsc < 2 && channel < 2
  {
    Csc.CcscBases[cfg.ccsc][channel]
  }

  function RgbModeBit(rgb: bool): bv32 { if rgb then ATTR_RGB_MODE else 0 }

  /** The FBFMT field for a catalogued format: it reads back as the entry's
      hardware code. */
  function CatalogueField(f: Fourcc): (r: bv32)
    requires Lookup(f).Some?
    ensures Lookup(f).value.de2 < 20 && (r & ATTR_FBFMT_MASK) >> ATTR_FBFMT_OFFSET == Word(Lookup(f).value.de2)
  {
    CodesFitField(f);
    FbfmtField(Lookup(f).value.de2)
  }

  /** Register file after `sunh5_vi_layer_update_format`. A fourcc without a
      catalogue entry writes nothing. Otherwise the FBFMT field takes the
      hardware code, the channel's CCSC unit is programmed and enabled for
      YUV formats (and only disabled for RGB ones), and the RGB-mode bit
      follows the entry's `rgb`. */
  function FormatWritten(m: RegFile, cfg: MixerCfg, channel: nat, overlay: nat, f: Fourcc): RegFile
    requires cfg.ccsc < 2 && channel < 2
  {
    match Lookup(f)
    case None => m
    case Some(e) =>
      var attr, unit := AttrOf(cfg, channel, overlay), CscUnit(cfg, channel);
      var m1 := BitsUpdated(m, attr, ATTR_FBFMT_MASK, CatalogueField(f));
      var m2 := if e.csc != Csc.Off then Csc.CoeffsWritten(m1, unit, Csc.TableFor(e.csc).value, 12) else m1;
      var m3 := BitsUpdated(m2, Csc.CtrlOffset(unit), Csc.CTRL_EN, if e.csc != Csc.Off then Csc.CTRL_EN else 0);
      BitsUpdated(m3, attr, ATTR_RGB_MODE, RgbModeBit(e.rgb))
  }

  /** `sunh5_vi_layer_update_format`. */
  method UpdateFormat(rm: RegMap, cfg: MixerCfg, channel: nat, overlay: nat, f: Fourcc) returns (ret: int)
    requires cfg.ccsc < 2 && channel < 2
    modifies rm
    ensures ret == (if Lookup(f).Some? then 0 else -EINVAL)
    ensures rm.regs == FormatWritten(old(rm.regs), cfg, channel, overlay, f)
  {
    var info := Lookup(f);
    if info.None? {
      return -EINVAL;
    }
    var e := info.value;
    var attr := AttrOf(cfg, channel, overlay);
    rm.UpdateBits(attr, ATTR_FBFMT_MASK, CatalogueField(f));
    if e.csc != Csc.Off {
      Csc.SetCcscCoefficients(rm, cfg.ccsc, channel, e.csc);
      Csc.EnableCcsc(rm, cfg.ccsc, channel, true);
    } else {
      Csc.EnableCcsc(rm, cfg.ccsc, channel, false);
    }
    rm.UpdateBits(attr, ATTR_RGB_MODE, RgbModeBit(e.rgb));
    return 0;
  }

  /** The attribute word lies below every CCSC unit's words. */
  lemma AttrBelowCsc(cfg: MixerCfg, channel: nat, overlay: nat, o: nat)
    requires cfg.ccsc < 2 && channel < 2 && overlay < 4 && o < 0x40
    ensures AttrOf(cfg, channel, overlay) < CscUnit(cfg, channel) + o
  {
  }

  /** Of the registers `update_format` writes, the attribute word receives
      the FBFMT merge and then the RGB-mode merge. */
  lemma FormatAttrWord(m: RegFile, cfg: MixerCfg, channel: nat, overlay: nat, f: Fourcc)
    requires cfg.ccsc < 2 && channel < 2 && overlay < 4 && Lookup(f).Some?
    ensures var attr := AttrOf(cfg, channel, overlay);
      Get(FormatWritten(m, cfg, channel, overlay, f), attr)
        == Merge(Merge(Get(m, attr), ATTR_FBFMT_MASK, CatalogueField(f)), ATTR_RGB_MODE, RgbModeBit(Lookup(f).value.rgb))
  {
    var attr, e := AttrOf(cfg, channel, overlay), Lookup(f).value;
    var unit := CscUnit(cfg, channel);
    var m1 := BitsUpdated(m, attr, ATTR_FBFMT_MASK, CatalogueField(f));
    if e.csc != Csc.Off {
      Csc.CoeffsWrittenSpec(m1, unit, Csc.TableFor(e.csc).value, 12);
      forall k | 0 <= k < 12 ensures attr != Csc.CoeffOffset(unit, k) {
        AttrBelowCsc(cfg, channel, overlay, 0x10 + 4 * k);
      }
    }
    AttrBelowCsc(cfg, channel, overlay, 0);
  }

  /** Two merges through the FBFMT field and the RGB-mode bit set both and
      keep every other bit, the enable bit among them. */
  lemma AttrMergeFields(w: bv32, fmt: bv32, rgb: bv32)
    ensures var r := Merge(Merge(w, ATTR_FBFMT_MASK, fmt), ATTR_RGB_MODE, rgb);
      && r & ATTR_FBFMT_MASK == fmt & ATTR_FBFMT_MASK
      && r & ATTR_RGB_MODE == rgb & ATTR_RGB_MODE
      && r & ATTR_EN == w & ATTR_EN
  {
    DisjointMergesFirst(w, ATTR_FBFMT_MASK, fmt, ATTR_RGB_MODE, rgb);
  }

  /** A catalogued format leaves the FBFMT field holding its hardware code
      and the RGB-mode bit set exactly for entries read as RGB, and does not
      touch the enable bit. */
  lemma FormatAttrFields(m: RegFile, cfg: MixerCfg, channel: nat, overlay: nat, f: Fourcc)
    requires cfg.ccsc < 2 && channel < 2 && overlay < 4 && Lookup(f).Some?
    ensures var attr := AttrOf(cfg, channel, overlay);
      var r := Get(FormatWritten(m, cfg, channel, overlay, f), attr);
      && r & ATTR_FBFMT_MASK == CatalogueField(f) & ATTR_FBFMT_MASK
      && (r & ATTR_RGB_MODE != 0 <==> Lookup(f).value.rgb)
      && r & ATTR_EN == Get(m, attr) & ATTR_EN
  {
    var attr, e := AttrOf(cfg, channel, overlay), Lookup(f).value;
    FormatAttrWord(m, cfg, channel, overlay, f);
    AttrMergeFields(Get(m, attr), CatalogueField(f), RgbModeBit(e.rgb));
  }

  /** The channel's CCSC unit ends enabled exactly for formats that need a
      conversion; a converting format has its 12 coefficient words
      programmed from the mode's table, and an RGB format leaves them alone. */
  lemma FormatCscUnit(m: RegFile, cfg: MixerCfg, channel: nat, overlay: nat, f: Fourcc)
    requires cfg.ccsc < 2 && channel < 2 && overlay < 4 && Lookup(f).Some?
    ensures var unit, e := CscUnit(cfg, channel), Lookup(f).value;
      var r := FormatWritten(m, cfg, channel, overlay, f);
      && Get(r, Csc.CtrlOffset(unit)) & Csc.CTRL_EN == (if e.csc != Csc.Off then Csc.CTRL_EN else 0)
      && (e.csc != Csc.Off ==> forall i :: 0 <= i < 12 ==>
            Get(r, Csc.CoeffOffset(unit, i)) == Csc.CoeffWord(Csc.TableFor(e.csc).value, i))
      && (e.csc == Csc.Off ==> forall i :: 0 <= i < 12 ==>
            Get(r, Csc.CoeffOffset(unit, i)) == Get(m, Csc.CoeffOffset(unit, i)))
  {
    var attr, unit, e := AttrOf(cfg, channel, overlay), CscUnit(cfg, channel), Lookup(f).value;
    var m1 := BitsUpdated(m, attr, ATTR_FBFMT_MASK, CatalogueField(f));
    AttrBelowCsc(cfg, channel, overlay, 0);
    forall i | 0 <= i < 12 ensures attr != Csc.CoeffOffset(unit, i) {
      AttrBelowCsc(cfg, channel, overlay, 0x10 + 4 * i);
    }
    if e.csc != Csc.Off {
      Csc.CoeffsWrittenSpec(m1, unit, Csc.TableFor(e.csc).value, 12);
    }
  }

  /** Every format a VI plane advertises is accepted, and the channel's
      CCSC unit ends enabled exactly for the YUV ones. */
  lemma AdvertisedFormatsConverted(m: RegFile, cfg: MixerCfg, channel: nat, overlay: nat, f: Fourcc)
    requires cfg.ccsc < 2 && channel < 2 && overlay < 4 && f in ViFormats
    ensures Lookup(f).Some?
    ensures var r := FormatWritten(m, cfg, channel, overlay, f);
      Get(r, Csc.CtrlOffset(CscUnit(cfg, channel))) & Csc.CTRL_EN == (if IsRgbFourcc(f) then 0 else Csc.CTRL_EN)
  {
    ViFormatsListed();
    CscByFamily(f);
    FormatCscUnit(m, cfg, channel, overlay, f);
  }

  // ---- update_buffer ----

  /** Source column and row read from plane `i`: the start aligned to the
      subsampling factor, divided by it for the chroma planes. */
  function PlaneX(s: PlaneState, fb: Framebuffer, i: nat): bv32
    requires WellFormed(fb)
  {
    var x := AlignedStart(SrcX(s), fb.hsub);
    if i > 0 then DivideBy(x, fb.hsub) else x
  }

  function PlaneY(s: PlaneState, fb: Framebuffer, i: nat): bv32
    requires WellFormed(fb)
  {
    var y := AlignedStart(SrcY(s), fb.vsub);
    if i > 0 then DivideBy(y, fb.vsub) else y
  }

  /** Division by a subsampling factor, written per factor so that each
      case divides by a constant. */
  function DivideBy(x: bv32, sub: bv32): bv32
    requires ValidSub(sub)
  {
    if sub == 1 then x else if sub == 2 then x / 2 else x / 4
  }

  /** Bus address (low 32 bits) of the first displayed sample of plane `i`. */
  function PlaneAddress(fb: Framebuffer, s: PlaneState, i: nat): (r: nat)
    requires WellFormed(fb) && i < fb.numPlanes
    ensures r < 0x1_0000_0000
  {
    PixelAddress(fb, i, PlaneX(s, fb, i) as int, PlaneY(s, fb, i) as int)
  }

  /** Register file after the first `n` planes of `update_buffer`'s loop. */
  function BuffersWritten(m: RegFile, cfg: MixerCfg, channel: nat, overlay: nat, fb: Framebuffer, s: PlaneState,
                          n: nat): RegFile
    requires WellFormed(fb) && n <= fb.numPlanes
  {
    if n == 0 then m
    else
      var ch := ChannelBase(cfg.isDe3, channel);
      Written(Written(BuffersWritten(m, cfg, channel, overlay, fb, s, n - 1), Pitch(ch, overlay, n - 1), fb.pitches[n - 1]),
              TopLaddr(ch, overlay, n - 1), Word(PlaneAddress(fb, s, n - 1)))
  }

  /** `sunh5_vi_layer_update_buffer`: one pitch and one address per plane. */
  method UpdateBuffer(rm: RegMap, cfg: MixerCfg, channel: nat, overlay: nat, fb: Framebuffer, s: PlaneState)
    requires WellFormed(fb)
    modifies rm
    ensures rm.regs == BuffersWritten(old(rm.regs), cfg, channel, overlay, fb, s, fb.numPlanes)
  {
    var i := 0;
    while i < fb.numPlanes
      invariant 0 <= i <= fb.numPlanes
      invariant rm.regs == BuffersWritten(old(rm.regs), cfg, channel, overlay, fb, s, i)
    {
      WritePlane(rm, cfg, channel, overlay, fb, s, i);
      i := i + 1;
    }
  }

  /** One iteration of `update_buffer`'s loop: plane `i`'s line pitch, then
      the address of its first displayed sample. */
  method WritePlane(rm: RegMap, cfg: MixerCfg, channel: nat, overlay: nat, fb: Framebuffer, s: PlaneState, i: nat)
    requires WellFormed(fb) && i < fb.numPlanes
    modifies rm
    ensures var ch := ChannelBase(cfg.isDe3, channel);
      rm.regs == Written(Written(old(rm.regs), Pitch(ch, overlay, i), fb.pitches[i]),
                         TopLaddr(ch, overlay, i), Word(PlaneAddress(fb, s, i)))
  {
    var ch := ChannelBase(cfg.isDe3, channel);
    var paddr := PlaneAddress(fb, s, i);
    rm.Write(Pitch(ch, overlay, i), fb.pitches[i]);
    rm.Write(TopLaddr(ch, overlay, i), Word(paddr));
  }

  /** The pitch and address words of `update_buffer`'s first `n` planes are
      the only registers it writes. */
  lemma {:induction false} BuffersFrame(m: RegFile, cfg: MixerCfg, channel: nat, overlay: nat, fb: Framebuffer,
                                        s: PlaneState, n: nat, o: int)
    requires WellFormed(fb) && n <= fb.numPlanes
    requires forall k :: 0 <= k < n ==>
               o != Pitch(ChannelBase(cfg.isDe3, channel), overlay, k) && o != TopLaddr(ChannelBase(cfg.isDe3, channel), overlay, k)
    ensures Get(BuffersWritten(m, cfg, channel, overlay, fb, s, n), o) == Get(m, o)
  {
    if n > 0 {
      BuffersFrame(m, cfg, channel, overlay, fb, s, n - 1, o);
    }
  }

  /** For formats of up to three planes, plane k's pitch word holds its
      pitch and its address word the address of its first displayed sample. */
  lemma {:induction false} BufferWordsAt(m: RegFile, cfg: MixerCfg, channel: nat, overlay: nat, fb: Framebuffer,
                                         s: PlaneState, n: nat, k: nat)
    requires WellFormed(fb) && k < n <= fb.numPlanes <= 3
    ensures var r, ch := BuffersWritten(m, cfg, channel, overlay, fb, s, n), ChannelBase(cfg.isDe3, channel);
      Get(r, Pitch(ch, overlay, k)) == fb.pitches[k] && Get(r, TopLaddr(ch, overlay, k)) == Word(PlaneAddress(fb, s, k))
  {
    if k < n - 1 {
      BufferWordsAt(m, cfg, channel, overlay, fb, s, n - 1, k);
    }
  }

  /** The luma plane is read from the aligned start, and the phase
      `update_coord` programs makes up what the alignment dropped: together
      they give back the 16.16 source origin. */
  lemma BufferOriginAgrees(s: PlaneState, fb: Framebuffer)
    requires Visible(s) && WellFormed(fb)
    ensures (PlaneX(s, fb, 0) << 16) + AlignedH(s, fb).phase == s.src.x1
    ensures (PlaneY(s, fb, 0) << 16) + AlignedV(s, fb).phase == s.src.y1
  {
    LumaStart(s, fb);
    AlignKeepsOrigin(s.src.x1, SrcWidth(s), fb.hsub);
    AlignKeepsOrigin(s.src.y1, SrcHeight(s), fb.vsub);
  }

  lemma LumaStart(s: PlaneState, fb: Framebuffer)
    requires WellFormed(fb)
    ensures PlaneX(s, fb, 0) == AlignedStart(SrcX(s), fb.hsub)
    ensures PlaneY(s, fb, 0) == AlignedStart(SrcY(s), fb.vsub)
  {
  }

  // ---- atomic_update ----


  /** Register file after `sunh5_vi_layer_atomic_update`. A plane that is not
      visible only vacates its old slot. A visible plane gets its geometry,
      format, buffers and slot programmed in that order. */
  function Updated(m: RegFile, cfg: MixerCfg, layer: Layer, s: PlaneState, visible: bool,
                   fb: Framebuffer, zpos: bv32, oldZpos: bv32): RegFile
    requires cfg.ccsc < 2 && layer.channel < 2 && zpos < 8 && oldZpos < 8
    requires visible ==> Visible(s) && WellFormed(fb)
  {
    if !visible then
      SlotUpdated(m, AttrOf(cfg, layer.channel, layer.overlay), BlenderBase(cfg.isDe3), layer.channel as bv32, false, 0, oldZpos)
    else Shown(m, cfg, layer, s, fb, zpos, oldZpos)
  }

  /** A visible plane: its registers as `Staged` leaves them, then its layer
      enabled in slot `zpos`. */
  function Shown(m: RegFile, cfg: MixerCfg, layer: Layer, s: PlaneState,
                 fb: Framebuffer, zpos: bv32, oldZpos: bv32): RegFile
    requires cfg.ccsc < 2 && layer.channel < 2 && zpos < 8 && oldZpos < 8
    requires Visible(s) && WellFormed(fb)
  {
    SlotUpdated(Staged(m, cfg, layer, s, fb, zpos), AttrOf(cfg, layer.channel, layer.overlay),
                BlenderBase(cfg.isDe3), layer.channel as bv32, true, zpos, oldZpos)
  }

  /** Geometry, format and buffers of a visible plane; a format without a
      catalogue entry writes nothing and the update carries on. */
  function Staged(m: RegFile, cfg: MixerCfg, layer: Layer, s: PlaneState,
                  fb: Framebuffer, zpos: bv32): RegFile
    requires cfg.ccsc < 2 && layer.channel < 2
    requires Visible(s) && WellFormed(fb)
  {
    var m1 := CoordWritten(m, cfg, layer.channel, layer.overlay, s, fb, zpos as nat);
    var m2 := FormatWritten(m1, cfg, layer.channel, layer.overlay, fb.format);
    BuffersWritten(m2, cfg, layer.channel, layer.overlay, fb, s, fb.numPlanes)
  }

  /** `sunh5_vi_layer_atomic_update`; returns the scaler request of a visible plane. */
  method AtomicUpdate(rm: RegMap, cfg: MixerCfg, rate: nat, t: Timing, layer: Layer, s: PlaneState, visible: bool,
                      fb: Framebuffer, zpos: bv32, oldZpos: bv32) returns (scaler: Option<ScalerCall>)
    requires cfg.ccsc < 2 && layer.channel < 2 && zpos < 8 && oldZpos < 8
    requires visible ==> Visible(s) && WellFormed(fb) && (NeedsScaler(s, fb) ==> Schedulable(t, s, fb))
    modifies rm
    ensures scaler == if visible then Some(Scaler(cfg, rate, t, s, fb)) else None
    ensures rm.regs == Updated(old(rm.regs), cfg, layer, s, visible, fb, zpos, oldZpos)
  {
    if !visible {
      Enable(rm, cfg, layer.channel, layer.overlay, false, 0, oldZpos);
      return None;
    }
    var sc := Show(rm, cfg, rate, t, layer, s, fb, zpos, oldZpos);
    scaler := Some(sc);
  }

  /** A visible plane: its registers staged, then its layer enabled. */
  method Show(rm: RegMap, cfg: MixerCfg, rate: nat, t: Timing, layer: Layer, s: PlaneState,
              fb: Framebuffer, zpos: bv32, oldZpos: bv32) returns (sc: ScalerCall)
    requires cfg.ccsc < 2 && layer.channel < 2 && zpos < 8 && oldZpos < 8
    requires Visible(s) && WellFormed(fb) && (NeedsScaler(s, fb) ==> Schedulable(t, s, fb))
    modifies rm
    ensures sc == Scaler(cfg, rate, t, s, fb)
    ensures rm.regs == Shown(old(rm.regs), cfg, layer, s, fb, zpos, oldZpos)
  {
    sc := Stage(rm, cfg, rate, t, layer, s, fb, zpos);
    Enable(rm, cfg, layer.channel, layer.overlay, true, zpos, oldZpos);
  }

  /** The coordinate, format and buffer steps of `atomic_update` for a
      visible plane; the format step's error is not looked at. */
  method Stage(rm: RegMap, cfg: MixerCfg, rate: nat, t: Timing, layer: Layer, s: PlaneState,
               fb: Framebuffer, zpos: bv32) returns (sc: ScalerCall)
    requires cfg.ccsc < 2 && layer.channel < 2
    requires Visible(s) && WellFormed(fb) && (NeedsScaler(s, fb) ==> Schedulable(t, s, fb))
    modifies rm
    ensures sc == Scaler(cfg, rate, t, s, fb)
    ensures rm.regs == Staged(old(rm.regs), cfg, layer, s, fb, zpos)
  {
    sc := UpdateCoord(rm, cfg, layer.channel, layer.overlay, rate, t, s, fb, zpos as nat);
    var _ := UpdateFormat(rm, cfg, layer.channel, layer.overlay, fb.format);
    UpdateBuffer(rm, cfg, layer.channel, layer.overlay, fb, s);
  }

  /** Of the steps before the layer is enabled, only `update_format`
      touches the attribute word. */
  lemma StepsBeforeEnable(m: RegFile, cfg: MixerCfg, layer: Layer, s: PlaneState,
                          fb: Framebuffer, zpos: bv32)
    requires cfg.ccsc < 2 && layer.channel < 2 && layer.overlay < 4 && zpos < 8
    requires Visible(s) && WellFormed(fb)
    ensures var attr := AttrOf(cfg, layer.channel, layer.overlay);
      var m1 := CoordWritten(m, cfg, layer.channel, layer.overlay, s, fb, zpos as nat);
      Get(Staged(m, cfg, layer, s, fb, zpos), attr) == Get(FormatWritten(m1, cfg, layer.channel, layer.overlay, fb.format), attr)
      && Get(m1, attr) == Get(m, attr)
  {
    CoordKeepsAttr(m, cfg, layer, s, fb, zpos);
    var m1 := CoordWritten(m, cfg, layer.channel, layer.overlay, s, fb, zpos as nat);
    var m2 := FormatWritten(m1, cfg, layer.channel, layer.overlay, fb.format);
    BuffersFrame(m2, cfg, layer.channel, layer.overlay, fb, s, fb.numPlanes, AttrOf(cfg, layer.channel, layer.overlay));
  }

  /** `update_coord` leaves the layer's attribute word alone. */
  lemma CoordKeepsAttr(m: RegFile, cfg: MixerCfg, layer: Layer, s: PlaneState,
                       fb: Framebuffer, zpos: bv32)
    requires layer.channel < 2 && layer.overlay < 4 && zpos < 8
    ensures var attr := AttrOf(cfg, layer.channel, layer.overlay);
      Get(CoordWritten(m, cfg, layer.channel, layer.overlay, s, fb, zpos as nat), attr) == Get(m, attr)
  {
    var attr := AttrOf(cfg, layer.channel, layer.overlay);
    CoordFrame(m, cfg, layer.channel, layer.overlay, s, fb, zpos as nat, HorizontalDs(cfg, s, fb), HorizontalDs(cfg, s, fb), attr);
  }

  /** A visible plane with a catalogued format ends enabled in its slot,
      with the FBFMT field holding the format's hardware code and the
      RGB-mode bit set exactly for entries read as RGB. */
  lemma UpdateProgramsFormat(m: RegFile, cfg: MixerCfg, layer: Layer, s: PlaneState,
                             fb: Framebuffer, zpos: bv32, oldZpos: bv32)
    requires cfg.ccsc < 2 && layer.channel < 2 && layer.overlay < 4 && zpos < 8 && oldZpos < 8
    requires Visible(s) && WellFormed(fb)
    requires Lookup(fb.format).Some?
    ensures var r := Updated(m, cfg, layer, s, true, fb, zpos, oldZpos);
      var w := Get(r, AttrOf(cfg, layer.channel, layer.overlay));
      && w & ATTR_EN == ATTR_EN
      && w & ATTR_FBFMT_MASK == CatalogueField(fb.format) & ATTR_FBFMT_MASK
      && (w & ATTR_RGB_MODE != 0 <==> Lookup(fb.format).value.rgb)
  {
    var m1 := CoordWritten(m, cfg, layer.channel, layer.overlay, s, fb, zpos as nat);
    StepsBeforeEnable(m, cfg, layer, s, fb, zpos);
    EnabledWithFormat(Staged(m, cfg, layer, s, fb, zpos), m1, cfg, layer.channel, layer.overlay,
                      fb.format, zpos, oldZpos);
  }

  /** Enabling a slot over a word `update_format` wrote keeps its format fields. */
  lemma EnabledWithFormat(m3: RegFile, m1: RegFile, cfg: MixerCfg, channel: nat, overlay: nat, f: Fourcc,
                          zpos: bv32, oldZpos: bv32)
    requires cfg.ccsc < 2 && channel < 2 && overlay < 4 && zpos < 8 && oldZpos < 8 && Lookup(f).Some?
    requires var attr := AttrOf(cfg, channel, overlay);
      Get(m3, attr) == Get(FormatWritten(m1, cfg, channel, overlay, f), attr)
    ensures var attr := AttrOf(cfg, channel, overlay);
      var w := Get(SlotUpdated(m3, attr, BlenderBase(cfg.isDe3), channel as bv32, true, zpos, oldZpos), attr);
      && w & ATTR_EN == ATTR_EN
      && w & ATTR_FBFMT_MASK == CatalogueField(f) & ATTR_FBFMT_MASK
      && (w & ATTR_RGB_MODE != 0 <==> Lookup(f).value.rgb)
  {
    var attr, bld := AttrOf(cfg, channel, overlay), BlenderBase(cfg.isDe3);
    var m2 := FormatWritten(m1, cfg, channel, overlay, f);
    var w := Get(SlotUpdated(m3, attr, bld, channel as bv32, true, zpos, oldZpos), attr);
    var before, code, rgb := Get(m2, attr), CatalogueField(f), Lookup(f).value.rgb;
    assert w & ATTR_EN == ATTR_EN && w & !ATTR_EN == before & !ATTR_EN by {
      AttrApart(cfg, channel, overlay);
      UiLayer.EnabledOver(m3, m2, attr, bld, channel as bv32, zpos, oldZpos);
    }
    assert before & ATTR_FBFMT_MASK == code & ATTR_FBFMT_MASK && (before & ATTR_RGB_MODE != 0 <==> rgb) by {
      FormatAttrFields(m1, cfg, channel, overlay, f);
    }
    FieldsThroughEnable(w, before, code, rgb);
  }

  lemma FieldsThroughEnable(w: bv32, before: bv32, code: bv32, rgb: bool)
    requires w & !ATTR_EN == before & !ATTR_EN
    requires before & ATTR_FBFMT_MASK == code & ATTR_FBFMT_MASK
    requires before & ATTR_RGB_MODE != 0 <==> rgb
    ensures w & ATTR_FBFMT_MASK == code & ATTR_FBFMT_MASK
    ensures w & ATTR_RGB_MODE != 0 <==> rgb
  {
    assert w & ATTR_FBFMT_MASK == before & ATTR_FBFMT_MASK;
    assert w & ATTR_RGB_MODE == before & ATTR_RGB_MODE;
  }

  /** A visible plane whose format has no catalogue entry is still enabled
      in its slot, with its FBFMT field and RGB-mode bit left as they were. */
  lemma UpdateIgnoresUnknownFormat(m: RegFile, cfg: MixerCfg, layer: Layer, s: PlaneState,
                                   fb: Framebuffer, zpos: bv32, oldZpos: bv32)
    requires cfg.ccsc < 2 && layer.channel < 2 && layer.overlay < 4 && zpos < 8 && oldZpos < 8
    requires Visible(s) && WellFormed(fb)
    requires Lookup(fb.format).None?
    ensures var r := Updated(m, cfg, layer, s, true, fb, zpos, oldZpos);
      var w := Get(r, AttrOf(cfg, layer.channel, layer.overlay));
      var before := Get(m, AttrOf(cfg, layer.channel, layer.overlay));
      && w & ATTR_EN == ATTR_EN
      && w & ATTR_FBFMT_MASK == before & ATTR_FBFMT_MASK
      && w & ATTR_RGB_MODE == before & ATTR_RGB_MODE
  {
    var m1 := CoordWritten(m, cfg, layer.channel, layer.overlay, s, fb, zpos as nat);
    StepsBeforeEnable(m, cfg, layer, s, fb, zpos);
    EnabledWithoutFormat(Staged(m, cfg, layer, s, fb, zpos), m1, m, cfg, layer.channel, layer.overlay,
                         fb.format, zpos, oldZpos);
  }

  /** Enabling a slot over a word an unknown format left alone keeps the
      rest of the word. */
  lemma EnabledWithoutFormat(m3: RegFile, m1: RegFile, m: RegFile, cfg: MixerCfg, channel: nat, overlay: nat,
                             f: Fourcc, zpos: bv32, oldZpos: bv32)
    requires cfg.ccsc < 2 && channel < 2 && zpos < 8 && oldZpos < 8 && Lookup(f).None?
    requires var attr := AttrOf(cfg, channel, overlay);
      Get(m3, attr) == Get(FormatWritten(m1, cfg, channel, overlay, f), attr) && Get(m1, attr) == Get(m, attr)
    ensures var attr := AttrOf(cfg, channel, overlay);
      var w := Get(SlotUpdated(m3, attr, BlenderBase(cfg.isDe3), channel as bv32, true, zpos, oldZpos), attr);
      && w & ATTR_EN == ATTR_EN
      && w & ATTR_FBFMT_MASK == Get(m, attr) & ATTR_FBFMT_MASK
      && w & ATTR_RGB_MODE == Get(m, attr) & ATTR_RGB_MODE
  {
    var attr := AttrOf(cfg, channel, overlay);
    var w := Get(SlotUpdated(m3, attr, BlenderBase(cfg.isDe3), channel as bv32, true, zpos, oldZpos), attr);
    var before := Get(m, attr);
    assert Get(m3, attr) == before by {
      assert FormatWritten(m1, cfg, channel, overlay, f) == m1;
    }
    assert w & ATTR_EN == ATTR_EN && w & !ATTR_EN == before & !ATTR_EN by {
      AttrApart(cfg, channel, overlay);
      UiLayer.EnabledOver(m3, m, attr, BlenderBase(cfg.isDe3), channel as bv32, zpos, oldZpos);
    }
    OutsideEnable(w, before);
  }

  lemma OutsideEnable(w: bv32, before: bv32)
    requires w & !ATTR_EN == before & !ATTR_EN
    ensures w & ATTR_FBFMT_MASK == before & ATTR_FBFMT_MASK
    ensures w & ATTR_RGB_MODE == before & ATTR_RGB_MODE
  {
  }

  // ---- init_one ----

  /** `sunh5_vi_layer_init_one` for VI layer `index`: an overlay plane on
      channel `index`, overlay 0, with a zpos property starting at `index`
      and ranging over the mixer's planes. */
  function InitOne(cfg: MixerCfg, index: nat, allocOk: bool, planeInitRet: int, zposRet: int): (r: Result<Layer>)
    ensures r.Ok? <==> allocOk && planeInitRet == 0 && zposRet == 0
    ensures r.Ok? ==> && r.value.channel == index && r.value.isVi && r.value.kind == Overlay
                      && r.value.overlay == 0 && r.value.zpos == index
                      && r.value.zposMax == PlaneCount(cfg) - 1
  {
    InitOutcome(allocOk, planeInitRet, zposRet, Layer(Overlay, true, index, 0, index, PlaneCount(cfg) - 1))
  }
}
