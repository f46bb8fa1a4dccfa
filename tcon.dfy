// The timing controller (sunh5_tcon.c, sunh5_tcon.h): the clock-delay
// formula, the channel-1 timing registers `mode_set` programs, the enable
// paths, the vblank interrupt masks, the register reset done when the
// regmap is created and the interrupt handler that completes page flips.
module Tcon {
  import opened Regs
  import opened Wrappers
  import opened CrtcState

  // ---- registers (sunh5_tcon.h) ----

  const GCTL := 0x0
  const GCTL_TCON_ENABLE: bv32 := 0x8000_0000
  const GCTL_IOMAP_MASK: bv32 := 0x1
  const GCTL_IOMAP_TCON1: bv32 := 0x1

  const GINT0 := 0x4
  const GINT1 := 0x8

  const TCON0_IO_TRI := 0x8c
  const TCON1_IO_TRI := 0xf4

  const TCON1_CTL := 0x90
  const CTL_TCON_ENABLE: bv32 := 0x8000_0000
  const CTL_INTERLACE_ENABLE: bv32 := 0x10_0000
  const CTL_CLK_DELAY_MASK: bv32 := 0x1f0

  const BASIC0 := 0x94
  const BASIC1 := 0x98
  const BASIC2 := 0x9c
  const BASIC3 := 0xa0
  const BASIC4 := 0xa4
  const BASIC5 := 0xa8

  /** GINT0 enable bit of the vblank interrupt of channel `pipe`. */
  function VblankEnable(pipe: nat): bv32
    requires pipe < 2
  {
    Bit(31 - pipe)
  }

  /** GINT0 status bit of the vblank interrupt of channel `pipe`. */
  function VblankInt(pipe: nat): bv32
    requires pipe < 2
  {
    Bit(15 - pipe)
  }

  const TRI_FINISH_ENABLE: bv32 := 0x0800_0000
  const TRI_FINISH_INT: bv32 := 0x800

  /** The enable bits `enable_vblank` sets and clears together. */
  const VBLANK_ENABLES: bv32 := VblankEnable(0) | VblankEnable(1) | TRI_FINISH_ENABLE

  /** The status bits the interrupt handler tests and acknowledges. */
  const VBLANK_STATUS: bv32 := VblankInt(0) | VblankInt(1) | TRI_FINISH_INT

  /** The enables are bits 31, 30 and 27, the status bits 15, 14 and 11:
      each status bit sits 16 below its enable, and the two sets are apart. */
  lemma InterruptBits()
    ensures VBLANK_ENABLES == 0xc800_0000
    ensures VBLANK_STATUS == 0xc800
    ensures VBLANK_STATUS << 16 == VBLANK_ENABLES
    ensures VBLANK_ENABLES & VBLANK_STATUS == 0
  {
  }

  // ---- encoders and modes ----

  /** DRM_MODE_ENCODER_*. */
  datatype EncoderType = NoEncoder | Dac | Tmds | Lvds | TvDac | Virtual | Dsi | DpMst | Dpi

  /** The fields of a drm_display_mode the TCON reads, each as the 32-bit
      pattern of its C `int`. */
  datatype Mode = Mode(
    vtotal: bv32, vdisplay: bv32, interlaced: bool, crtcClock: bv32,
    crtcHdisplay: bv32, crtcVdisplay: bv32,
    crtcHtotal: bv32, crtcHsyncStart: bv32, crtcHsyncEnd: bv32,
    crtcVtotal: bv32, crtcVsyncStart: bv32, crtcVblankEnd: bv32)

  // ---- clock delay ----

  /** C's `d / 2` on an `int`, which truncates toward zero. */
  function Half(d: int): int
  {
    if d >= 0 then d / 2 else -((-d) / 2)
  }

  /** The vertical blanking in lines, halved for interlaced modes and less
      two lines on channel 1: the delay before it is capped. */
  function Blanking(mode: Mode, channel: int): int
  {
    var d := Signed(mode.vtotal) - Signed(mode.vdisplay);
    var h := if mode.interlaced then Half(d) else d;
    if channel == 1 then h - 2 else h
  }

  /** `sunh5_tcon_get_clk_delay`: the blanking, capped at 30. */
  function ClkDelay(mode: Mode, channel: int): (r: int)
    ensures r <= 30 && r <= Blanking(mode, channel)
    ensures r == 30 || r == Blanking(mode, channel)
  {
    var d := Blanking(mode, channel);
    if d < 30 then d else 30
  }

  /** The clock delay of a channel-1 mode, written out for both scan types. */
  lemma ClkDelayByScan(mode: Mode)
    requires 0 <= Signed(mode.vdisplay) <= Signed(mode.vtotal)
    ensures var blank := Signed(mode.vtotal) - Signed(mode.vdisplay);
      ClkDelay(mode, 1) == if mode.interlaced then Min(blank / 2 - 2, 30) else Min(blank - 2, 30)
  {
  }

  function Min(a: int, b: int): int
  {
    if a < b then a else b
  }

  /** The `u8` the delay is stored in before it is shifted into place. */
  function DelayByte(d: int): (r: bv8)
    ensures 0 <= d < 256 ==> r as int == d
  {
    (d % 256) as bv8
  }

  /** TCON1_CTL_CLK_DELAY: the delay in bits 8:4. */
  function ClkDelayField(b: bv8): (r: bv32)
    ensures b < 32 ==> r >> 4 == b as bv32
    ensures r & !CTL_CLK_DELAY_MASK == 0
  {
    ((b as bv32) << 4) & CTL_CLK_DELAY_MASK
  }

  /** A delay in 0..30 reaches the register unchanged. */
  lemma DelayProgrammed(d: int)
    requires 0 <= d <= 30
    ensures (ClkDelayField(DelayByte(d)) >> 4) as int == d
  {
    var b := DelayByte(d);
    assert b as int == d;
    assert b < 32;
  }

  /** A delay of -1 (one blanking line on channel 1) wraps through the `u8`
      and the 5-bit field into 31, above the cap. */
  lemma NegativeDelayWraps()
    ensures ClkDelayField(DelayByte(-1)) >> 4 == 31
  {
    assert DelayByte(-1) == 255;
  }

  // ---- BASIC field encoders ----

  /** BASIC0/1/2 X: a width less one in bits 27:16. */
  function ResolutionX(w: bv32): (r: bv32)
    ensures 1 <= w <= 0x1000 ==> (r >> 16) + 1 == w
    ensures r & !0x0fff_0000 == 0
  {
    ((w - 1) & 0xfff) << 16
  }

  /** BASIC0/1/2 Y, BASIC3 H_BACKPORCH and BASIC4 V_BACKPORCH: a count
      (a height or a porch) less one in bits 11:0. */
  function LowCount(n: bv32): (r: bv32)
    ensures 1 <= n <= 0x1000 ==> r + 1 == n
    ensures r & !0xfff == 0
  {
    (n - 1) & 0xfff
  }

  /** BASIC3 H_TOTAL: a total less one in bits 28:16. */
  function HTotal(t: bv32): (r: bv32)
    ensures 1 <= t <= 0x2000 ==> (r >> 16) + 1 == t
    ensures r & !0x1fff_0000 == 0
  {
    ((t - 1) & 0x1fff) << 16
  }

  /** BASIC4 V_TOTAL: the total itself in bits 28:16, without the decrement
      every other field applies. */
  function VTotal(t: bv32): (r: bv32)
    ensures t < 0x2000 ==> r >> 16 == t
    ensures r & !0x1fff_0000 == 0
  {
    (t & 0x1fff) << 16
  }

  /** BASIC5 H_SYNC: a width less one in bits 25:16. */
  function HSync(w: bv32): (r: bv32)
    ensures 1 <= w <= 0x400 ==> (r >> 16) + 1 == w
    ensures r & !0x03ff_0000 == 0
  {
    ((w - 1) & 0x3ff) << 16
  }

  /** BASIC5 V_SYNC: a height less one in bits 9:0. */
  function VSync(h: bv32): (r: bv32)
    ensures 1 <= h <= 0x400 ==> r + 1 == h
    ensures r & !0x3ff == 0
  {
    (h - 1) & 0x3ff
  }

  /** A word built from an upper-half field and a lower-half field gives
      each of them back. */
  lemma Halves(hi: bv32, lo: bv32)
    requires hi & 0xffff == 0 && lo & 0xffff_0000 == 0
    ensures (hi | lo) >> 16 == hi >> 16
    ensures (hi | lo) & 0xffff == lo
  {
  }

  // ---- tcon1_mode_set ----

  /** The vertical total BASIC4 receives: doubled for progressive modes,
      `vtotal` itself (not `crtc_vtotal`) for interlaced ones. */
  function VTotalLines(mode: Mode): bv32
  {
    if mode.interlaced then mode.vtotal else mode.vtotal * 2
  }

  /** The horizontal backporch `crtc_htotal - crtc_hsync_start`. */
  function HBackporchLen(mode: Mode): bv32
  {
    mode.crtcHtotal - mode.crtcHsyncStart
  }

  /** The vertical backporch `crtc_vtotal - crtc_vsync_start`. */
  function VBackporchLen(mode: Mode): bv32
  {
    mode.crtcVtotal - mode.crtcVsyncStart
  }

  /** The horizontal sync pulse width `crtc_hsync_end - crtc_hsync_start`. */
  function HSyncLen(mode: Mode): bv32
  {
    mode.crtcHsyncEnd - mode.crtcHsyncStart
  }

  /** The vertical sync length as the driver computes it,
      `crtc_vblank_end - crtc_vsync_start`: from the start of the sync
      pulse to the end of blanking. */
  function VSyncLen(mode: Mode): bv32
  {
    mode.crtcVblankEnd - mode.crtcVsyncStart
  }

  function Resolution(mode: Mode): bv32
  {
    ResolutionX(mode.crtcHdisplay) | LowCount(mode.crtcVdisplay)
  }

  /** TCON1_CTL after the clock-delay and interlace updates. */
  function CtlWord(cur: bv32, mode: Mode): bv32
  {
    var delayed := Merge(cur, CTL_CLK_DELAY_MASK, ClkDelayField(DelayByte(ClkDelay(mode, 1))));
    Merge(delayed, CTL_INTERLACE_ENABLE, if mode.interlaced then CTL_INTERLACE_ENABLE else 0)
  }

  /** Register file after the two TCON1_CTL updates. */
  function ControlSet(m: RegFile, mode: Mode): RegFile
  {
    m[TCON1_CTL := CtlWord(Get(m, TCON1_CTL), mode)]
  }

  /** Register file after the six BASIC writes. */
  function TimingsWritten(m: RegFile, mode: Mode, basic5: bv32): RegFile
  {
    m[BASIC0 := Resolution(mode)]
     [BASIC1 := Resolution(mode)]
     [BASIC2 := Resolution(mode)]
     [BASIC3 := HTotal(mode.crtcHtotal) | LowCount(HBackporchLen(mode))]
     [BASIC4 := VTotal(VTotalLines(mode)) | LowCount(VBackporchLen(mode))]
     [BASIC5 := basic5]
  }

  /** Register file after `sunh5_tcon1_mode_set`, given the word it stores
      in BASIC5. */
  function Tcon1Words(m: RegFile, mode: Mode, basic5: bv32): RegFile
  {
    var m2 := TimingsWritten(ControlSet(m, mode), mode, basic5);
    m2[GCTL := Merge(Get(m2, GCTL), GCTL_IOMAP_MASK, GCTL_IOMAP_TCON1)]
  }

  /** BASIC5 as the driver writes it: V_SYNC of the vertical total and
      H_SYNC of the vertical backporch, while the sync widths it computes
      just before are left unused. */
  function SyncAsWritten(mode: Mode): bv32
  {
    VSync(VTotalLines(mode)) | HSync(VBackporchLen(mode))
  }

  /** BASIC5 holding the horizontal and vertical sync lengths the driver
      computes. */
  function SyncWidths(mode: Mode): bv32
  {
    HSync(HSyncLen(mode)) | VSync(VSyncLen(mode))
  }

  function Tcon1AsWritten(m: RegFile, mode: Mode): RegFile
  {
    Tcon1Words(m, mode, SyncAsWritten(mode))
  }

  function Tcon1Corrected(m: RegFile, mode: Mode): RegFile
  {
    Tcon1Words(m, mode, SyncWidths(mode))
  }

  /** TCON1_CTL gets the clock delay in bits 8:4 and the interlace bit set
      exactly for interlaced modes; its other bits stay. GCTL routes the
      output pins to channel 1 and keeps its other bits. */
  lemma ModeSetControl(m: RegFile, mode: Mode, basic5: bv32)
    ensures var ctl := Get(Tcon1Words(m, mode, basic5), TCON1_CTL);
      && ctl & CTL_CLK_DELAY_MASK == ClkDelayField(DelayByte(ClkDelay(mode, 1)))
      && (ctl & CTL_INTERLACE_ENABLE != 0 <==> mode.interlaced)
      && ctl & !(CTL_CLK_DELAY_MASK | CTL_INTERLACE_ENABLE)
         == Get(m, TCON1_CTL) & !(CTL_CLK_DELAY_MASK | CTL_INTERLACE_ENABLE)
    ensures var gctl := Get(Tcon1Words(m, mode, basic5), GCTL);
      gctl & GCTL_IOMAP_MASK == GCTL_IOMAP_TCON1 && gctl & !GCTL_IOMAP_MASK == Get(m, GCTL) & !GCTL_IOMAP_MASK
  {
    var cur := Get(m, TCON1_CTL);
    var field := ClkDelayField(DelayByte(ClkDelay(mode, 1)));
    var il: bv32 := if mode.interlaced then CTL_INTERLACE_ENABLE else 0;
    assert Get(Tcon1Words(m, mode, basic5), TCON1_CTL) == CtlWord(cur, mode);
    CtlFields(cur, field, il);
  }

  lemma CtlFields(cur: bv32, field: bv32, il: bv32)
    requires field & !CTL_CLK_DELAY_MASK == 0
    requires il == 0 || il == CTL_INTERLACE_ENABLE
    ensures var ctl := Merge(Merge(cur, CTL_CLK_DELAY_MASK, field), CTL_INTERLACE_ENABLE, il);
      && ctl & CTL_CLK_DELAY_MASK == field
      && ctl & CTL_INTERLACE_ENABLE == il
      && ctl & !(CTL_CLK_DELAY_MASK | CTL_INTERLACE_ENABLE) == cur & !(CTL_CLK_DELAY_MASK | CTL_INTERLACE_ENABLE)
  {
  }

  /** A channel-1 mode with 0..30 lines of (adjusted) blanking has that
      many lines in the clock-delay field. */
  lemma ModeSetDelay(m: RegFile, mode: Mode, basic5: bv32)
    requires 0 <= Blanking(mode, 1)
    ensures ((Get(Tcon1Words(m, mode, basic5), TCON1_CTL) & CTL_CLK_DELAY_MASK) >> 4) as int == ClkDelay(mode, 1)
  {
    ModeSetControl(m, mode, basic5);
    DelayProgrammed(ClkDelay(mode, 1));
  }

  lemma ResolutionAt(m: RegFile, mode: Mode, basic5: bv32, o: int)
    requires o in {BASIC0, BASIC1, BASIC2}
    ensures Get(Tcon1Words(m, mode, basic5), o) == Resolution(mode)
  {
  }

  lemma HorizontalAt(m: RegFile, mode: Mode, basic5: bv32)
    ensures Get(Tcon1Words(m, mode, basic5), BASIC3) == HTotal(mode.crtcHtotal) | LowCount(HBackporchLen(mode))
  {
  }

  lemma VerticalAt(m: RegFile, mode: Mode, basic5: bv32)
    ensures Get(Tcon1Words(m, mode, basic5), BASIC4) == VTotal(VTotalLines(mode)) | LowCount(VBackporchLen(mode))
  {
  }

  lemma SyncAt(m: RegFile, mode: Mode, basic5: bv32)
    ensures Get(Tcon1Words(m, mode, basic5), BASIC5) == basic5
  {
  }

  /** A word of an upper field and a lower field, each holding a value
      less one, gives both values back. */
  lemma PairReadsBack(hi: bv32, lo: bv32, a: bv32, b: bv32)
    requires hi & 0xffff == 0 && lo & 0xffff_0000 == 0
    requires (hi >> 16) + 1 == a && lo + 1 == b
    ensures ((hi | lo) >> 16) + 1 == a && ((hi | lo) & 0xffff) + 1 == b
  {
    Halves(hi, lo);
  }

  /** BASIC0, BASIC1 and BASIC2 all hold the active width and height. */
  lemma ModeSetResolution(m: RegFile, mode: Mode, basic5: bv32, o: int)
    requires 1 <= mode.crtcHdisplay <= 0x1000 && 1 <= mode.crtcVdisplay <= 0x1000
    requires o in {BASIC0, BASIC1, BASIC2}
    ensures var w := Get(Tcon1Words(m, mode, basic5), o);
      (w >> 16) + 1 == mode.crtcHdisplay && (w & 0xffff) + 1 == mode.crtcVdisplay
  {
    ResolutionFields(mode);
    ResolutionAt(m, mode, basic5, o);
  }

  lemma ResolutionFields(mode: Mode)
    requires 1 <= mode.crtcHdisplay <= 0x1000 && 1 <= mode.crtcVdisplay <= 0x1000
    ensures var w := ResolutionX(mode.crtcHdisplay) | LowCount(mode.crtcVdisplay);
      (w >> 16) + 1 == mode.crtcHdisplay && (w & 0xffff) + 1 == mode.crtcVdisplay
  {
    PairReadsBack(ResolutionX(mode.crtcHdisplay), LowCount(mode.crtcVdisplay), mode.crtcHdisplay, mode.crtcVdisplay);
  }

  /** BASIC3 holds the horizontal total and the horizontal backporch. */
  lemma ModeSetHorizontal(m: RegFile, mode: Mode, basic5: bv32)
    requires 1 <= mode.crtcHtotal <= 0x2000 && 1 <= HBackporchLen(mode) <= 0x1000
    ensures var w := Get(Tcon1Words(m, mode, basic5), BASIC3);
      (w >> 16) + 1 == mode.crtcHtotal && (w & 0xffff) + 1 == HBackporchLen(mode)
  {
    HorizontalFields(mode);
    HorizontalAt(m, mode, basic5);
  }

  lemma HorizontalFields(mode: Mode)
    requires 1 <= mode.crtcHtotal <= 0x2000 && 1 <= HBackporchLen(mode) <= 0x1000
    ensures var w := HTotal(mode.crtcHtotal) | LowCount(HBackporchLen(mode));
      (w >> 16) + 1 == mode.crtcHtotal && (w & 0xffff) + 1 == HBackporchLen(mode)
  {
    PairReadsBack(HTotal(mode.crtcHtotal), LowCount(HBackporchLen(mode)), mode.crtcHtotal, HBackporchLen(mode));
  }

  /** BASIC4 holds the vertical total of VTotalLines, not decremented, and
      the vertical backporch. */
  lemma ModeSetVertical(m: RegFile, mode: Mode, basic5: bv32)
    requires VTotalLines(mode) < 0x2000 && 1 <= VBackporchLen(mode) <= 0x1000
    ensures var w := Get(Tcon1Words(m, mode, basic5), BASIC4);
      w >> 16 == VTotalLines(mode) && (w & 0xffff) + 1 == VBackporchLen(mode)
  {
    VerticalFields(mode);
    VerticalAt(m, mode, basic5);
  }

  lemma VerticalFields(mode: Mode)
    requires VTotalLines(mode) < 0x2000 && 1 <= VBackporchLen(mode) <= 0x1000
    ensures var w := VTotal(VTotalLines(mode)) | LowCount(VBackporchLen(mode));
      w >> 16 == VTotalLines(mode) && (w & 0xffff) + 1 == VBackporchLen(mode)
  {
    Halves(VTotal(VTotalLines(mode)), LowCount(VBackporchLen(mode)));
  }

  /** BASIC5 of the corrected mode set holds the two sync lengths. */
  lemma ModeSetSync(m: RegFile, mode: Mode)
    requires 1 <= HSyncLen(mode) <= 0x400 && 1 <= VSyncLen(mode) <= 0x400
    ensures var w := Get(Tcon1Corrected(m, mode), BASIC5);
      (w >> 16) + 1 == HSyncLen(mode) && (w & 0xffff) + 1 == VSyncLen(mode)
  {
    SyncFields(mode);
    SyncAt(m, mode, SyncWidths(mode));
  }

  lemma SyncFields(mode: Mode)
    requires 1 <= HSyncLen(mode) <= 0x400 && 1 <= VSyncLen(mode) <= 0x400
    ensures var w := HSync(HSyncLen(mode)) | VSync(VSyncLen(mode));
      (w >> 16) + 1 == HSyncLen(mode) && (w & 0xffff) + 1 == VSyncLen(mode)
  {
    PairReadsBack(HSync(HSyncLen(mode)), VSync(VSyncLen(mode)), HSyncLen(mode), VSyncLen(mode));
  }

  /** The mode set touches TCON1_CTL, BASIC0..5 and GCTL and no other word. */
  lemma ModeSetFrame(m: RegFile, mode: Mode, basic5: bv32, o: int)
    requires o !in {TCON1_CTL, BASIC0, BASIC1, BASIC2, BASIC3, BASIC4, BASIC5, GCTL}
    ensures Get(Tcon1Words(m, mode, basic5), o) == Get(m, o)
  {
  }

  /** As written, BASIC5 holds the low ten bits of the vertical total less
      one as V_SYNC and the vertical backporch as H_SYNC. */
  lemma AsWrittenSyncFields(m: RegFile, mode: Mode)
    ensures var w := Get(Tcon1AsWritten(m, mode), BASIC5);
      && w & 0xffff == (VTotalLines(mode) - 1) & 0x3ff
      && w >> 16 == (VBackporchLen(mode) - 1) & 0x3ff
  {
    Halves(HSync(VBackporchLen(mode)), VSync(VTotalLines(mode)));
  }

  /** CEA-861 1920x1080 at 60 Hz, progressive. */
  const Cea1080p: Mode := Mode(
    vtotal := 1125, vdisplay := 1080, interlaced := false, crtcClock := 148500,
    crtcHdisplay := 1920, crtcVdisplay := 1080,
    crtcHtotal := 2200, crtcHsyncStart := 2008, crtcHsyncEnd := 2052,
    crtcVtotal := 1125, crtcVsyncStart := 1084, crtcVblankEnd := 1125)

  /** For 1080p60 the as-written BASIC5 announces a 41-pixel horizontal
      sync (the vertical backporch) and a 202-line vertical sync (2250 in
      ten bits), where the lengths the driver computes are 44 and 41. */
  lemma AsWrittenMisprogramsSync(m: RegFile)
    ensures Get(Tcon1AsWritten(m, Cea1080p), BASIC5) == 0x0028_00c9
    ensures Get(Tcon1Corrected(m, Cea1080p), BASIC5) == 0x002b_0028
  {
    assert VTotalLines(Cea1080p) == 2250;
    assert VBackporchLen(Cea1080p) == 41;
  }

  /** The corrected mode set differs from the code only in BASIC5. */
  lemma CorrectedDiffersOnlyInSync(m: RegFile, mode: Mode, o: int)
    requires o != BASIC5
    ensures Get(Tcon1Corrected(m, mode), o) == Get(Tcon1AsWritten(m, mode), o)
  {
  }

  /** Encoder types `mode_set` programs channel 1 for. */
  predicate DrivesChannel1(enc: EncoderType)
  {
    enc == TvDac || enc == Tmds
  }

  /** Register file after `sunh5_tcon_mode_set`, as the code is written. */
  function ModeSetWords(m: RegFile, enc: EncoderType, mode: Mode): RegFile
  {
    if DrivesChannel1(enc) then Tcon1AsWritten(m, mode) else m
  }

  /** `sunh5_tcon1_mode_set`; `dotClock` is the rate requested from the
      channel-1 clock. */
  method Tcon1ModeSet(rm: RegMap, mode: Mode) returns (dotClock: int)
    modifies rm
    ensures dotClock == Signed(mode.crtcClock) * 1000
    ensures rm.regs == Tcon1AsWritten(old(rm.regs), mode)
  {
    dotClock := Signed(mode.crtcClock) * 1000;
    SetControl(rm, mode);
    WriteTimings(rm, mode, SyncAsWritten(mode));
    rm.UpdateBits(GCTL, GCTL_IOMAP_MASK, GCTL_IOMAP_TCON1);
  }

  method SetControl(rm: RegMap, mode: Mode)
    modifies rm
    ensures rm.regs == ControlSet(old(rm.regs), mode)
  {
    var field := ClkDelayField(DelayByte(ClkDelay(mode, 1)));
    rm.UpdateBits(TCON1_CTL, CTL_CLK_DELAY_MASK, field);
    var il: bv32 := if mode.interlaced then CTL_INTERLACE_ENABLE else 0;
    rm.UpdateBits(TCON1_CTL, CTL_INTERLACE_ENABLE, il);
    UpdatedTwice(old(rm.regs), TCON1_CTL, CTL_CLK_DELAY_MASK, field, CTL_INTERLACE_ENABLE, il);
  }

  method WriteTimings(rm: RegMap, mode: Mode, basic5: bv32)
    modifies rm
    ensures rm.regs == TimingsWritten(old(rm.regs), mode, basic5)
  {
    var res := Resolution(mode);
    var horizontal := HTotal(mode.crtcHtotal) | LowCount(HBackporchLen(mode));
    var vertical := VTotal(VTotalLines(mode)) | LowCount(VBackporchLen(mode));
    rm.Write(BASIC0, res);
    rm.Write(BASIC1, res);
    rm.Write(BASIC2, res);
    assert rm.regs == old(rm.regs)[BASIC0 := res][BASIC1 := res][BASIC2 := res];
    rm.Write(BASIC3, horizontal);
    rm.Write(BASIC4, vertical);
    rm.Write(BASIC5, basic5);
  }

  /** `sunh5_tcon_mode_set`: only TV-DAC and TMDS encoders are handled;
      any other type leaves the registers and the clock alone. */
  method ModeSet(rm: RegMap, enc: EncoderType, mode: Mode) returns (dotClock: Option<int>)
    modifies rm
    ensures dotClock == if DrivesChannel1(enc) then Some(Signed(mode.crtcClock) * 1000) else None
    ensures rm.regs == ModeSetWords(old(rm.regs), enc, mode)
  {
    if DrivesChannel1(enc) {
      var rate := Tcon1ModeSet(rm, mode);
      dotClock := Some(rate);
    } else {
      dotClock := None;
    }
  }

  // ---- set_status ----

  /** The channel `set_status` uses for an encoder type, or None for the
      types it rejects. */
  function ChannelOf(enc: EncoderType): Option<int>
  {
    match enc
    case Dsi | NoEncoder => Some(0)
    case Tmds | TvDac => Some(1)
    case _ => None
  }

  function EnableValue(enabled: bool, bit: bv32): bv32
  {
    if enabled then bit else 0
  }

  /** Register file after `sunh5_tcon_set_status`: the global enable bit
      follows `enabled` for every known type, the channel-1 enable bit only
      for channel 1. */
  function StatusSet(m: RegFile, enc: EncoderType, enabled: bool): RegFile
  {
    match ChannelOf(enc)
    case None => m
    case Some(ch) =>
      var m1 := m[GCTL := Merge(Get(m, GCTL), GCTL_TCON_ENABLE, EnableValue(enabled, GCTL_TCON_ENABLE))];
      if ch == 1 then
        m1[TCON1_CTL := Merge(Get(m1, TCON1_CTL), CTL_TCON_ENABLE, EnableValue(enabled, CTL_TCON_ENABLE))]
      else m1
  }

  /** An update of the bits `bit` to EnableValue sets them exactly when
      `enabled` and keeps the rest of the word. */
  lemma EnableMerge(cur: bv32, bit: bv32, enabled: bool)
    ensures var w := Merge(cur, bit, EnableValue(enabled, bit));
      w & bit == EnableValue(enabled, bit) && w & !bit == cur & !bit
  {
  }

  /** For every type `set_status` accepts, the TCON enable bit of GCTL
      follows `enabled` and the rest of GCTL stays. */
  lemma StatusGlobal(m: RegFile, enc: EncoderType, enabled: bool)
    requires ChannelOf(enc).Some?
    ensures var g := Get(StatusSet(m, enc, enabled), GCTL);
      (g & GCTL_TCON_ENABLE != 0 <==> enabled) && g & !GCTL_TCON_ENABLE == Get(m, GCTL) & !GCTL_TCON_ENABLE
  {
    var g := Merge(Get(m, GCTL), GCTL_TCON_ENABLE, EnableValue(enabled, GCTL_TCON_ENABLE));
    assert Get(StatusSet(m, enc, enabled), GCTL) == g;
    EnableMerge(Get(m, GCTL), GCTL_TCON_ENABLE, enabled);
  }

  /** Channel 1 sets its own enable bit in TCON1_CTL to `enabled` and keeps
      the other bits. */
  lemma StatusChannel1(m: RegFile, enc: EncoderType, enabled: bool)
    requires ChannelOf(enc) == Some(1)
    ensures var c := Get(StatusSet(m, enc, enabled), TCON1_CTL);
      (c & CTL_TCON_ENABLE != 0 <==> enabled) && c & !CTL_TCON_ENABLE == Get(m, TCON1_CTL) & !CTL_TCON_ENABLE
  {
    var c := Merge(Get(m, TCON1_CTL), CTL_TCON_ENABLE, EnableValue(enabled, CTL_TCON_ENABLE));
    assert Get(StatusSet(m, enc, enabled), TCON1_CTL) == c;
    EnableMerge(Get(m, TCON1_CTL), CTL_TCON_ENABLE, enabled);
  }

  /** Channel 0 and rejected types leave TCON1_CTL alone. */
  lemma StatusChannel0(m: RegFile, enc: EncoderType, enabled: bool)
    requires ChannelOf(enc) != Some(1)
    ensures Get(StatusSet(m, enc, enabled), TCON1_CTL) == Get(m, TCON1_CTL)
  {
  }

  /** Rejected types change nothing; accepted ones change only GCTL and
      TCON1_CTL. */
  lemma StatusFrame(m: RegFile, enc: EncoderType, enabled: bool, o: int)
    ensures ChannelOf(enc).None? ==> StatusSet(m, enc, enabled) == m
    ensures o != GCTL && o != TCON1_CTL ==> Get(StatusSet(m, enc, enabled), o) == Get(m, o)
  {
  }

  /** Only the last of two status changes shows: enabling then disabling
      is disabling. */
  lemma StatusLastWins(m: RegFile, enc: EncoderType, first: bool, second: bool)
    ensures StatusSet(StatusSet(m, enc, first), enc, second) == StatusSet(m, enc, second)
  {
    if ChannelOf(enc).Some? {
      EnableLastWins(Get(m, GCTL), first, second);
      EnableLastWins(Get(m, TCON1_CTL), first, second);
    }
  }

  /** A second write of the enable bit overrides the first. */
  lemma EnableLastWins(cur: bv32, first: bool, second: bool)
    ensures Merge(Merge(cur, GCTL_TCON_ENABLE, EnableValue(first, GCTL_TCON_ENABLE)), GCTL_TCON_ENABLE, EnableValue(second, GCTL_TCON_ENABLE))
      == Merge(cur, GCTL_TCON_ENABLE, EnableValue(second, GCTL_TCON_ENABLE))
    ensures Merge(Merge(cur, CTL_TCON_ENABLE, EnableValue(first, CTL_TCON_ENABLE)), CTL_TCON_ENABLE, EnableValue(second, CTL_TCON_ENABLE))
      == Merge(cur, CTL_TCON_ENABLE, EnableValue(second, CTL_TCON_ENABLE))
  {
  }

  /** `sunh5_tcon_channel_set_status`. Channel 1 switches its enable bit
      and its clock (`clock` is Some(enabled): prepared, enabled and its
      rate held, or released and disabled); any other channel is refused
      with nothing done. */
  method ChannelSetStatus(rm: RegMap, channel: int, enabled: bool) returns (clock: Option<bool>)
    modifies rm
    ensures channel == 1 ==>
      && clock == Some(enabled)
      && rm.regs == old(rm.regs)[TCON1_CTL := Merge(Get(old(rm.regs), TCON1_CTL), CTL_TCON_ENABLE, EnableValue(enabled, CTL_TCON_ENABLE))]
    ensures channel != 1 ==> clock == None && rm.regs == old(rm.regs)
  {
    if channel == 1 {
      rm.UpdateBits(TCON1_CTL, CTL_TCON_ENABLE, EnableValue(enabled, CTL_TCON_ENABLE));
      clock := Some(enabled);
    } else {
      clock := None;
    }
  }

  /** `sunh5_tcon_set_status`. */
  method SetStatus(rm: RegMap, enc: EncoderType, enabled: bool) returns (clock: Option<bool>)
    modifies rm
    ensures clock == if ChannelOf(enc) == Some(1) then Some(enabled) else None
    ensures rm.regs == StatusSet(old(rm.regs), enc, enabled)
  {
    var channel := ChannelOf(enc);
    if channel.None? {
      return None;
    }
    rm.UpdateBits(GCTL, GCTL_TCON_ENABLE, EnableValue(enabled, GCTL_TCON_ENABLE));
    clock := ChannelSetStatus(rm, channel.value, enabled);
  }

  // ---- enable_vblank ----

  /** Register file after `sunh5_tcon_enable_vblank`. */
  function VblankSet(m: RegFile, enable: bool): RegFile
  {
    m[GINT0 := Merge(Get(m, GINT0), VBLANK_ENABLES, EnableValue(enable, VBLANK_ENABLES))]
  }

  /** The three enables are all set or all clear as `enable` says, and the
      rest of GINT0 stays. */
  lemma VblankBits(m: RegFile, enable: bool)
    ensures Get(VblankSet(m, enable), GINT0) & VBLANK_ENABLES == EnableValue(enable, VBLANK_ENABLES)
    ensures Get(VblankSet(m, enable), GINT0) & !VBLANK_ENABLES == Get(m, GINT0) & !VBLANK_ENABLES
  {
    var w := Get(m, GINT0);
    assert Get(VblankSet(m, enable), GINT0) == Merge(w, VBLANK_ENABLES, EnableValue(enable, VBLANK_ENABLES));
    EnableMerge(w, VBLANK_ENABLES, enable);
  }

  /** In particular the pending status bits survive a vblank switch. */
  lemma VblankKeepsStatus(m: RegFile, enable: bool)
    ensures Get(VblankSet(m, enable), GINT0) & VBLANK_STATUS == Get(m, GINT0) & VBLANK_STATUS
  {
    VblankBits(m, enable);
    StatusOutsideEnables(Get(m, GINT0), Get(VblankSet(m, enable), GINT0));
  }

  /** Only GINT0 changes. */
  lemma VblankFrame(m: RegFile, enable: bool, o: int)
    requires o != GINT0
    ensures Get(VblankSet(m, enable), o) == Get(m, o)
  {
  }

  lemma StatusOutsideEnables(w: bv32, w': bv32)
    requires w' & !VBLANK_ENABLES == w & !VBLANK_ENABLES
    ensures w' & VBLANK_STATUS == w & VBLANK_STATUS
  {
    assert VBLANK_STATUS & VBLANK_ENABLES == 0;
  }

  /** `sunh5_tcon_enable_vblank`. */
  method EnableVblank(rm: RegMap, enable: bool)
    modifies rm
    ensures rm.regs == VblankSet(old(rm.regs), enable)
  {
    rm.UpdateBits(GINT0, VBLANK_ENABLES, EnableValue(enable, VBLANK_ENABLES));
  }

  // ---- init_regmap reset ----

  /** Register file after the writes `sunh5_tcon_init_regmap` makes once the
      regmap exists. */
  function ResetWords(m: RegFile): RegFile
  {
    m[GCTL := 0][GINT0 := 0][GINT1 := 0][TCON0_IO_TRI := 0xffff_ffff][TCON1_IO_TRI := 0xffff_ffff]
  }

  /** After the reset the TCON is disabled, no interrupt is enabled or
      pending (so the handler would decline), and both channels' output
      pins are tri-stated. */
  lemma ResetQuiesces(m: RegFile)
    ensures Get(ResetWords(m), GCTL) & GCTL_TCON_ENABLE == 0
    ensures Get(ResetWords(m), GINT0) & VBLANK_ENABLES == 0
    ensures !Pending(Get(ResetWords(m), GINT0))
    ensures Get(ResetWords(m), TCON0_IO_TRI) == Get(ResetWords(m), TCON1_IO_TRI) == 0xffff_ffff
  {
  }

  /** The register writes of `sunh5_tcon_init_regmap`. */
  method Reset(rm: RegMap)
    modifies rm
    ensures rm.regs == ResetWords(old(rm.regs))
  {
    rm.Write(GCTL, 0);
    rm.Write(GINT0, 0);
    rm.Write(GINT1, 0);
    rm.Write(TCON0_IO_TRI, 0xffff_ffff);
    rm.Write(TCON1_IO_TRI, 0xffff_ffff);
  }

  // ---- interrupt handler ----

  datatype IrqReturn = IrqNone | IrqHandled

  /** Whether a GINT0 status word reports one of the handled interrupts. */
  predicate Pending(status: bv32)
  {
    status & VBLANK_STATUS != 0
  }

  /** Register file after the handler acknowledges the interrupt. */
  function Acked(m: RegFile): RegFile
  {
    m[GINT0 := Merge(Get(m, GINT0), VBLANK_STATUS, 0)]
  }

  /** The acknowledgement clears exactly the three status bits, leaves the
      enables and the other words, and leaves nothing pending, so a second
      interrupt with no new status is declined. */
  lemma AckClearsStatus(m: RegFile, o: int)
    ensures Get(Acked(m), GINT0) & VBLANK_STATUS == 0
    ensures Get(Acked(m), GINT0) & !VBLANK_STATUS == Get(m, GINT0) & !VBLANK_STATUS
    ensures !Pending(Get(Acked(m), GINT0))
    ensures o != GINT0 ==> Get(Acked(m), o) == Get(m, o)
  {
  }

  /** The events after `sunh5_tcon_finish_page_flip`: a held event is sent
      and its vblank reference dropped, and the slot is emptied. */
  function PageFlipFinished(e: Events): Events
  {
    if e.slot.Some? then e.(sent := e.sent + [e.slot.value], refs := e.refs - 1, slot := None) else e
  }

  /** The held event, and only it, is delivered once; a second call finds
      the slot empty and does nothing; no event is lost or duplicated. */
  lemma PageFlipDelivers(e: Events)
    ensures e.slot.Some? ==> PageFlipFinished(e).sent == e.sent + [e.slot.value]
    ensures e.slot.Some? ==> PageFlipFinished(e).refs == e.refs - 1
    ensures PageFlipFinished(e).slot.None?
    ensures e.slot.None? ==> PageFlipFinished(e) == e
    ensures PageFlipFinished(PageFlipFinished(e)) == PageFlipFinished(e)
    ensures Held(PageFlipFinished(e)) == Held(e)
  {
  }

  /** `sunh5_tcon_finish_page_flip`. */
  method FinishPageFlip(c: Crtc)
    modifies c
    ensures c.events == PageFlipFinished(old(c.events))
  {
    if c.events.slot.Some? {
      var ev := c.events.slot.value;
      c.events := c.events.(sent := c.events.sent + [ev]);
      c.events := c.events.(refs := c.events.refs - 1);
      c.events := c.events.(slot := None);
    }
  }

  /** `sunh5_tcon_handler`. The vblank count kept by `drm_crtc_handle_vblank`
      is not modelled. */
  method Handler(rm: RegMap, c: Crtc) returns (r: IrqReturn)
    modifies rm, c
    ensures Pending(Get(old(rm.regs), GINT0)) ==>
      r == IrqHandled && rm.regs == Acked(old(rm.regs)) && c.events == PageFlipFinished(old(c.events))
    ensures !Pending(Get(old(rm.regs), GINT0)) ==>
      r == IrqNone && rm.regs == old(rm.regs) && c.events == old(c.events)
  {
    var status := rm.Read(GINT0);
    if !Pending(status) {
      return IrqNone;
    }
    FinishPageFlip(c);
    rm.UpdateBits(GINT0, VBLANK_STATUS, 0);
    r := IrqHandled;
  }
}
