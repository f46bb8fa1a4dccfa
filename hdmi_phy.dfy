// The H3/H5 HDMI PHY (sunh5_hdmi_phy.c): sync polarity, the frequency band
// settings and their programming, the PLL's B value, the resistor
// calibration read at init, the disable sequence and the choice of PHY
// operations.
module HdmiPhy {
  import opened Regs
  import opened Wrappers
  import opened Errno
  import opened HdmiPhyRegs
  import PhyClk

  // ---- the PHY and its variant ----

  /** `struct sunh5_hdmi_phy_variant`, without its operation pointers (the
      only variant, H3, uses the `_h3` functions below). */
  datatype Variant = Variant(hasPhyClk: bool, hasSecondPll: bool, isCustomPhy: bool)

  /** `sunh5_h3_hdmi_phy`; `has_second_pll` is left zero. */
  const H3: Variant := Variant(hasPhyClk := true, hasSecondPll := false, isCustomPhy := true)

  /** The driver state of the PHY that its operations update. */
  class Phy {
    var rcal: bv32
    const variant: Variant

    constructor (variant: Variant)
      ensures this.variant == variant && rcal == 0
    {
      this.variant := variant;
      rcal := 0;
    }
  }

  /** What `sunh5_hdmi_phy_set_ops` hands to the DesignWare core: the
      custom PHY operations, or the variant's tables for the built-in PHY. */
  datatype PhyOps = CustomOps | BuiltinTables

  function SetOps(v: Variant): (r: PhyOps)
    ensures r == CustomOps <==> v.isCustomPhy
  {
    if v.isCustomPhy then CustomOps else BuiltinTables
  }

  // ---- polarity (phy_config) ----

  /** DRM_MODE_FLAG_NHSYNC and DRM_MODE_FLAG_NVSYNC of the DRM mode flags. */
  const FLAG_NHSYNC: bv32 := 0x2
  const FLAG_NVSYNC: bv32 := 0x8

  function PolarityBits(flags: bv32): bv32
  {
    (if flags & FLAG_NHSYNC != 0 then POL_NHSYNC else 0) | (if flags & FLAG_NVSYNC != 0 then POL_NVSYNC else 0)
  }

  /** The DBG_CTRL word after the polarity update. */
  function PolarityWord(w: bv32, flags: bv32): bv32
  {
    Merge(w, POL_MASK, PolarityBits(flags))
  }

  /** Bit 8 is set exactly for a negative hsync and bit 9 exactly for a
      negative vsync; the rest of bits 15:8 is cleared, the other bits kept. */
  lemma PolarityFields(w: bv32, flags: bv32)
    ensures PolarityWord(w, flags) & POL_NHSYNC != 0 <==> flags & FLAG_NHSYNC != 0
    ensures PolarityWord(w, flags) & POL_NVSYNC != 0 <==> flags & FLAG_NVSYNC != 0
    ensures PolarityWord(w, flags) & 0xfc00 == 0
    ensures PolarityWord(w, flags) & !POL_MASK == w & !POL_MASK
  {
    var p := PolarityBits(flags);
    assert PolarityWord(w, flags) & POL_MASK == p;
    assert p & 0xfc00 == 0;
  }

  /** The clock rate `phy_config` asks for: crtc_clock·1000 in C `int`,
      passed on as `unsigned int`. */
  function ClkRate(crtcClock: int): (r: nat)
    ensures r < 0x1_0000_0000
  {
    (crtcClock * 1000) % 0x1_0000_0000
  }

  // ---- the frequency bands (config_h3) ----

  /** The words `sunh5_hdmi_phy_config_h3` programs and the B offset. */
  datatype Settings = Settings(pll1: bv32, pll2: bv32, ana1: bv32, ana2: bv32, ana3: bv32, bOffset: bv32)

  const PLL1_BASE: bv32 := (1 << 29) | (1 << 28) | (7 << 22) | (1 << 20) | (1 << 19) | (1 << 18) | (2 << 13) | (63 << 7) | (1 << 6)
  const PLL2_BASE: bv32 := (1 << 31) | (1 << 19) | (1 << 9)
  /** SVBH(1), bits 23:8, ENP2S of the three data lanes and bits 3:0; the
      clock lane's serializer enable (bit 7) is not in the list. */
  const ANA1_BASE: bv32 := (1 << 24) | 0xff_0000 | 0xff00 | 0x70 | 0xf
  const ANA2_BASE: bv32 := (1 << 31) | (1 << 22) | (1 << 21) | (1 << 17) | (1 << 13)
  const ANA3_BASE: bv32 := (0x3e0 << 18) | (1 << 2) | 1

  const HV_IS_33: bv32 := 1 << 27
  const CALSW: bv32 := 1 << 28
  const BIGSW: bv32 := (1 << 16) | (1 << 15)

  /** The four bands by pixel clock: up to 27 MHz, 74.25 MHz, 148.5 MHz,
      and above. */
  function Band(clkRate: nat): (b: nat)
    ensures b < 4
  {
    if clkRate <= 27_000_000 then 0
    else if clkRate <= 74_250_000 then 1
    else if clkRate <= 148_500_000 then 2
    else 3
  }

  function Settings0(rcal: bv32): Settings
  {
    Settings(PLL1_BASE | HV_IS_33 | (32 << 7), PLL2_BASE | (4 << 12) | (4 << 6), ANA1_BASE | CALSW,
             ANA2_BASE | (4 << 10) | rcal, ANA3_BASE | (3 << 14) | (5 << 7), 0)
  }

  function Settings1(rcal: bv32): Settings
  {
    Settings(PLL1_BASE | HV_IS_33 | (32 << 7), PLL2_BASE | (4 << 12) | (5 << 6), ANA1_BASE | CALSW,
             ANA2_BASE | (4 << 10) | rcal, ANA3_BASE | (5 << 14) | (7 << 7), 0)
  }

  const SETTINGS2: Settings :=
    Settings(PLL1_BASE | HV_IS_33 | (32 << 7), PLL2_BASE | (4 << 12) | (6 << 6), ANA1_BASE,
             ANA2_BASE | BIGSW | (2 << 10), ANA3_BASE | (7 << 14) | (9 << 7), 0)

  const SETTINGS3: Settings :=
    Settings(PLL1_BASE | (63 << 7), PLL2_BASE | (6 << 12) | (7 << 6), ANA1_BASE,
             ANA2_BASE | BIGSW | (4 << 10), ANA3_BASE | (9 << 14) | (13 << 7) | (3 << 4), 2)

  /** The band settings for a pixel clock and calibration value; only
      the top band adds 2 to the B value. */
  function H3Settings(clkRate: nat, rcal: bv32): (s: Settings)
    ensures s.bOffset == if Band(clkRate) == 3 then 2 else 0
  {
    match Band(clkRate)
    case 0 => Settings0(rcal)
    case 1 => Settings1(rcal)
    case 2 => SETTINGS2
    case _ => SETTINGS3
  }

  // Fields of the band words.
  function SField(pll2: bv32): bv32 { (pll2 >> 6) & 0x7 }
  function VcoSField(pll2: bv32): bv32 { (pll2 >> 12) & 0xf }
  function CntIntField(pll1: bv32): bv32 { (pll1 >> 7) & 0x3f }
  function AmpCkField(ana3: bv32): bv32 { (ana3 >> 14) & 0xf }
  function AmpField(ana3: bv32): bv32 { (ana3 >> 7) & 0x7f }
  function EmpField(ana3: bv32): bv32 { (ana3 >> 4) & 0x7 }
  function SlvField(ana2: bv32): bv32 { (ana2 >> 10) & 0x7 }
  function ResdiField(ana2: bv32): bv32 { ana2 & 0x3ff }

  /** The band table: S, VCO_S, AMPCK, AMP and EMP of each band. */
  lemma BandTable(clkRate: nat, rcal: bv32)
    ensures var s := H3Settings(clkRate, rcal);
      && SField(s.pll2) == [4, 5, 6, 7][Band(clkRate)]
      && VcoSField(s.pll2) == (if Band(clkRate) == 3 then 6 else 4)
      && AmpCkField(s.ana3) == [3, 5, 7, 9][Band(clkRate)]
      && AmpField(s.ana3) == [5, 7, 9, 13][Band(clkRate)]
      && EmpField(s.ana3) == (if Band(clkRate) == 3 then 3 else 0)
  {
    match Band(clkRate)
    case 0 => Band0Fields(rcal);
    case 1 => Band1Fields(rcal);
    case 2 =>
    case _ =>
  }

  lemma Band0Fields(rcal: bv32)
    ensures SField(Settings0(rcal).pll2) == 4 && VcoSField(Settings0(rcal).pll2) == 4
    ensures AmpCkField(Settings0(rcal).ana3) == 3 && AmpField(Settings0(rcal).ana3) == 5
    ensures EmpField(Settings0(rcal).ana3) == 0
  {
  }

  lemma Band1Fields(rcal: bv32)
    ensures SField(Settings1(rcal).pll2) == 5 && VcoSField(Settings1(rcal).pll2) == 4
    ensures AmpCkField(Settings1(rcal).ana3) == 5 && AmpField(Settings1(rcal).ana3) == 7
    ensures EmpField(Settings1(rcal).ana3) == 0
  {
  }

  /** The switches: the 3.3 V flag below 148.5 MHz, calibration switch up to
      74.25 MHz, the big swing above it, and B offset 2 only in the top
      band. The CNT_INT field is 63 in every band: the base value already
      holds all six bits, so the lower bands' CNT_INT(32) adds nothing. */
  lemma BandSwitches(clkRate: nat, rcal: bv32)
    requires rcal < 16
    ensures var s := H3Settings(clkRate, rcal);
      && CntIntField(s.pll1) == 63
      && (s.pll1 & HV_IS_33 != 0 <==> Band(clkRate) < 3)
      && (s.ana1 & CALSW != 0 <==> Band(clkRate) < 2)
      && (s.ana2 & BIGSW == BIGSW <==> Band(clkRate) >= 2)
      && (s.ana2 & BIGSW == 0 <==> Band(clkRate) < 2)
      && (s.bOffset == 2 <==> Band(clkRate) == 3)
      && (s.bOffset == 0 <==> Band(clkRate) < 3)
  {
    match Band(clkRate)
    case 0 => LowBandSwitches(rcal);
    case 1 => LowBandSwitches(rcal);
    case 2 =>
    case _ =>
  }

  /** The final ANA_CFG1 word turns all four transmitters and the bias,
      calibration and data serializer enables back on; bit 7, the TMDS clock
      serializer enable set by init, ends cleared in every band. */
  lemma Ana1End(clkRate: nat, rcal: bv32)
    ensures var a := H3Settings(clkRate, rcal).ana1;
      && a & TXEN_MASK == TXEN_MASK
      && a & (BIASEN_ALL | ENP2S_DATA | TMDSCLK_EN | ENCALOG | ENRCAL) == BIASEN_ALL | ENP2S_DATA | TMDSCLK_EN | ENCALOG | ENRCAL
      && a & ENP2S_TMDSCLK == 0
      && a & !CALSW == 0x01ff_ff7f
  {
    if Band(clkRate) < 2 {
      assert (ANA1_BASE | CALSW) & !CALSW == 0x01ff_ff7f;
    }
  }

  lemma LowBandSwitches(rcal: bv32)
    requires rcal < 16
    ensures CntIntField(Settings0(rcal).pll1) == 63 && CntIntField(Settings1(rcal).pll1) == 63
    ensures Settings0(rcal).pll1 & HV_IS_33 != 0 && Settings1(rcal).pll1 & HV_IS_33 != 0
    ensures Settings0(rcal).ana1 & CALSW != 0 && Settings1(rcal).ana1 & CALSW != 0
    ensures Settings0(rcal).ana2 & BIGSW == 0 && Settings1(rcal).ana2 & BIGSW == 0
  {
  }

  /** In the two lower bands the resistor calibration goes into RESDI
      unchanged, with SLV 4; the upper bands leave RESDI 0. */
  lemma CalibrationUsed(clkRate: nat, rcal: bv32)
    requires rcal < 16
    ensures Band(clkRate) < 2 ==> ResdiField(H3Settings(clkRate, rcal).ana2) == rcal
    ensures Band(clkRate) >= 2 ==> ResdiField(H3Settings(clkRate, rcal).ana2) == 0
    ensures SlvField(H3Settings(clkRate, rcal).ana2) == (if Band(clkRate) == 2 then 2 else 4)
  {
    if Band(clkRate) == 0 {
      ResdiLow(rcal);
    } else if Band(clkRate) == 1 {
      ResdiLow(rcal);
    }
  }

  lemma ResdiLow(rcal: bv32)
    requires rcal < 16
    ensures ResdiField(Settings0(rcal).ana2) == rcal && SlvField(Settings0(rcal).ana2) == 4
    ensures ResdiField(Settings1(rcal).ana2) == rcal && SlvField(Settings1(rcal).ana2) == 4
  {
  }

  // ---- the B value ----

  /** The B value read from ANA_STS plus the band's offset, clamped to 0x3f. */
  function BValue(status: bv32, bOffset: bv32): bv32
    requires bOffset <= 2
  {
    var raw := (status & B_OUT_MSK) >> B_OUT_SHIFT;
    if raw + bOffset < 0x3f then raw + bOffset else 0x3f
  }

  lemma BClamp(status: bv32, bOffset: bv32)
    requires bOffset <= 2
    ensures BValue(status, bOffset) <= 0x3f
    ensures var raw := (status & B_OUT_MSK) >> B_OUT_SHIFT;
      raw <= 0x3f
      && (raw as int + bOffset as int <= 0x3f ==> BValue(status, bOffset) as int == raw as int + bOffset as int)
      && (raw as int + bOffset as int > 0x3f ==> BValue(status, bOffset) == 0x3f)
  {
  }

  // ---- programming the PLL (config_h3) ----

  const PLLEN: bv32 := 1 << 25
  const OD_BITS: bv32 := (1 << 31) | (1 << 30)
  const SOUT_DIV2: bv32 := 1
  const TXEN_MASK: bv32 := 0xf000

  /** PLL_CFG1 after its four updates: the band word around the clock
      select, the PLL enable, the output dividers and the B input. */
  function PllWord(cur: bv32, init: bv32, b: bv32): bv32
  {
    Merge(Merge(Merge(Merge(cur, !CKIN_SEL_MSK, init), PLLEN, PLLEN), OD_BITS, OD_BITS), B_IN_MSK, b)
  }

  /** The PLL_CFG1 updates keep the clock select (the parent chosen through
      the PHY clock), set PLLEN and both output dividers, put B in bits
      5:0, and take every other bit from the band word. */
  lemma PllWordFields(cur: bv32, init: bv32, b: bv32)
    requires b <= 0x3f
    ensures PllWord(cur, init, b) & CKIN_SEL_MSK == cur & CKIN_SEL_MSK
    ensures PllWord(cur, init, b) & B_IN_MSK == b
    ensures PllWord(cur, init, b) & (PLLEN | OD_BITS) == PLLEN | OD_BITS
    ensures PllWord(cur, init, b) & !(CKIN_SEL_MSK | PLLEN | OD_BITS | B_IN_MSK)
            == init & !(CKIN_SEL_MSK | PLLEN | OD_BITS | B_IN_MSK)
  {
  }

  /** The registers after the first half of `config_h3`: transmitters off,
      the PLL words, the output divider, and the PLL on. */
  function PllStarted(m: RegFile, s: Settings): RegFile
  {
    var m1 := m[ANA_CFG1 := Merge(Get(m, ANA_CFG1), TXEN_MASK, 0)];
    var m2 := m1[PLL_CFG1 := Merge(Get(m1, PLL_CFG1), !CKIN_SEL_MSK, s.pll1)];
    var m3 := m2[PLL_CFG2 := Merge(Get(m2, PLL_CFG2), !PREDIV_MSK, s.pll2)];
    var m4 := m3[PLL_CFG3 := SOUT_DIV2];
    m4[PLL_CFG1 := Merge(Get(m4, PLL_CFG1), PLLEN, PLLEN)]
  }

  /** The registers after the second half: the output dividers and B in
      PLL_CFG1, then the three analog words. */
  function PllFinished(m: RegFile, s: Settings, b: bv32): RegFile
  {
    var m1 := m[PLL_CFG1 := Merge(Get(m, PLL_CFG1), OD_BITS, OD_BITS)];
    var m2 := m1[PLL_CFG1 := Merge(Get(m1, PLL_CFG1), B_IN_MSK, b)];
    m2[ANA_CFG1 := s.ana1][ANA_CFG2 := s.ana2][ANA_CFG3 := s.ana3]
  }

  /** The registers after `sunh5_hdmi_phy_config_h3`; the status register
      is read between the halves. */
  function H3Configured(m: RegFile, s: Settings): RegFile
    requires s.bOffset <= 2
  {
    var m1 := PllStarted(m, s);
    PllFinished(m1, s, BValue(Get(m1, ANA_STS), s.bOffset))
  }

  lemma PllCfg1At(m: RegFile, s: Settings)
    requires s.bOffset <= 2
    ensures Get(H3Configured(m, s), PLL_CFG1) == PllWord(Get(m, PLL_CFG1), s.pll1, BValue(Get(m, ANA_STS), s.bOffset))
  {
  }

  lemma OthersAt(m: RegFile, s: Settings)
    requires s.bOffset <= 2
    ensures Get(H3Configured(m, s), PLL_CFG2) == Merge(Get(m, PLL_CFG2), !PREDIV_MSK, s.pll2)
    ensures Get(H3Configured(m, s), PLL_CFG3) == SOUT_DIV2
    ensures Get(H3Configured(m, s), ANA_CFG1) == s.ana1
    ensures Get(H3Configured(m, s), ANA_CFG2) == s.ana2
    ensures Get(H3Configured(m, s), ANA_CFG3) == s.ana3
    ensures forall o :: o !in {PLL_CFG1, PLL_CFG2, PLL_CFG3, ANA_CFG1, ANA_CFG2, ANA_CFG3} ==> Get(H3Configured(m, s), o) == Get(m, o)
  {
  }

  /** `config_h3` leaves the clock select and the pre-divider where the PHY
      clock put them, loads the clamped B value, and ends with the band's
      analog words. */
  lemma ConfigKeepsClock(m: RegFile, clkRate: nat, rcal: bv32)
    ensures var s := H3Settings(clkRate, rcal);
      && Get(H3Configured(m, s), PLL_CFG1) & CKIN_SEL_MSK == Get(m, PLL_CFG1) & CKIN_SEL_MSK
      && Get(H3Configured(m, s), PLL_CFG1) & B_IN_MSK == BValue(Get(m, ANA_STS), s.bOffset)
      && Get(H3Configured(m, s), PLL_CFG2) & PREDIV_MSK == Get(m, PLL_CFG2) & PREDIV_MSK
      && Get(H3Configured(m, s), ANA_CFG1) == s.ana1
  {
    var s := H3Settings(clkRate, rcal);
    PllCfg1At(m, s);
    OthersAt(m, s);
    var b := BValue(Get(m, ANA_STS), s.bOffset);
    BClamp(Get(m, ANA_STS), s.bOffset);
    PllWordFields(Get(m, PLL_CFG1), s.pll1, b);
    MergeKeepsComplement(Get(m, PLL_CFG2), PREDIV_MSK, s.pll2);
  }

  lemma MergeKeepsComplement(cur: bv32, k: bv32, v: bv32)
    ensures Merge(cur, !k, v) & k == cur & k
  {
    assert !!k == k;
  }

  method StartPll(rm: RegMap, s: Settings)
    modifies rm
    ensures rm.regs == PllStarted(old(rm.regs), s)
  {
    rm.UpdateBits(ANA_CFG1, TXEN_MASK, 0);
    rm.UpdateBits(PLL_CFG1, !CKIN_SEL_MSK, s.pll1);
    rm.UpdateBits(PLL_CFG2, !PREDIV_MSK, s.pll2);
    rm.Write(PLL_CFG3, SOUT_DIV2);
    rm.UpdateBits(PLL_CFG1, PLLEN, PLLEN);
  }

  method FinishPll(rm: RegMap, s: Settings, b: bv32)
    modifies rm
    ensures rm.regs == PllFinished(old(rm.regs), s, b)
  {
    rm.UpdateBits(PLL_CFG1, OD_BITS, OD_BITS);
    rm.UpdateBits(PLL_CFG1, B_IN_MSK, b);
    rm.Write(ANA_CFG1, s.ana1);
    rm.Write(ANA_CFG2, s.ana2);
    rm.Write(ANA_CFG3, s.ana3);
  }

  /** `sunh5_hdmi_phy_config_h3` (the sleeps are not modelled). */
  method ConfigH3(rm: RegMap, phy: Phy, clkRate: nat) returns (r: int)
    modifies rm
    ensures r == 0
    ensures rm.regs == H3Configured(old(rm.regs), H3Settings(clkRate, phy.rcal))
  {
    var s := H3Settings(clkRate, phy.rcal);
    StartPll(rm, s);
    var status := rm.Read(ANA_STS);
    var b := BValue(status, s.bOffset);
    FinishPll(rm, s, b);
    r := 0;
  }

  /** What the clock framework does to the PHY clock inside `clk_set_rate`:
      nothing when the rate is already in place; otherwise `set_parent`
      when it moves the clock to another parent (the framework does not
      look at its answer), then `set_rate` with the rate it settled on and
      that parent's rate. These choices come from `determine_rate` and the
      parent PLLs, which lie outside this register file. */
  datatype RateChange = Unchanged | Changed(parent: Option<bv8>, rate: nat, parentRate: nat)

  /** The PHY registers after the PHY clock's operations for `c`. */
  function ClockSet(m: RegFile, c: RateChange): RegFile
  {
    match c
    case Unchanged => m
    case Changed(parent, rate, parentRate) =>
      var m1 := if parent.Some? && PhyClk.ParentSet(m, parent.value).Ok? then PhyClk.ParentSet(m, parent.value).value else m;
      BitsUpdated(m1, PLL_CFG2, PREDIV_MSK, PhyClk.Prediv(PhyClk.BestDivider(parentRate, rate)))
  }

  /** The PHY clock's side of `clk_set_rate`. */
  method SetClockRate(rm: RegMap, c: RateChange)
    modifies rm
    ensures rm.regs == ClockSet(old(rm.regs), c)
  {
    if c.Changed? {
      if c.parent.Some? {
        var _ := PhyClk.SetParent(rm, c.parent.value);
      }
      var _ := PhyClk.SetRate(rm, c.rate, c.parentRate);
    }
  }

  /** Register file after `sunh5_hdmi_phy_config`: the polarity bits, then
      the PHY clock's rate change when the variant has that clock, then
      `config_h3`. */
  function Configured(m: RegFile, variant: Variant, flags: bv32, crtcClock: int, rcal: bv32, c: RateChange): RegFile
  {
    var m1 := m[DBG_CTRL := PolarityWord(Get(m, DBG_CTRL), flags)];
    var m2 := if variant.hasPhyClk then ClockSet(m1, c) else m1;
    H3Configured(m2, H3Settings(ClkRate(crtcClock), rcal))
  }

  /** `sunh5_hdmi_phy_config`: set the sync polarity, ask the PHY clock for
      the pixel rate when the variant has one (the rate asked is returned;
      `c` is what the clock framework then does), and program the PLL for
      that rate. */
  method Config(rm: RegMap, phy: Phy, flags: bv32, crtcClock: int, c: RateChange) returns (phyClkRate: Option<int>, r: int)
    modifies rm
    ensures phyClkRate.Some? <==> phy.variant.hasPhyClk
    ensures phyClkRate.Some? ==> phyClkRate.value == crtcClock * 1000
    ensures r == 0
    ensures rm.regs == Configured(old(rm.regs), phy.variant, flags, crtcClock, phy.rcal, c)
  {
    rm.UpdateBits(DBG_CTRL, POL_MASK, PolarityBits(flags));
    if phy.variant.hasPhyClk {
      phyClkRate := Some(crtcClock * 1000);
      SetClockRate(rm, c);
    } else {
      phyClkRate := None;
    }
    r := ConfigH3(rm, phy, ClkRate(crtcClock));
  }

  /** After `phy_config` on a variant with a PHY clock, the pre-divider
      holds the divider `set_rate` picked, so `recalc_rate` reads back the
      parent rate over it, and the clock input is the parent the framework
      chose, whatever `config_h3` wrote around them. */
  lemma ConfigSetsClock(m: RegFile, variant: Variant, flags: bv32, crtcClock: int, rcal: bv32,
                        parent: bv8, rate: nat, parentRate: nat)
    requires variant.hasPhyClk && parent <= 1
    requires 1 <= PhyClk.BestDivider(parentRate, rate)
    ensures var r := Configured(m, variant, flags, crtcClock, rcal, Changed(Some(parent), rate, parentRate));
      && PhyClk.RecalcRate(r, parentRate) == parentRate / PhyClk.BestDivider(parentRate, rate)
      && PhyClk.GetParent(r) == parent as int
  {
    var m1 := m[DBG_CTRL := PolarityWord(Get(m, DBG_CTRL), flags)];
    var m2 := ClockSet(m1, Changed(Some(parent), rate, parentRate));
    ClockSetReadsBack(m1, parent, rate, parentRate);
    H3KeepsClock(m2, ClkRate(crtcClock), rcal, parentRate);
  }

  /** The PHY clock's operations alone: `recalc_rate` reads back the picked
      divider and the corrected `get_parent` the chosen parent. */
  lemma ClockSetReadsBack(m: RegFile, parent: bv8, rate: nat, parentRate: nat)
    requires parent <= 1 && 1 <= PhyClk.BestDivider(parentRate, rate)
    ensures var r := ClockSet(m, Changed(Some(parent), rate, parentRate));
      && PhyClk.RecalcRate(r, parentRate) == parentRate / PhyClk.BestDivider(parentRate, rate)
      && PhyClk.GetParent(r) == parent as int
  {
    var p1 := PhyClk.ParentSet(m, parent).value;
    PhyClk.SetRateReadsBack(p1, parentRate, PhyClk.BestDivider(parentRate, rate));
    PhyClk.SetParentRoundTrip(m, parent);
  }

  /** `config_h3` leaves what the PHY clock reads alone. */
  lemma H3KeepsClock(m: RegFile, clkRate: nat, rcal: bv32, parentRate: nat)
    ensures var r := H3Configured(m, H3Settings(clkRate, rcal));
      PhyClk.RecalcRate(r, parentRate) == PhyClk.RecalcRate(m, parentRate) && PhyClk.GetParent(r) == PhyClk.GetParent(m)
  {
    ConfigKeepsClock(m, clkRate, rcal);
  }

  // ---- init_h3 and disable_h3 ----

  const ENBI: bv32 := 1
  const ENVBS: bv32 := 2
  const LDOEN: bv32 := 4
  const CKEN: bv32 := 8
  const ENP2S_DATA: bv32 := 0x70
  const ENP2S_TMDSCLK: bv32 := 0x80
  const BIASEN_ALL: bv32 := 0xf00
  const TMDSCLK_EN: bv32 := 1 << 16
  const ENCALOG: bv32 := 1 << 18
  const ENRCAL: bv32 := 1 << 19
  const DDC_EN: bv32 := 0x5

  /** ANA_CFG1 through `init_h3`: cleared, then each enable set in turn. */
  function InitAna1(): bv32
  {
    var a := Merge(0, ENBI, ENBI);
    var a1 := Merge(Merge(a, TMDSCLK_EN, TMDSCLK_EN), ENVBS, ENVBS);
    var a2 := Merge(Merge(Merge(a1, LDOEN, LDOEN), CKEN, CKEN), ENRCAL, ENRCAL);
    var a3 := Merge(Merge(a2, ENCALOG, ENCALOG), ENP2S_DATA, ENP2S_DATA);
    Merge(Merge(a3, ENP2S_TMDSCLK, ENP2S_TMDSCLK), BIASEN_ALL, BIASEN_ALL)
  }

  /** `init_h3` leaves ANA_CFG1 with bits 11:0, 16, 18 and 19 set: every
      bias, serializer, clock and calibration enable, and nothing else. */
  lemma InitAna1Value()
    ensures InitAna1() == 0x000d_0fff
  {
  }

  /** The calibration value `init_h3` keeps: bits 5:2 of ANA_STS. */
  function Rcal(status: bv32): (r: bv32)
    ensures r < 16
  {
    (status & RCAL_MASK) >> 2
  }

  /** The registers after `sunh5_hdmi_phy_init_h3`. */
  function InitWords(m: RegFile): RegFile
  {
    var m1 := m[READ_EN := READ_EN_MAGIC][UNSCRAMBLE := UNSCRAMBLE_MAGIC][ANA_CFG1 := InitAna1()];
    var m2 := m1[ANA_CFG3 := Merge(Get(m1, ANA_CFG3), DDC_EN, DDC_EN)];
    var m3 := m2[PLL_CFG1 := Merge(Get(m2, PLL_CFG1), CKIN_SEL_MSK, 0)];
    m3[CEC := 0]
  }

  /** After init the register interface is unlocked, DDC is on, the PLL
      takes parent 0, CEC is under hardware control, and the status
      register is untouched. */
  lemma InitState(m: RegFile)
    ensures Get(InitWords(m), READ_EN) == READ_EN_MAGIC && Get(InitWords(m), UNSCRAMBLE) == UNSCRAMBLE_MAGIC
    ensures Get(InitWords(m), ANA_CFG3) & DDC_EN == DDC_EN
    ensures Get(InitWords(m), PLL_CFG1) & CKIN_SEL_MSK == 0
    ensures Get(InitWords(m), CEC) == 0
    ensures Get(InitWords(m), ANA_STS) == Get(m, ANA_STS)
    ensures Get(InitWords(m), ANA_CFG1) == 0x000d_0fff
  {
    InitAna1Value();
  }

  /** The later `config_h3` finds the calibration in range for RESDI. */
  lemma InitCalibrationFits(m: RegFile, clkRate: nat)
    ensures Band(clkRate) < 2 ==>
      ResdiField(H3Settings(clkRate, Rcal(Get(m, ANA_STS))).ana2) == Rcal(Get(m, ANA_STS))
  {
    CalibrationUsed(clkRate, Rcal(Get(m, ANA_STS)));
  }

  method InitAnalog(rm: RegMap)
    modifies rm
    ensures rm.regs == old(rm.regs)[ANA_CFG1 := InitAna1()]
  {
    rm.Write(ANA_CFG1, 0);
    rm.UpdateBits(ANA_CFG1, ENBI, ENBI);
    rm.UpdateBits(ANA_CFG1, TMDSCLK_EN, TMDSCLK_EN);
    rm.UpdateBits(ANA_CFG1, ENVBS, ENVBS);
    rm.UpdateBits(ANA_CFG1, LDOEN, LDOEN);
    rm.UpdateBits(ANA_CFG1, CKEN, CKEN);
    rm.UpdateBits(ANA_CFG1, ENRCAL, ENRCAL);
    rm.UpdateBits(ANA_CFG1, ENCALOG, ENCALOG);
    rm.UpdateBits(ANA_CFG1, ENP2S_DATA, ENP2S_DATA);
    rm.UpdateBits(ANA_CFG1, ENP2S_TMDSCLK, ENP2S_TMDSCLK);
    rm.UpdateBits(ANA_CFG1, BIASEN_ALL, BIASEN_ALL);
  }

  /** `sunh5_hdmi_phy_init_h3` (the delays and the calibration poll, whose
      outcome is ignored, are not modelled). */
  method InitH3(rm: RegMap, phy: Phy)
    modifies rm, phy
    ensures rm.regs == InitWords(old(rm.regs))
    ensures phy.rcal == Rcal(Get(old(rm.regs), ANA_STS))
  {
    rm.Write(READ_EN, READ_EN_MAGIC);
    rm.Write(UNSCRAMBLE, UNSCRAMBLE_MAGIC);
    InitAnalog(rm);
    rm.UpdateBits(ANA_CFG3, DDC_EN, DDC_EN);
    rm.UpdateBits(PLL_CFG1, CKIN_SEL_MSK, 0);
    rm.Write(CEC, 0);
    var status := rm.Read(ANA_STS);
    phy.rcal := Rcal(status);
  }

  /** `sunh5_hdmi_phy_disable_h3`: only LDOEN, ENVBS and ENBI stay on, and
      the PLL configuration is cleared. */
  method DisableH3(rm: RegMap)
    modifies rm
    ensures Get(rm.regs, ANA_CFG1) == LDOEN | ENVBS | ENBI && LDOEN | ENVBS | ENBI == 0x7
    ensures Get(rm.regs, PLL_CFG1) == 0
    ensures forall o :: o != ANA_CFG1 && o != PLL_CFG1 ==> Get(rm.regs, o) == Get(old(rm.regs), o)
  {
    rm.Write(ANA_CFG1, LDOEN | ENVBS | ENBI);
    rm.Write(PLL_CFG1, 0);
  }

  // ---- the clock lookups of probe ----

  /** What a clock lookup hands back: a clock, or an error pointer. */
  datatype Handle = Clock(id: nat) | ErrPtr(code: int)

  /** The bus and module clocks the PHY holds after the lookups in probe. */
  datatype PhyClocks = PhyClocks(bus: Handle, mod: Handle)

  /** The lookups as written: after fetching the module clock, probe tests
      the bus clock a second time, so a failed module lookup goes on with
      an error pointer as the module clock. */
  function GetClocksAsWritten(bus: Handle, mod: Handle): Result<PhyClocks>
  {
    match LookupError(bus)
    case Some(code) => Err(code)
    case None =>
      match LookupError(bus)
      case Some(code) => Err(code)
      case None => Ok(PhyClocks(bus, mod))
  }

  /** IS_ERR and PTR_ERR of a lookup result. */
  function LookupError(h: Handle): (r: Option<int>)
    ensures r.Some? <==> h.ErrPtr?
  {
    if h.ErrPtr? then Some(h.code) else None
  }

  /** A missing module clock is not caught, and probe carries on to enable
      an error pointer. */
  lemma AsWrittenKeepsErrorClock()
    ensures GetClocksAsWritten(Clock(0), ErrPtr(-ENODEV)) == Ok(PhyClocks(Clock(0), ErrPtr(-ENODEV)))
  {
  }

  /** The lookups with the module clock tested after its own lookup. */
  function GetClocks(bus: Handle, mod: Handle): Result<PhyClocks>
  {
    match LookupError(bus)
    case Some(code) => Err(code)
    case None =>
      match LookupError(mod)
      case Some(code) => Err(code)
      case None => Ok(PhyClocks(bus, mod))
  }

  /** Probe goes on only with two real clocks, and fails with the error of
      the first lookup that failed. */
  lemma GetClocksChecksBoth(bus: Handle, mod: Handle)
    ensures GetClocks(bus, mod).Ok? <==> bus.Clock? && mod.Clock?
    ensures GetClocks(bus, mod).Ok? ==> GetClocks(bus, mod).value == PhyClocks(bus, mod)
    ensures bus.ErrPtr? ==> GetClocks(bus, mod) == Err(bus.code)
    ensures bus.Clock? && mod.ErrPtr? ==> GetClocks(bus, mod) == Err(mod.code)
  {
  }
}
