// The AC108 codec's register programming (ac108.c) as functions on the
// register file: what the DAI operations (PLL, TDM slots, DAI format,
// hardware parameters) and the debug register store leave in the chip's
// registers, and lemmas on what the programmed fields mean.
module Ac108Codec {
  import opened Regs
  import opened Wrappers
  import opened Errno
  import opened Ac108Regs
  import opened Ac108

  // ---- DAI format codes (SND_SOC_DAIFMT_* of Linux 5.2) ----

  const DAIFMT_I2S: bv32 := 1
  const DAIFMT_RIGHT_J: bv32 := 2
  const DAIFMT_LEFT_J: bv32 := 3
  const DAIFMT_DSP_A: bv32 := 4
  const DAIFMT_DSP_B: bv32 := 5
  const DAIFMT_NB_NF: bv32 := 0x000
  const DAIFMT_NB_IF: bv32 := 0x200
  const DAIFMT_IB_NF: bv32 := 0x300
  const DAIFMT_IB_IF: bv32 := 0x400
  const DAIFMT_CBM_CFM: bv32 := 0x1000
  const DAIFMT_CBS_CFS: bv32 := 0x4000
  const DAIFMT_FORMAT_MASK: bv32 := 0x000f
  const DAIFMT_INV_MASK: bv32 := 0x0f00
  const DAIFMT_MASTER_MASK: bv32 := 0xf000

  /** The I2S_CTRL fields `set_fmt` programs: LRCK/BCLK direction, both
      data outputs, transmit, receive and the global enable. */
  const I2S_CTRL_MASK: bv32 := (3 << LRCK_IOEN) | (3 << SDO1_EN) | (1 << TXEN) | (1 << RXEN) | (1 << GEN)

  /** The I2S_CTRL value for the clocking roles in `fmt`: as master the
      AC108 drives BCLK and LRCK, as slave it takes them in; any other
      role is refused. */
  function I2sCtrlValue(fmt: bv32): Option<bv32>
  {
    var role := fmt & DAIFMT_MASTER_MASK;
    if role == DAIFMT_CBM_CFM then
      Some((3 << LRCK_IOEN) | (3 << SDO1_EN) | (1 << TXEN) | (1 << RXEN) | (1 << GEN))
    else if role == DAIFMT_CBS_CFS then
      Some((0 << LRCK_IOEN) | (3 << SDO1_EN) | (1 << TXEN) | (1 << RXEN) | (1 << GEN))
    else None
  }

  /** The serial framing a DAI format selects: MODE_SEL and the one-BCLK
      data offset of TX1 and TX2. */
  datatype Framing = Framing(mode: bv32, offset: bv32)

  function FramingOf(fmt: bv32): Option<Framing>
  {
    var f := fmt & DAIFMT_FORMAT_MASK;
    if f == DAIFMT_I2S then Some(Framing(LEFT_JUSTIFIED_FORMAT, 1))
    else if f == DAIFMT_RIGHT_J then Some(Framing(RIGHT_JUSTIFIED_FORMAT, 0))
    else if f == DAIFMT_LEFT_J then Some(Framing(LEFT_JUSTIFIED_FORMAT, 0))
    else if f == DAIFMT_DSP_A then Some(Framing(PCM_FORMAT, 1))
    else if f == DAIFMT_DSP_B then Some(Framing(PCM_FORMAT, 0))
    else None
  }

  /** The BCLK and LRCK polarities a DAI format selects. */
  datatype Polarity = Polarity(bclk: bv32, lrck: bv32)

  function PolarityOf(fmt: bv32): Option<Polarity>
  {
    var inv := fmt & DAIFMT_INV_MASK;
    if inv == DAIFMT_NB_NF then Some(Polarity(BCLK_NORMAL_DRIVE_N_SAMPLE_P, LRCK_LEFT_HIGH_RIGHT_LOW))
    else if inv == DAIFMT_NB_IF then Some(Polarity(BCLK_NORMAL_DRIVE_N_SAMPLE_P, LRCK_LEFT_LOW_RIGHT_HIGH))
    else if inv == DAIFMT_IB_NF then Some(Polarity(BCLK_INVERT_DRIVE_P_SAMPLE_N, LRCK_LEFT_HIGH_RIGHT_LOW))
    else if inv == DAIFMT_IB_IF then Some(Polarity(BCLK_INVERT_DRIVE_P_SAMPLE_N, LRCK_LEFT_LOW_RIGHT_HIGH))
    else None
  }

  /** The clocking role is accepted exactly for the two listed codes, and
      only the master value drives LRCK and BCLK out; both values enable
      the outputs, transmit, receive and the global enable. */
  lemma I2sCtrlMeaning(fmt: bv32)
    ensures I2sCtrlValue(fmt).Some? <==>
      fmt & DAIFMT_MASTER_MASK == DAIFMT_CBM_CFM || fmt & DAIFMT_MASTER_MASK == DAIFMT_CBS_CFS
    ensures I2sCtrlValue(fmt).Some? ==>
      (I2sCtrlValue(fmt).value & 0xc0 == 0xc0 <==> fmt & DAIFMT_MASTER_MASK == DAIFMT_CBM_CFM)
    ensures I2sCtrlValue(fmt).Some? ==>
      I2sCtrlValue(fmt).value & 0x37 == 0x37 && I2sCtrlValue(fmt).value & !I2S_CTRL_MASK == 0
  {
  }

  /** Exactly the five listed serial formats are accepted; DSP A and B are
      the PCM mode, I2S and DSP A delay the data by one BCLK, and I2S is
      left-justified framing with that delay. */
  lemma FramingMeaning(fmt: bv32)
    ensures FramingOf(fmt).Some? <==> 1 <= fmt & DAIFMT_FORMAT_MASK <= 5
    ensures FramingOf(fmt).Some? ==>
      (FramingOf(fmt).value.mode == PCM_FORMAT <==>
        fmt & DAIFMT_FORMAT_MASK == DAIFMT_DSP_A || fmt & DAIFMT_FORMAT_MASK == DAIFMT_DSP_B)
    ensures FramingOf(fmt).Some? ==>
      (FramingOf(fmt).value.offset == 1 <==>
        fmt & DAIFMT_FORMAT_MASK == DAIFMT_I2S || fmt & DAIFMT_FORMAT_MASK == DAIFMT_DSP_A)
    ensures FramingOf(fmt).Some? ==> FramingOf(fmt).value.offset <= 1 && FramingOf(fmt).value.mode <= 2
  {
  }

  /** Exactly the four listed inversions are accepted; BCLK is inverted
      for the IB codes, and LRCK is left-high for the normal-frame codes. */
  lemma PolarityMeaning(fmt: bv32)
    ensures PolarityOf(fmt).Some? <==>
      fmt & DAIFMT_INV_MASK in {DAIFMT_NB_NF, DAIFMT_NB_IF, DAIFMT_IB_NF, DAIFMT_IB_IF}
    ensures PolarityOf(fmt).Some? ==>
      (PolarityOf(fmt).value.bclk == BCLK_INVERT_DRIVE_P_SAMPLE_N <==>
        fmt & DAIFMT_INV_MASK == DAIFMT_IB_NF || fmt & DAIFMT_INV_MASK == DAIFMT_IB_IF)
    ensures PolarityOf(fmt).Some? ==>
      (PolarityOf(fmt).value.lrck == LRCK_LEFT_HIGH_RIGHT_LOW <==>
        fmt & DAIFMT_INV_MASK == DAIFMT_NB_NF || fmt & DAIFMT_INV_MASK == DAIFMT_IB_NF)
    ensures PolarityOf(fmt).Some? ==> PolarityOf(fmt).value.bclk <= 1 && PolarityOf(fmt).value.lrck <= 1
  {
  }

  // ---- register programs ----

  /** `ac108_configure_power`: analog LDO on; VREF at setting 0x13 with
      fast start off; VREFP on with the +25% bias trim. */
  function PowerOn(m: RegFile): RegFile
  {
    var m6 := BitsUpdated(m, PWR_CTRL6, 1 << LDO33ANA_ENABLE, 1 << LDO33ANA_ENABLE);
    var m7 := BitsUpdated(m6, PWR_CTRL7, (0x1f << VREF_SEL) | (1 << VREF_FASTSTART_ENABLE) | (1 << VREF_ENABLE),
                          (0x13 << VREF_SEL) | (0 << VREF_FASTSTART_ENABLE) | (1 << VREF_ENABLE));
    BitsUpdated(m7, PWR_CTRL9, (1 << VREFP_FASTSTART_ENABLE) | (3 << VREFP_RESCTRL) | (7 << IGEN_TRIM) | (1 << VREFP_ENABLE),
                (0 << VREFP_FASTSTART_ENABLE) | (0 << VREFP_RESCTRL) | (4 << IGEN_TRIM) | (1 << VREFP_ENABLE))
  }

  /** What `set_fmt` programs after I2S_CTRL once the format and the
      polarity are accepted: power, the two clock polarities, the framing,
      the slot format, and the high-pass filter off. */
  function FormatTail(m: RegFile, fr: Framing, pol: Polarity): RegFile
  {
    var p := PowerOn(m);
    var b := BitsUpdated(p, I2S_BCLK_CTRL, 1 << BCLK_POLARITY, pol.bclk << BCLK_POLARITY);
    var l := BitsUpdated(b, I2S_LRCK_CTRL1, 1 << LRCK_POLARITY, pol.lrck << LRCK_POLARITY);
    var f1 := BitsUpdated(l, I2S_FMT_CTRL1,
                          (1 << ENCD_SEL) | (3 << MODE_SEL) | (1 << TX2_OFFSET) | (1 << TX1_OFFSET) | (1 << TX_SLOT_HIZ) | (1 << TX_STATE),
                          (0 << ENCD_SEL) | (fr.mode << MODE_SEL) | (fr.offset << TX2_OFFSET) | (fr.offset << TX1_OFFSET)
                            | (0 << TX_SLOT_HIZ) | (0 << TX_STATE));
    var f3 := BitsUpdated(f1, I2S_FMT_CTRL3, (1 << TX_MLS) | (3 << SEXT) | (1 << LRCK_WIDTH) | (3 << TX_PDM),
                          (0 << TX_MLS) | (3 << SEXT) | (0 << LRCK_WIDTH) | (0 << TX_PDM));
    Written(f3, HPF_EN, 0)
  }

  /** The register file after `set_fmt(fmt)`: nothing when the role is
      refused; I2S_CTRL only when the format or the polarity is refused;
      everything otherwise. */
  function SetFmtRegs(m: RegFile, fmt: bv32): RegFile
  {
    match I2sCtrlValue(fmt)
    case None => m
    case Some(ctrl) =>
      var c := BitsUpdated(m, I2S_CTRL, I2S_CTRL_MASK, ctrl);
      if FramingOf(fmt).None? || PolarityOf(fmt).None? then c
      else FormatTail(c, FramingOf(fmt).value, PolarityOf(fmt).value)
  }

  /** A format word `set_fmt` accepts in full. */
  predicate FmtAccepted(fmt: bv32)
  {
    I2sCtrlValue(fmt).Some? && FramingOf(fmt).Some? && PolarityOf(fmt).Some?
  }

  /** Reading the registers after an accepted `set_fmt` gives back each
      field of the format: the clock direction, the framing mode and
      offset, both polarities; the power and slot-format settings hold. */
  lemma SetFmtFields(m: RegFile, fmt: bv32)
    requires FmtAccepted(fmt)
    ensures var r := SetFmtRegs(m, fmt);
      Get(r, I2S_CTRL) & I2S_CTRL_MASK == I2sCtrlValue(fmt).value &&
      Get(r, I2S_CTRL) & !I2S_CTRL_MASK == Get(m, I2S_CTRL) & !I2S_CTRL_MASK
    ensures var r := SetFmtRegs(m, fmt);
      (Get(r, I2S_FMT_CTRL1) >> 4) & 3 == FramingOf(fmt).value.mode &&
      (Get(r, I2S_FMT_CTRL1) >> 3) & 1 == FramingOf(fmt).value.offset &&
      (Get(r, I2S_FMT_CTRL1) >> 2) & 1 == FramingOf(fmt).value.offset &&
      Get(r, I2S_FMT_CTRL1) & 0x43 == 0
    ensures var r := SetFmtRegs(m, fmt);
      (Get(r, I2S_BCLK_CTRL) >> 4) & 1 == PolarityOf(fmt).value.bclk &&
      (Get(r, I2S_LRCK_CTRL1) >> 4) & 1 == PolarityOf(fmt).value.lrck
    ensures var r := SetFmtRegs(m, fmt);
      Get(r, PWR_CTRL6) & 1 == 1 && Get(r, PWR_CTRL7) & 0xfb == 0x99 && Get(r, PWR_CTRL9) & 0xef == 0x09 &&
      Get(r, I2S_FMT_CTRL3) & 0xe7 == 0x60 && Get(r, HPF_EN) == 0
  {
    FramingMeaning(fmt);
    PolarityMeaning(fmt);
    var fr := FramingOf(fmt).value;
    var pol := PolarityOf(fmt).value;
    var c := BitsUpdated(m, I2S_CTRL, I2S_CTRL_MASK, I2sCtrlValue(fmt).value);
    FormatTailFields(c, fr, pol);
  }

  lemma FormatTailFields(m: RegFile, fr: Framing, pol: Polarity)
    requires fr.mode <= 2 && fr.offset <= 1 && pol.bclk <= 1 && pol.lrck <= 1
    ensures var r := FormatTail(m, fr, pol);
      (Get(r, I2S_FMT_CTRL1) >> 4) & 3 == fr.mode &&
      (Get(r, I2S_FMT_CTRL1) >> 3) & 1 == fr.offset &&
      (Get(r, I2S_FMT_CTRL1) >> 2) & 1 == fr.offset &&
      Get(r, I2S_FMT_CTRL1) & 0x43 == 0
    ensures var r := FormatTail(m, fr, pol);
      (Get(r, I2S_BCLK_CTRL) >> 4) & 1 == pol.bclk &&
      (Get(r, I2S_LRCK_CTRL1) >> 4) & 1 == pol.lrck
    ensures var r := FormatTail(m, fr, pol);
      Get(r, PWR_CTRL6) & 1 == 1 && Get(r, PWR_CTRL7) & 0xfb == 0x99 && Get(r, PWR_CTRL9) & 0xef == 0x09 &&
      Get(r, I2S_FMT_CTRL3) & 0xe7 == 0x60 && Get(r, HPF_EN) == 0
    ensures Get(FormatTail(m, fr, pol), I2S_CTRL) == Get(m, I2S_CTRL)
  {
    var w := Get(FormatTail(m, fr, pol), I2S_FMT_CTRL1);
    var v := (fr.mode << 4) | (fr.offset << 3) | (fr.offset << 2);
    assert w & 0x7f == v & 0x7f;
    FramingBits(w, fr.mode, fr.offset);
    var b := Get(FormatTail(m, fr, pol), I2S_BCLK_CTRL);
    assert b & 0x10 == (pol.bclk << 4) & 0x10;
    PolarityBit(b, pol.bclk);
    var l := Get(FormatTail(m, fr, pol), I2S_LRCK_CTRL1);
    assert l & 0x10 == (pol.lrck << 4) & 0x10;
    PolarityBit(l, pol.lrck);
  }

  lemma FramingBits(w: bv32, mode: bv32, offset: bv32)
    requires mode <= 3 && offset <= 1
    requires w & 0x7f == ((mode << 4) | (offset << 3) | (offset << 2)) & 0x7f
    ensures (w >> 4) & 3 == mode && (w >> 3) & 1 == offset && (w >> 2) & 1 == offset && w & 0x43 == 0
  {
  }

  lemma PolarityBit(w: bv32, p: bv32)
    requires p <= 1 && w & 0x10 == (p << 4) & 0x10
    ensures (w >> 4) & 1 == p
  {
  }

  // ---- PLL programming (config_pll) ----

  /** The PLL source `config_pll` selects: the bit clock. */
  const PLL_SRC_BCLK: bv32 := 1

  /** The divider fields as the PLL registers hold them. */
  datatype DividerFields = DividerFields(m1: bv32, m2: bv32, n: bv32, k1: bv32, k2: bv32)

  /** A table row's fields in register width. */
  function FieldsOf(d: PllDiv): DividerFields
    requires Fits(d)
  {
    DividerFields(d.m1 as bv32, d.m2 as bv32, d.n as bv32, d.k1 as bv32, d.k2 as bv32)
  }

  /** The divider fields read back from PLL_CTRL2..5: M1 and M2 from
      CTRL2, N from CTRL3 (bits 9:8) and CTRL4 (bits 7:0), K1 and K2 from
      CTRL5. */
  function ReadDivider(m: RegFile): DividerFields
  {
    DividerFields(Get(m, PLL_CTRL2) & 0x1f, (Get(m, PLL_CTRL2) >> 5) & 1,
                  ((Get(m, PLL_CTRL3) & 3) << 8) | (Get(m, PLL_CTRL4) & 0xff),
                  Get(m, PLL_CTRL5) & 0x1f, (Get(m, PLL_CTRL5) >> 5) & 1)
  }

  /** The register file after `config_pll` has programmed divider `f`:
      the divider fields, PLL lock, the PLL enabled from BCLK as the
      system clock, and the PLL and its common voltage on. */
  function PllProgrammed(m: RegFile, f: DividerFields): RegFile
  {
    PllEnabled(PllDivided(m, f))
  }

  /** The four divider words of `config_pll`. */
  function PllDivided(m: RegFile, f: DividerFields): RegFile
  {
    var c5 := BitsUpdated(m, PLL_CTRL5, (0x1f << PLL_POSTDIV1) | (1 << PLL_POSTDIV2),
                          (f.k1 << PLL_POSTDIV1) | (f.k2 << PLL_POSTDIV2));
    var c4 := BitsUpdated(c5, PLL_CTRL4, 0xff << PLL_LOOPDIV_LSB, (f.n & 0xff) << PLL_LOOPDIV_LSB);
    var c3 := BitsUpdated(c4, PLL_CTRL3, 3 << PLL_LOOPDIV_MSB, (f.n >> 8) << PLL_LOOPDIV_MSB);
    BitsUpdated(c3, PLL_CTRL2, (0x1f << PLL_PREDIV1) | (1 << PLL_PREDIV2),
                (f.m1 << PLL_PREDIV1) | (f.m2 << PLL_PREDIV2))
  }

  /** The lock, system-clock and PLL enables of `config_pll`. */
  function PllEnabled(m: RegFile): RegFile
  {
    var lk := BitsUpdated(m, PLL_LOCK_CTRL, 1 << PLL_LOCK_EN, 1 << PLL_LOCK_EN);
    var sc := BitsUpdated(lk, SYSCLK_CTRL, (1 << PLLCLK_EN) | (3 << PLLCLK_SRC) | (1 << SYSCLK_SRC) | (1 << SYSCLK_EN),
                          (1 << PLLCLK_EN) | (PLL_SRC_BCLK << PLLCLK_SRC) | (1 << SYSCLK_SRC) | (1 << SYSCLK_EN));
    BitsUpdated(sc, PLL_CTRL1, (1 << PLL_EN) | (1 << PLL_COM_EN), (1 << PLL_EN) | (1 << PLL_COM_EN))
  }

  /** The registers `config_pll` touches. */
  predicate PllRegister(o: int)
  {
    o in {PLL_CTRL1, PLL_CTRL2, PLL_CTRL3, PLL_CTRL4, PLL_CTRL5, PLL_LOCK_CTRL, SYSCLK_CTRL}
  }

  /** Field values that fit their register fields. */
  predicate FieldsFit(f: DividerFields)
  {
    f.m1 <= 31 && f.m2 <= 1 && f.n <= 1023 && f.k1 <= 31 && f.k2 <= 1
  }

  /** Each PLL register holds its old word merged with the value
      `config_pll` writes through its mask. */
  lemma PllWords(m: RegFile, f: DividerFields)
    ensures var r := PllProgrammed(m, f);
      Get(r, PLL_CTRL5) == Merge(Get(m, PLL_CTRL5), 0x3f, f.k1 | (f.k2 << 5)) &&
      Get(r, PLL_CTRL4) == Merge(Get(m, PLL_CTRL4), 0xff, f.n & 0xff) &&
      Get(r, PLL_CTRL3) == Merge(Get(m, PLL_CTRL3), 3, f.n >> 8) &&
      Get(r, PLL_CTRL2) == Merge(Get(m, PLL_CTRL2), 0x3f, f.m1 | (f.m2 << 5))
    ensures var r := PllProgrammed(m, f);
      Get(r, PLL_LOCK_CTRL) == Merge(Get(m, PLL_LOCK_CTRL), 1, 1) &&
      Get(r, SYSCLK_CTRL) == Merge(Get(m, SYSCLK_CTRL), 0xb9, 0x99) &&
      Get(r, PLL_CTRL1) == Merge(Get(m, PLL_CTRL1), 3, 3)
    ensures forall o :: !PllRegister(o) ==> Get(PllProgrammed(m, f), o) == Get(m, o)
  {
  }

  /** Reading the PLL registers back gives the divider that was
      programmed; the PLL is locked, enabled and clocks the system from
      BCLK; every other register is unchanged. */
  lemma PllReadBack(m: RegFile, f: DividerFields)
    requires FieldsFit(f)
    ensures ReadDivider(PllProgrammed(m, f)) == f
    ensures Get(PllProgrammed(m, f), PLL_LOCK_CTRL) & 1 == 1
    ensures Get(PllProgrammed(m, f), SYSCLK_CTRL) & 0xb9 == 0x99
    ensures Get(PllProgrammed(m, f), PLL_CTRL1) & 3 == 3
    ensures forall o :: !PllRegister(o) ==> Get(PllProgrammed(m, f), o) == Get(m, o)
  {
    PllWords(m, f);
    LoopDividerBack(m, f);
    PostDividerBack(m, f);
    PreDividerBack(m, f);
  }

  lemma LoopDividerBack(m: RegFile, f: DividerFields)
    requires FieldsFit(f)
    ensures ReadDivider(PllProgrammed(m, f)).n == f.n
  {
    PllWords(m, f);
    var r := PllProgrammed(m, f);
    NSplit(f.n, Get(r, PLL_CTRL3), Get(r, PLL_CTRL4));
  }

  lemma PostDividerBack(m: RegFile, f: DividerFields)
    requires FieldsFit(f)
    ensures ReadDivider(PllProgrammed(m, f)).k1 == f.k1 && ReadDivider(PllProgrammed(m, f)).k2 == f.k2
  {
    PllWords(m, f);
    var r := PllProgrammed(m, f);
    PairSplit(f.k1, f.k2, Get(r, PLL_CTRL5));
  }

  lemma PreDividerBack(m: RegFile, f: DividerFields)
    requires FieldsFit(f)
    ensures ReadDivider(PllProgrammed(m, f)).m1 == f.m1 && ReadDivider(PllProgrammed(m, f)).m2 == f.m2
  {
    PllWords(m, f);
    var r := PllProgrammed(m, f);
    PairSplit(f.m1, f.m2, Get(r, PLL_CTRL2));
  }

  lemma NSplit(n: bv32, hi: bv32, lo: bv32)
    requires n <= 1023 && hi & 3 == (n >> 8) & 3 && lo & 0xff == (n & 0xff) & 0xff
    ensures ((hi & 3) << 8) | (lo & 0xff) == n
  {
  }

  lemma PairSplit(a: bv32, b: bv32, w: bv32)
    requires a <= 31 && b <= 1 && w & 0x3f == (a | (b << 5)) & 0x3f
    ensures w & 0x1f == a && (w >> 5) & 1 == b
  {
  }

  /** A row of the table fits the registers. */
  lemma LookupFieldsFit(f: nat)
    ensures Fits(PllLookup(f)) && FieldsFit(FieldsOf(PllLookup(f)))
  {
    PllLookupGood(f);
    FitsFieldsFit(PllLookup(f));
  }

  /** A divider that fits its field widths converts to register fields
      that fit them too. */
  lemma FitsFieldsFit(d: PllDiv)
    requires Fits(d)
    ensures FieldsFit(FieldsOf(d))
  {
  }

  /** The registers after `config_pll` for PLL input `freqIn`, when the
      system clock source is the PLL. */
  function PllRegs(m: RegFile, freqIn: nat): RegFile
  {
    LookupFieldsFit(freqIn);
    PllProgrammed(m, FieldsOf(PllLookup(freqIn)))
  }

  // ---- hw_params ----

  /** The sample width of a format as a register value. */
  function BitsWord(f: PcmFormat): bv32
  {
    match f
    case S8 => 8
    case S16Le => 16
    case S20_3Le => 20
    case S24Le => 24
    case S32Le => 32
    case OtherFormat(_) => 0
  }

  /** The bit clocks in one frame: the channel width times the channel
      count, in `unsigned int`. */
  function Frame(width: bv32, channels: bv32): bv32
  {
    width * channels
  }

  /** The register value is the format's width, which for a supported
      format is the width the resolution table lists. */
  lemma BitsWordWidth(f: PcmFormat)
    ensures BitsWord(f) as int == SampleBits(f)
    ensures ResolutionIndex(f).Some? ==> BitsWord(f) as int == SAMP_RES[ResolutionIndex(f).value].realVal
  {
    ResolutionMatchesFormat(f);
  }

  /** The LRCK period registers: in the I2S and justified modes the
      number of BCLKs per channel (`bits`) less one; in PCM mode the
      number of BCLKs in the whole frame (`frame`, the width times the
      channels) less one, split into bits 9:8 (PERIODH) and 7:0. */
  function LrckRegs(m: RegFile, mode: bv32, bits: bv32, frame: bv32): RegFile
  {
    if mode != PCM_FORMAT then
      Written(BitsUpdated(m, I2S_LRCK_CTRL1, 3 << LRCK_PERIODH, 0), I2S_LRCK_CTRL2, (bits - 1) & 0xff)
    else
      var div := frame - 1;
      Written(BitsUpdated(m, I2S_LRCK_CTRL1, 3 << LRCK_PERIODH, (div >> 8) << LRCK_PERIODH), I2S_LRCK_CTRL2, div & 0xff)
  }

  /** The LRCK period read back from LRCK_CTRL1 bits 1:0 and LRCK_CTRL2. */
  function LrckPeriod(m: RegFile): bv32
  {
    (((Get(m, I2S_LRCK_CTRL1) & 3) << 8) | Get(m, I2S_LRCK_CTRL2)) + 1
  }

  /** The two LRCK words `hw_params` leaves. */
  lemma LrckWords(m: RegFile, mode: bv32, bits: bv32, frame: bv32)
    ensures var r := LrckRegs(m, mode, bits, frame);
      var div := if mode != PCM_FORMAT then bits - 1 else frame - 1;
      Get(r, I2S_LRCK_CTRL1) == Merge(Get(m, I2S_LRCK_CTRL1), 3, if mode != PCM_FORMAT then 0 else div >> 8) &&
      Get(r, I2S_LRCK_CTRL2) == div & 0xff
  {
  }

  /** The period read back is the channel width in the I2S and justified
      modes and the frame width in PCM mode, whenever it fits the 10-bit
      field. */
  lemma LrckPeriodMeaning(m: RegFile, mode: bv32, bits: bv32, frame: bv32)
    requires 1 <= bits <= 32
    ensures mode != PCM_FORMAT ==> LrckPeriod(LrckRegs(m, mode, bits, frame)) == bits
    ensures mode == PCM_FORMAT && 1 <= frame <= 0x400 ==>
      LrckPeriod(LrckRegs(m, mode, bits, frame)) == frame
  {
    LrckWords(m, mode, bits, frame);
    var r := LrckRegs(m, mode, bits, frame);
    var div := if mode != PCM_FORMAT then bits - 1 else frame - 1;
    if div < 0x400 {
      PeriodSplit(div, Get(r, I2S_LRCK_CTRL1), Get(r, I2S_LRCK_CTRL2));
    }
  }

  /** `hw_params` keeps the LRCK polarity bit `set_fmt` chose. */
  lemma LrckKeepsPolarity(m: RegFile, mode: bv32, bits: bv32, frame: bv32)
    ensures (Get(LrckRegs(m, mode, bits, frame), I2S_LRCK_CTRL1) >> 4) & 1 == (Get(m, I2S_LRCK_CTRL1) >> 4) & 1
  {
    LrckWords(m, mode, bits, frame);
    KeepsBit4(Get(m, I2S_LRCK_CTRL1), Get(LrckRegs(m, mode, bits, frame), I2S_LRCK_CTRL1));
  }

  lemma PeriodSplit(div: bv32, c1: bv32, c2: bv32)
    requires div < 0x400 && c1 & 3 == (div >> 8) & 3 && c2 == div & 0xff
    ensures (((c1 & 3) << 8) | c2) + 1 == div + 1
  {
  }

  lemma KeepsBit4(before: bv32, after: bv32)
    requires after & !3 == before & !3
    ensures (after >> 4) & 1 == (before >> 4) & 1
  {
  }

  /** Slot width and sample resolution, the ADC sample rate and the
      high-pass filters on. */
  function ResolutionRegs(m: RegFile, resCode: bv32, rateCode: bv32): RegFile
  {
    var f2 := BitsUpdated(m, I2S_FMT_CTRL2, (7 << SAMPLE_RESOLUTION) | (7 << SLOT_WIDTH_SEL),
                          (resCode << SAMPLE_RESOLUTION) | (resCode << SLOT_WIDTH_SEL));
    var sr := BitsUpdated(f2, ADC_SPRC, 0xf << ADC_FS_I2S1, rateCode << ADC_FS_I2S1);
    Written(sr, HPF_EN, 0x0f)
  }

  /** The PLL input `hw_params` asks for: rate times width times channels
      times four, in `unsigned int`. */
  function PllInput(rate: nat, f: PcmFormat, channels: bv32): nat
  {
    U32(rate * PllRatio(BitsWord(f), channels))
  }

  /** The multiplier `hw_params` applies to the rate: four times the
      frame width in bits. */
  function PllRatio(width: bv32, channels: bv32): nat
  {
    (Frame(width, channels) * 4) as nat
  }

  // ---- TDM slots (multi_chips_slots) ----

  /** `vec_mask` and `vec_maps` of `multi_chips_slots`. */
  const VEC_MASK: seq<bv32> := [(3 << 6) | 3, 0xf << 2, 0, 0]
  const VEC_MAPS: seq<bv32> := [(0 << 12) | (1 << 14) | (2 << 0) | (3 << 2), (0 << 4) | (1 << 6) | (2 << 8) | (3 << 10), 0, 0]

  /** The slot-enable word chip `i` of `cnt` uses. */
  function SlotMask(cnt: int, i: nat): bv32
    requires i < 4
  {
    if cnt == 1 then 0xf else VEC_MASK[i]
  }

  /** The channel-map word chip `i` of `cnt` uses: with two chips the
      map, with more the slot mask left over from the first step. */
  function SlotMap(cnt: int, i: nat): bv32
    requires i < 4
  {
    if cnt == 1 then (0 << 0) | (1 << 2) | (2 << 4) | (3 << 6)
    else if cnt == 2 then VEC_MAPS[i]
    else VEC_MASK[i]
  }

  /** The seven TX1 registers one pass of the slot loop writes. */
  function SlotWords(m: RegFile, cnt: int, slots: bv32, i: nat): RegFile
    requires i < 4
  {
    var vec := SlotMask(cnt, i);
    var map_ := SlotMap(cnt, i);
    m[I2S_TX1_CTRL1 := (slots - 1) & 0xff]
     [I2S_TX1_CTRL2 := vec & 0xff]
     [I2S_TX1_CTRL3 := (vec >> 8) & 0xff]
     [I2S_TX1_CHMP_CTRL1 := map_ & 0xff]
     [I2S_TX1_CHMP_CTRL2 := (map_ >> 8) & 0xff]
     [I2S_TX1_CHMP_CTRL3 := (map_ >> 16) & 0xff]
     [I2S_TX1_CHMP_CTRL4 := (map_ >> 24) & 0xff]
  }

  /** The registers after the slot loop over `cnt` chips: the last pass
      decides every word. */
  function SlotRegs(m: RegFile, cnt: int, slots: bv32): RegFile
    requires cnt <= 4
  {
    if cnt <= 0 then m else SlotWords(m, cnt, slots, cnt - 1)
  }

  /** A pass that writes slot mask `mask` and channel map `vec` word by
      word is the pass of chip `i`. */
  lemma SlotPass(m: RegFile, after: RegFile, cnt: int, slots: bv32, i: nat, mask: bv32, vec: bv32)
    requires i < 4 && mask == SlotMask(cnt, i) && vec == SlotMap(cnt, i)
    requires after == m[I2S_TX1_CTRL1 := (slots - 1) & 0xff][I2S_TX1_CTRL2 := mask & 0xff][I2S_TX1_CTRL3 := (mask >> 8) & 0xff]
                       [I2S_TX1_CHMP_CTRL1 := vec & 0xff][I2S_TX1_CHMP_CTRL2 := (vec >> 8) & 0xff]
                       [I2S_TX1_CHMP_CTRL3 := (vec >> 16) & 0xff][I2S_TX1_CHMP_CTRL4 := (vec >> 24) & 0xff]
    ensures after == SlotWords(m, cnt, slots, i)
  {
  }

  /** A pass of the slot loop overwrites everything an earlier pass wrote. */
  lemma SlotWordsAgain(m: RegFile, cnt: int, slots: bv32, i: nat, j: nat)
    requires i < 4 && j < 4
    ensures SlotWords(SlotWords(m, cnt, slots, i), cnt, slots, j) == SlotWords(m, cnt, slots, j)
  {
  }

  /** The source microphone of TDM slot `s` in a channel map. */
  function MicOfSlot(map_: bv32, s: bv32): bv32
    requires s < 16
  {
    (map_ >> (2 * s)) & 3
  }

  /** Whether slot `s` is enabled in a slot mask. */
  predicate SlotEnabled(vec: bv32, s: bv32)
    requires s < 16
  {
    (vec >> s) & 1 == 1
  }

  /** With one chip, slots 0 to 3 are enabled and carry microphones 0 to 3
      in order; no other slot is enabled. */
  lemma SingleChipSlots(k: bv32)
    requires k < 16
    ensures SlotEnabled(SlotMask(1, 0), k) <==> k < 4
    ensures k < 4 ==> MicOfSlot(SlotMap(1, 0), k) == k
  {
  }

  /** With two chips, chip 0 enables slots 6, 7, 0, 1 and chip 1 slots 2
      to 5: no slot is claimed twice, and each chip sends its microphones
      0 to 3 in the order its enabled slots are listed. */
  lemma TwoChipSlots()
    ensures SlotMask(2, 0) & SlotMask(2, 1) == 0
    ensures MicOfSlot(SlotMap(2, 0), 6) == 0 && MicOfSlot(SlotMap(2, 0), 7) == 1
    ensures MicOfSlot(SlotMap(2, 0), 0) == 2 && MicOfSlot(SlotMap(2, 0), 1) == 3
    ensures forall s :: 2 <= s < 6 ==> MicOfSlot(SlotMap(2, 1), s) == s - 2
    ensures forall s :: 0 <= s < 16 ==> (SlotEnabled(SlotMask(2, 0), s) <==> s in {0, 1, 6, 7})
    ensures forall s :: 0 <= s < 16 ==> (SlotEnabled(SlotMask(2, 1), s) <==> 2 <= s < 6)
  {
  }

  /** Module clocks and resets for I2S, ADC digital, MIC offset
      calibration and ADC analog. */
  const MODULES: bv32 := (1 << I2S) | (1 << ADC_DIGITAL) | (1 << MIC_OFFSET_CALIBRATION) | (1 << ADC_ANALOG)

  function ModulesOn(m: RegFile): RegFile
  {
    Written(Written(m, MOD_CLK_EN, MODULES), MOD_RST_CTRL, MODULES)
  }

  /** The LRCK, resolution and rate registers `hw_params` programs first. */
  function FormatStage(m: RegFile, mode: bv32, f: PcmFormat, rate: nat, channels: bv32): RegFile
    requires ResolutionIndex(f).Some? && RateIndex(rate).Some?
  {
    var l := LrckRegs(m, mode, BitsWord(f), Frame(BitsWord(f), channels));
    ResolutionRegs(l, SAMP_RES[ResolutionIndex(f).value].regVal, SAMPLE_RATE[RateIndex(rate).value].regVal)
  }

  /** The PLL, slot and module registers `hw_params` programs after. */
  function ClockStage(m: RegFile, clkId: bv32, cnt: int, f: PcmFormat, rate: nat, channels: bv32): RegFile
    requires cnt <= 4
  {
    var p := if clkId == SYSCLK_SRC_PLL then PllRegs(m, PllInput(rate, f, channels)) else m;
    ModulesOn(SlotRegs(p, cnt, channels))
  }

  /** The register file after a successful `hw_params`. */
  function HwParamsRegs(m: RegFile, clkId: bv32, mode: bv32, cnt: int, f: PcmFormat, rate: nat, channels: bv32): RegFile
    requires ResolutionIndex(f).Some? && RateIndex(rate).Some? && cnt <= 4
  {
    ClockStage(FormatStage(m, mode, f, rate, channels), clkId, cnt, f, rate, channels)
  }

  /** The LRCK registers followed by the resolution and rate registers
      are the format stage. */
  lemma FormatStageOf(m: RegFile, l: RegFile, after: RegFile, mode: bv32, f: PcmFormat, rate: nat, channels: bv32, width: bv32)
    requires ResolutionIndex(f).Some? && RateIndex(rate).Some? && width == BitsWord(f)
    requires l == LrckRegs(m, mode, width, Frame(width, channels))
    requires after == ResolutionRegs(l, SAMP_RES[ResolutionIndex(f).value].regVal, SAMPLE_RATE[RateIndex(rate).value].regVal)
    ensures after == FormatStage(m, mode, f, rate, channels)
  {
  }

  /** The PLL input `hw_params` computes from the listed rate and the
      table width is the one the format and the rate determine. */
  lemma PllInputOf(rate: nat, f: PcmFormat, channels: bv32, realRate: nat, width: bv32, ratio: nat)
    requires realRate == rate && width == BitsWord(f) && ratio == PllRatio(width, channels)
    ensures U32(realRate * ratio) == PllInput(rate, f, channels)
  {
    assert realRate * ratio == rate * PllRatio(BitsWord(f), channels);
  }

  /** The PLL step, the slot loop and the module writes are the clock
      stage. */
  lemma ClockStageOf(m: RegFile, p: RegFile, s: RegFile, after: RegFile, clkId: bv32, cnt: int, f: PcmFormat, rate: nat, channels: bv32)
    requires cnt <= 4
    requires p == if clkId == SYSCLK_SRC_PLL then PllRegs(m, PllInput(rate, f, channels)) else m
    requires s == SlotRegs(p, cnt, channels)
    requires after == ModulesOn(s)
    ensures after == ClockStage(m, clkId, cnt, f, rate, channels)
  {
  }

  /** The registers the format stage programs. */
  predicate FormatRegister(o: int)
  {
    o in {I2S_LRCK_CTRL1, I2S_LRCK_CTRL2, I2S_FMT_CTRL2, ADC_SPRC, HPF_EN}
  }

  /** `config_pll` leaves every other register alone. */
  lemma PllRegsKeeps(m: RegFile, freqIn: nat, o: int)
    requires !PllRegister(o)
    ensures Get(PllRegs(m, freqIn), o) == Get(m, o)
  {
    LookupFieldsFit(freqIn);
    PllReadBack(m, FieldsOf(PllLookup(freqIn)));
  }

  /** The slot loop writes only the TX1 registers. */
  lemma SlotRegsKeeps(m: RegFile, cnt: int, slots: bv32, o: int)
    requires cnt <= 4 && !(I2S_TX1_CTRL1 <= o <= I2S_TX1_CHMP_CTRL4)
    ensures Get(SlotRegs(m, cnt, slots), o) == Get(m, o)
  {
  }

  /** The clock stage leaves the format stage's registers alone. */
  lemma ClockStageKeeps(m: RegFile, clkId: bv32, cnt: int, f: PcmFormat, rate: nat, channels: bv32, o: int)
    requires cnt <= 4 && FormatRegister(o)
    ensures Get(ClockStage(m, clkId, cnt, f, rate, channels), o) == Get(m, o)
  {
    var p := if clkId == SYSCLK_SRC_PLL then PllRegs(m, PllInput(rate, f, channels)) else m;
    if clkId == SYSCLK_SRC_PLL {
      PllRegsKeeps(m, PllInput(rate, f, channels), o);
    }
    SlotRegsKeeps(p, cnt, channels, o);
  }

  /** The slot width and resolution fields both hold the resolution code,
      the rate field the rate code, and the high-pass filters are on;
      the LRCK registers are kept. */
  lemma ResolutionFields(m: RegFile, resCode: bv32, rateCode: bv32)
    requires resCode <= 7 && rateCode <= 0xf
    ensures var r := ResolutionRegs(m, resCode, rateCode);
      Get(r, I2S_FMT_CTRL2) & 7 == resCode && (Get(r, I2S_FMT_CTRL2) >> 4) & 7 == resCode &&
      Get(r, ADC_SPRC) & 0xf == rateCode && Get(r, HPF_EN) == 0x0f
    ensures var r := ResolutionRegs(m, resCode, rateCode);
      Get(r, I2S_LRCK_CTRL1) == Get(m, I2S_LRCK_CTRL1) && Get(r, I2S_LRCK_CTRL2) == Get(m, I2S_LRCK_CTRL2)
  {
    var r := ResolutionRegs(m, resCode, rateCode);
    CodePair(Get(r, I2S_FMT_CTRL2), resCode);
  }

  lemma CodePair(w: bv32, c: bv32)
    requires c <= 7 && w & 0x77 == (c | (c << 4)) & 0x77
    ensures w & 7 == c && (w >> 4) & 7 == c
  {
  }

  /** The table codes fit their register fields. */
  lemma CodesFit()
    ensures forall i :: 0 <= i < |SAMP_RES| ==> SAMP_RES[i].regVal <= 7
    ensures forall i :: 0 <= i < |SAMPLE_RATE| ==> SAMPLE_RATE[i].regVal <= 0xf
  {
  }

  /** The fields the format stage programs, read back. */
  lemma FormatStageFields(m: RegFile, mode: bv32, f: PcmFormat, rate: nat, channels: bv32)
    requires ResolutionIndex(f).Some? && RateIndex(rate).Some?
    ensures var r := FormatStage(m, mode, f, rate, channels);
      var code := SAMP_RES[ResolutionIndex(f).value].regVal;
      Get(r, I2S_FMT_CTRL2) & 7 == code && (Get(r, I2S_FMT_CTRL2) >> 4) & 7 == code &&
      Get(r, ADC_SPRC) & 0xf == SAMPLE_RATE[RateIndex(rate).value].regVal && Get(r, HPF_EN) == 0x0f
    ensures (Get(FormatStage(m, mode, f, rate, channels), I2S_LRCK_CTRL1) >> 4) & 1 == (Get(m, I2S_LRCK_CTRL1) >> 4) & 1
  {
    var bits := BitsWord(f);
    var l := LrckRegs(m, mode, bits, Frame(bits, channels));
    CodesFit();
    ResolutionFields(l, SAMP_RES[ResolutionIndex(f).value].regVal, SAMPLE_RATE[RateIndex(rate).value].regVal);
    LrckKeepsPolarity(m, mode, bits, Frame(bits, channels));
  }

  /** The LRCK period the format stage leaves. */
  lemma FormatStagePeriod(m: RegFile, mode: bv32, f: PcmFormat, rate: nat, channels: bv32)
    requires ResolutionIndex(f).Some? && RateIndex(rate).Some?
    ensures mode != PCM_FORMAT ==> LrckPeriod(FormatStage(m, mode, f, rate, channels)) == BitsWord(f)
    ensures var frame := Frame(BitsWord(f), channels);
      mode == PCM_FORMAT && 1 <= frame <= 0x400 ==> LrckPeriod(FormatStage(m, mode, f, rate, channels)) == frame
  {
    var bits := BitsWord(f);
    var frame := Frame(bits, channels);
    FormatStageLrck(m, mode, f, rate, channels);
    LrckPeriodMeaning(m, mode, bits, frame);
  }

  lemma FormatStageLrck(m: RegFile, mode: bv32, f: PcmFormat, rate: nat, channels: bv32)
    requires ResolutionIndex(f).Some? && RateIndex(rate).Some?
    ensures var l := LrckRegs(m, mode, BitsWord(f), Frame(BitsWord(f), channels));
      Get(FormatStage(m, mode, f, rate, channels), I2S_LRCK_CTRL1) == Get(l, I2S_LRCK_CTRL1) &&
      Get(FormatStage(m, mode, f, rate, channels), I2S_LRCK_CTRL2) == Get(l, I2S_LRCK_CTRL2)
  {
  }

  /** The clock stage leaves every format-stage register as it was. */
  lemma HwParamsKeepsFormat(m: RegFile, clkId: bv32, mode: bv32, cnt: int, f: PcmFormat, rate: nat, channels: bv32)
    requires ResolutionIndex(f).Some? && RateIndex(rate).Some? && cnt <= 4
    ensures forall o :: FormatRegister(o) ==>
      Get(HwParamsRegs(m, clkId, mode, cnt, f, rate, channels), o) == Get(FormatStage(m, mode, f, rate, channels), o)
  {
    var p := FormatStage(m, mode, f, rate, channels);
    forall o | FormatRegister(o)
      ensures Get(ClockStage(p, clkId, cnt, f, rate, channels), o) == Get(p, o)
    {
      ClockStageKeeps(p, clkId, cnt, f, rate, channels, o);
    }
  }

  /** After a successful `hw_params` the resolution code sits in both the
      slot-width and resolution fields, the rate's listed code in
      ADC_SPRC, the high-pass filters and the four modules are on, and
      the LRCK polarity `set_fmt` chose is kept. */
  lemma HwParamsFields(m: RegFile, clkId: bv32, mode: bv32, cnt: int, f: PcmFormat, rate: nat, channels: bv32)
    requires ResolutionIndex(f).Some? && RateIndex(rate).Some? && cnt <= 4
    ensures var r := HwParamsRegs(m, clkId, mode, cnt, f, rate, channels);
      var code := SAMP_RES[ResolutionIndex(f).value].regVal;
      Get(r, I2S_FMT_CTRL2) & 7 == code && (Get(r, I2S_FMT_CTRL2) >> 4) & 7 == code &&
      Get(r, ADC_SPRC) & 0xf == SAMPLE_RATE[RateIndex(rate).value].regVal && Get(r, HPF_EN) == 0x0f
    ensures var r := HwParamsRegs(m, clkId, mode, cnt, f, rate, channels);
      Get(r, MOD_CLK_EN) == MODULES && Get(r, MOD_RST_CTRL) == MODULES
    ensures (Get(HwParamsRegs(m, clkId, mode, cnt, f, rate, channels), I2S_LRCK_CTRL1) >> 4) & 1
         == (Get(m, I2S_LRCK_CTRL1) >> 4) & 1
  {
    FormatStageFields(m, mode, f, rate, channels);
    HwParamsKeepsFormat(m, clkId, mode, cnt, f, rate, channels);
  }

  /** After a successful `hw_params` the LRCK period is the channel width
      in the I2S and justified modes, and the frame width (width times
      channels) in PCM mode whenever that fits its 10 bits. */
  lemma HwParamsPeriod(m: RegFile, clkId: bv32, mode: bv32, cnt: int, f: PcmFormat, rate: nat, channels: bv32)
    requires ResolutionIndex(f).Some? && RateIndex(rate).Some? && cnt <= 4
    ensures mode != PCM_FORMAT ==> LrckPeriod(HwParamsRegs(m, clkId, mode, cnt, f, rate, channels)) == BitsWord(f)
    ensures var frame := Frame(BitsWord(f), channels);
      mode == PCM_FORMAT && 1 <= frame <= 0x400 ==> LrckPeriod(HwParamsRegs(m, clkId, mode, cnt, f, rate, channels)) == frame
  {
    FormatStagePeriod(m, mode, f, rate, channels);
    HwParamsKeepsFormat(m, clkId, mode, cnt, f, rate, channels);
    var r := HwParamsRegs(m, clkId, mode, cnt, f, rate, channels);
    var p := FormatStage(m, mode, f, rate, channels);
    assert Get(r, I2S_LRCK_CTRL1) == Get(p, I2S_LRCK_CTRL1);
    assert Get(r, I2S_LRCK_CTRL2) == Get(p, I2S_LRCK_CTRL2);
  }

  // ---- the debug store ----

  /** The register bound of the AC108's regmap; writes above it fail. */
  const MAX_REGISTER: bv32 := 0xdf

  /** The command word `ac108_store` parses: a flag in bits 19:16, a
      register in bits 15:8 and a value in bits 7:0. */
  datatype StoreCommand = StoreCommand(flag: bv32, reg: bv32, value: bv32)

  function ParseStore(val: bv32): (c: StoreCommand)
    ensures c.flag <= 0xf && c.reg <= 0xff && c.value <= 0xff
  {
    StoreCommand((val >> 16) & 0xf, (val >> 8) & 0xff, val & 0xff)
  }

  /** The command word for the fields of `c`, as the usage text shows
      (`echo 11055` writes 0x55 to register 0x10). */
  function StoreWord(c: StoreCommand): bv32
  {
    (c.flag << 16) | (c.reg << 8) | c.value
  }

  /** The register file after `ac108_store(val)`: a write of the value to
      the register when the flag is set and the regmap accepts the
      register, otherwise nothing (a read). */
  function StoreRegs(m: RegFile, val: bv32): RegFile
  {
    var c := ParseStore(val);
    if c.flag != 0 && c.reg <= MAX_REGISTER then Written(m, c.reg as int, c.value) else m
  }

  /** Parsing a command word gives back the fields it was built from. */
  lemma StoreRoundTrip(c: StoreCommand)
    requires c.flag <= 0xf && c.reg <= 0xff && c.value <= 0xff
    ensures ParseStore(StoreWord(c)) == c
  {
  }

  /** A write command reaches exactly its register with its value; a
      command with a zero flag changes nothing. */
  lemma StoreEffect(m: RegFile, reg: bv32, value: bv32)
    requires reg <= MAX_REGISTER && value <= 0xff
    ensures StoreRegs(m, StoreWord(StoreCommand(1, reg, value))) == Written(m, reg as int, value)
    ensures StoreRegs(m, StoreWord(StoreCommand(0, reg, value))) == m
  {
    StoreRoundTrip(StoreCommand(1, reg, value));
    StoreRoundTrip(StoreCommand(0, reg, value));
  }

  /** The usage examples: `11055` writes 0x55 to register 0x10 and
      `01000` only reads register 0x10. */
  lemma StoreExamples(m: RegFile)
    ensures StoreRegs(m, 0x11055) == Written(m, 0x10, 0x55)
    ensures StoreRegs(m, 0x01000) == m
  {
  }
}
