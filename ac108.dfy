// The AC108 four-channel ADC codec driver (ac108.c), its pure part: the
// mixer controls' get/put arithmetic and the lookup tables for sample
// resolution, sample rate and PLL dividers, with what they guarantee.
module Ac108 {
  import opened Regs
  import opened Wrappers
  import opened Errno
  import opened Ac108Regs

  const U32_LIMIT: int := 0x1_0000_0000

  /** C `unsigned int` arithmetic: the value modulo 2^32. */
  function U32(x: int): (r: nat)
    ensures r < U32_LIMIT
    ensures 0 <= x < U32_LIMIT ==> r == x
  {
    x % U32_LIMIT
  }

  // ---- mixer controls (get_volsw / put_volsw) ----

  /** `struct soc_mixer_control` as SOC_SINGLE_VALUE fills it; the
      unsigned fields keep their C width. */
  datatype MixerControl = MixerControl(reg: int, shift: bv32, max: bv32, min: bv32, invert: bool, signBit: bv32)

  /** The kernel's fls: the 1-based position of the most significant set
      bit, 0 for 0. */
  function Fls(x: bv32): (r: bv32)
    decreases x
  {
    if x == 0 then 0 else 1 + Fls(x >> 1)
  }

  /** A control whose shifts stay inside the 32-bit word. */
  predicate WellFormed(mc: MixerControl)
  {
    Fls(mc.max) < 32 && mc.shift < 32 && mc.signBit < 31
  }

  /** `(1 << fls(max)) - 1`: the all-ones mask as wide as `max`. */
  function FieldMask(max: bv32): bv32
    requires Fls(max) < 32
  {
    (1 << Fls(max)) - 1
  }

  /** `snd_ac108_get_volsw` on the register word: the field, less `min`,
      mirrored when inverted, computed in `unsigned int` and reported in
      the control's `long` (as its 64 bits). */
  function GetVolsw(mc: MixerControl, word: bv32): (v: bv64)
    requires WellFormed(mc)
    ensures v <= 0xffff_ffff
  {
    var val := ((word >> mc.shift) & FieldMask(mc.max)) - mc.min;
    (if mc.invert then mc.max - val else val) as bv64
  }

  /** An `int` field widened to `long`: sign extension. */
  function Long(x: bv32): bv64
  {
    if x < 0x8000_0000 then x as bv64 else (x as bv64) | 0xffff_ffff_0000_0000
  }

  /** The mask `put_volsw` applies to the value: a sign-bit-wide mask when
      the control has a sign bit, otherwise the fls mask. */
  function PutMask(mc: MixerControl): bv32
    requires WellFormed(mc)
  {
    if mc.signBit != 0 then (1 << (mc.signBit + 1)) - 1 else FieldMask(mc.max)
  }

  /** The field value `put_volsw` computes from the user's `long` `v`:
      `v + min` masked in `long`, then stored in `unsigned int`. */
  function PutValue(mc: MixerControl, v: bv64): bv32
    requires WellFormed(mc)
  {
    var val := ((v + Long(mc.min)) & (PutMask(mc) as bv64)) as bv32;
    if mc.invert then mc.max - val else val
  }

  /** The register word after `snd_ac108_put_volsw`. */
  function PutWord(mc: MixerControl, cur: bv32, v: bv64): bv32
    requires WellFormed(mc)
  {
    Merge(cur, PutMask(mc) << mc.shift, PutValue(mc, v) << mc.shift)
  }

  lemma FlsValues()
    ensures Fls(0x1f) == 5 && Fls(0xff) == 8
  {
    assert Fls(0) == 0;
    assert Fls(1) == 1;
    assert Fls(3) == 2;
    assert Fls(7) == 3;
    assert Fls(0xf) == 4;
    assert Fls(0x1f) == 5;
    assert Fls(0x3f) == 6;
    assert Fls(0x7f) == 7;
  }

  /** A control shaped like the driver's digital volumes, inverted or not. */
  function VolumeShaped(reg: int, invert: bool): MixerControl
  {
    MixerControl(reg, 0, 0xff, 0, invert, 0)
  }

  /** A control shaped like the driver's PGA gains, inverted or not. */
  function GainShaped(reg: int, invert: bool): MixerControl
  {
    MixerControl(reg, ANALOG_PGA, 0x1f, 0, invert, 0)
  }

  lemma VolumeGet(reg: int, invert: bool, w: bv32)
    ensures WellFormed(VolumeShaped(reg, invert))
    ensures GetVolsw(VolumeShaped(reg, invert), w) == (if invert then 0xff - (w & 0xff) else w & 0xff) as bv64
  {
    FlsValues();
  }

  lemma VolumePut(reg: int, invert: bool, cur: bv32, v: bv64)
    requires v <= 0xff
    ensures WellFormed(VolumeShaped(reg, invert))
    ensures PutWord(VolumeShaped(reg, invert), cur, v) == Merge(cur, 0xff, if invert then 0xff - v as bv32 else v as bv32)
  {
    FlsValues();
    var mc := VolumeShaped(reg, invert);
    assert PutMask(mc) == 0xff;
    assert PutValue(mc, v) == if invert then 0xff - v as bv32 else v as bv32;
  }

  /** For a digital volume, `put_volsw(v)` then `get_volsw` reports `v`
      for every value in range, inverted or not. */
  lemma VolumeRoundTrip(reg: int, invert: bool, cur: bv32, v: bv64)
    requires v <= 0xff
    ensures WellFormed(VolumeShaped(reg, invert))
    ensures GetVolsw(VolumeShaped(reg, invert), PutWord(VolumeShaped(reg, invert), cur, v)) == v
  {
    VolumePut(reg, invert, cur, v);
    var f := if invert then 0xff - v as bv32 else v as bv32;
    VolumeGet(reg, invert, Merge(cur, 0xff, f));
    VolumeBack(cur, f, v, invert);
  }

  /** For a digital volume, `put_volsw` changes only the low eight bits
      of the register. */
  lemma VolumePutKeeps(reg: int, invert: bool, cur: bv32, v: bv64)
    requires v <= 0xff
    ensures WellFormed(VolumeShaped(reg, invert))
    ensures PutWord(VolumeShaped(reg, invert), cur, v) & !0xff == cur & !0xff
  {
    VolumePut(reg, invert, cur, v);
  }

  lemma VolumeBack(cur: bv32, f: bv32, v: bv64, invert: bool)
    requires v <= 0xff && f == if invert then 0xff - v as bv32 else v as bv32
    ensures (if invert then 0xff - (Merge(cur, 0xff, f) & 0xff) else Merge(cur, 0xff, f) & 0xff) as bv64 == v
  {
    assert Merge(cur, 0xff, f) & 0xff == f & 0xff;
  }

  /** For a digital volume, putting back the value `get_volsw` reports
      leaves the register word as it was. */
  lemma VolumePutGet(reg: int, invert: bool, w: bv32)
    ensures WellFormed(VolumeShaped(reg, invert))
    ensures GetVolsw(VolumeShaped(reg, invert), w) <= 0xff
    ensures PutWord(VolumeShaped(reg, invert), w, GetVolsw(VolumeShaped(reg, invert), w)) == w
  {
    VolumeGet(reg, invert, w);
    var v := GetVolsw(VolumeShaped(reg, invert), w);
    VolumeKept(w, v, invert);
    VolumePut(reg, invert, w, v);
  }

  lemma VolumeKept(w: bv32, v: bv64, invert: bool)
    requires v == (if invert then 0xff - (w & 0xff) else w & 0xff) as bv64
    ensures v <= 0xff
    ensures Merge(w, 0xff, if invert then 0xff - v as bv32 else v as bv32) == w
  {
    assert (if invert then 0xff - v as bv32 else v as bv32) == w & 0xff;
  }

  lemma GainGet(reg: int, invert: bool, w: bv32)
    ensures WellFormed(GainShaped(reg, invert))
    ensures GetVolsw(GainShaped(reg, invert), w) == (if invert then 0x1f - ((w >> 1) & 0x1f) else (w >> 1) & 0x1f) as bv64
  {
    FlsValues();
  }

  lemma GainPut(reg: int, invert: bool, cur: bv32, v: bv64)
    requires v <= 0x1f
    ensures WellFormed(GainShaped(reg, invert))
    ensures PutWord(GainShaped(reg, invert), cur, v) == Merge(cur, 0x3e, (if invert then 0x1f - v as bv32 else v as bv32) << 1)
  {
    FlsValues();
    var mc := GainShaped(reg, invert);
    assert PutMask(mc) == 0x1f;
    assert PutValue(mc, v) == if invert then 0x1f - v as bv32 else v as bv32;
  }

  /** For a PGA gain, `put_volsw(v)` then `get_volsw` reports `v` for
      every value in range, inverted or not. */
  lemma GainRoundTrip(reg: int, invert: bool, cur: bv32, v: bv64)
    requires v <= 0x1f
    ensures WellFormed(GainShaped(reg, invert))
    ensures GetVolsw(GainShaped(reg, invert), PutWord(GainShaped(reg, invert), cur, v)) == v
  {
    GainPut(reg, invert, cur, v);
    var f := if invert then 0x1f - v as bv32 else v as bv32;
    GainGet(reg, invert, Merge(cur, 0x3e, f << 1));
    GainBack(cur, f, v, invert);
  }

  /** For a PGA gain, `put_volsw` changes only bits 5:1 of the register. */
  lemma GainPutKeeps(reg: int, invert: bool, cur: bv32, v: bv64)
    requires v <= 0x1f
    ensures WellFormed(GainShaped(reg, invert))
    ensures PutWord(GainShaped(reg, invert), cur, v) & !0x3e == cur & !0x3e
  {
    GainPut(reg, invert, cur, v);
  }

  lemma GainBack(cur: bv32, f: bv32, v: bv64, invert: bool)
    requires v <= 0x1f && f == if invert then 0x1f - v as bv32 else v as bv32
    ensures (if invert then 0x1f - ((Merge(cur, 0x3e, f << 1) >> 1) & 0x1f) else (Merge(cur, 0x3e, f << 1) >> 1) & 0x1f) as bv64 == v
  {
    assert (Merge(cur, 0x3e, f << 1) >> 1) & 0x1f == f;
  }

  /** For a PGA gain, putting back the value `get_volsw` reports leaves
      the register word as it was. */
  lemma GainPutGet(reg: int, invert: bool, w: bv32)
    ensures WellFormed(GainShaped(reg, invert))
    ensures GetVolsw(GainShaped(reg, invert), w) <= 0x1f
    ensures PutWord(GainShaped(reg, invert), w, GetVolsw(GainShaped(reg, invert), w)) == w
  {
    GainGet(reg, invert, w);
    var v := GetVolsw(GainShaped(reg, invert), w);
    GainKept(w, v, invert);
    GainPut(reg, invert, w, v);
  }

  lemma GainKept(w: bv32, v: bv64, invert: bool)
    requires v == (if invert then 0x1f - ((w >> 1) & 0x1f) else (w >> 1) & 0x1f) as bv64
    ensures v <= 0x1f
    ensures Merge(w, 0x3e, (if invert then 0x1f - v as bv32 else v as bv32) << 1) == w
  {
    assert (if invert then 0x1f - v as bv32 else v as bv32) == (w >> 1) & 0x1f;
  }

  /** The eight controls of `ac108_snd_controls`: the four digital channel
      volumes and the four analog PGA gains, none inverted. */
  const CONTROLS: seq<MixerControl> := [
    VolumeShaped(ADC1_DVOL_CTRL, false), VolumeShaped(ADC2_DVOL_CTRL, false),
    VolumeShaped(ADC3_DVOL_CTRL, false), VolumeShaped(ADC4_DVOL_CTRL, false),
    GainShaped(ANA_PGA1_CTRL, false), GainShaped(ANA_PGA2_CTRL, false),
    GainShaped(ANA_PGA3_CTRL, false), GainShaped(ANA_PGA4_CTRL, false)
  ]

  /** Every control of the driver reads back what was put, for every value
      up to its maximum. */
  lemma ControlsRoundTrip(i: int, cur: bv32, v: bv64)
    requires 0 <= i < |CONTROLS| && v <= CONTROLS[i].max as bv64
    ensures WellFormed(CONTROLS[i])
    ensures GetVolsw(CONTROLS[i], PutWord(CONTROLS[i], cur, v)) == v
  {
    var mc := CONTROLS[i];
    var reg := mc.reg;
    if i < 4 {
      assert mc == VolumeShaped(reg, false);
      assert v <= 0xff;
      VolumeRoundTrip(reg, false, cur, v);
    } else {
      assert mc == GainShaped(reg, false);
      assert v <= 0x1f;
      GainRoundTrip(reg, false, cur, v);
    }
  }

  /** Every control of the driver reports a value no larger than its
      maximum, and putting that value back leaves the register as it was. */
  lemma ControlsInRange(i: int, cur: bv32)
    requires 0 <= i < |CONTROLS|
    ensures WellFormed(CONTROLS[i])
    ensures GetVolsw(CONTROLS[i], cur) <= CONTROLS[i].max as bv64
    ensures PutWord(CONTROLS[i], cur, GetVolsw(CONTROLS[i], cur)) == cur
  {
    var mc := CONTROLS[i];
    if i < 4 {
      assert mc == VolumeShaped(mc.reg, false);
      VolumePutGet(mc.reg, false, cur);
    } else {
      assert mc == GainShaped(mc.reg, false);
      GainPutGet(mc.reg, false, cur);
    }
  }

  // ---- lookup tables ----

  /** `struct real_val_to_reg_val`. */
  datatype RealToReg = RealToReg(realVal: nat, regVal: bv32)

  /** `ac108_samp_res`: sample resolutions in bits and their codes. */
  const SAMP_RES: seq<RealToReg> := [
    RealToReg(8, 1), RealToReg(12, 2), RealToReg(16, 3), RealToReg(20, 4),
    RealToReg(24, 5), RealToReg(28, 6), RealToReg(32, 7)
  ]

  /** `ac108_sample_rate`: sample rates in Hz and their ADC_SPRC codes. */
  const SAMPLE_RATE: seq<RealToReg> := [
    RealToReg(8000, 0), RealToReg(11025, 1), RealToReg(12000, 2), RealToReg(16000, 3),
    RealToReg(22050, 4), RealToReg(24000, 5), RealToReg(32000, 6), RealToReg(44100, 7),
    RealToReg(48000, 8), RealToReg(96000, 9)
  ]

  /** The PCM sample formats `hw_params` distinguishes; every other
      format is `OtherFormat`. */
  datatype PcmFormat = S8 | S16Le | S20_3Le | S24Le | S32Le | OtherFormat(code: int)

  /** The sample width each format carries, in bits. */
  function SampleBits(f: PcmFormat): nat
  {
    match f
    case S8 => 8
    case S16Le => 16
    case S20_3Le => 20
    case S24Le => 24
    case S32Le => 32
    case OtherFormat(_) => 0
  }

  /** The `samp_res` index `hw_params` picks for a format. */
  function ResolutionIndex(f: PcmFormat): (r: Option<nat>)
    ensures r.Some? ==> r.value < |SAMP_RES|
  {
    match f
    case S8 => Some(0)
    case S16Le => Some(2)
    case S20_3Le => Some(3)
    case S24Le => Some(4)
    case S32Le => Some(6)
    case OtherFormat(_) => None
  }

  /** The five supported formats, and only they, find a resolution, and
      the one they find has the format's own width. */
  lemma ResolutionMatchesFormat(f: PcmFormat)
    ensures ResolutionIndex(f).Some? <==> !f.OtherFormat?
    ensures ResolutionIndex(f).Some? ==> SAMP_RES[ResolutionIndex(f).value].realVal == SampleBits(f)
  {
  }

  /** The first index at or after `from` whose real value is `x`. */
  function FindReal(t: seq<RealToReg>, x: nat, from: nat): (r: Option<nat>)
    requires from <= |t|
    ensures r.Some? ==> from <= r.value < |t| && t[r.value].realVal == x
    ensures r.Some? ==> forall j :: from <= j < r.value ==> t[j].realVal != x
    ensures r.None? ==> forall j :: from <= j < |t| ==> t[j].realVal != x
    decreases |t| - from
  {
    if from == |t| then None
    else if t[from].realVal == x then Some(from)
    else FindReal(t, x, from + 1)
  }

  /** The sample-rate index `hw_params` finds, if the rate is listed. */
  function RateIndex(rate: nat): Option<nat>
  {
    FindReal(SAMPLE_RATE, rate, 0)
  }

  /** Each rate's code is its position in the table. */
  lemma RateCodesArePositions()
    ensures forall i :: 0 <= i < |SAMPLE_RATE| ==> SAMPLE_RATE[i].regVal == i as bv32
  {
  }

  /** A rate is accepted exactly when it is listed, and the code written
      for it is the listed entry's position. */
  lemma RateIndexExact(rate: nat)
    ensures RateIndex(rate).Some? <==> exists i :: 0 <= i < |SAMPLE_RATE| && SAMPLE_RATE[i].realVal == rate
    ensures RateIndex(rate).Some? ==>
      SAMPLE_RATE[RateIndex(rate).value].realVal == rate && SAMPLE_RATE[RateIndex(rate).value].regVal == RateIndex(rate).value as bv32
  {
    RateCodesArePositions();
  }

  // ---- the PLL table ----

  /** `struct pll_div`: FOUT = FIN * N / ((M1+1) (M2+1) (K1+1) (K2+1)). */
  datatype PllDiv = PllDiv(freqIn: nat, freqOut: nat, m1: nat, m2: nat, n: nat, k1: nat, k2: nat)

  /** The all-zero divider `config_pll` starts from. */
  const NO_DIV: PllDiv := PllDiv(0, 0, 0, 0, 0, 0, 0)

  /** Bit-clock inputs to 24.576 MHz. */
  const PLL_24M: seq<PllDiv> := [
    PllDiv(400000, FREQ_24_576K, 0, 0, 614, 4, 1),
    PllDiv(512000, FREQ_24_576K, 0, 0, 960, 9, 1),
    PllDiv(768000, FREQ_24_576K, 0, 0, 640, 9, 1),
    PllDiv(800000, FREQ_24_576K, 0, 0, 614, 9, 1),
    PllDiv(1024000, FREQ_24_576K, 0, 0, 480, 9, 1),
    PllDiv(1600000, FREQ_24_576K, 0, 0, 307, 9, 1),
    PllDiv(2048000, FREQ_24_576K, 0, 0, 240, 9, 1),
    PllDiv(3072000, FREQ_24_576K, 0, 0, 160, 9, 1),
    PllDiv(4096000, FREQ_24_576K, 2, 0, 360, 9, 1),
    PllDiv(6000000, FREQ_24_576K, 4, 0, 410, 9, 1),
    PllDiv(12000000, FREQ_24_576K, 9, 0, 410, 9, 1),
    PllDiv(13000000, FREQ_24_576K, 8, 0, 340, 9, 1),
    PllDiv(15360000, FREQ_24_576K, 12, 0, 415, 9, 1),
    PllDiv(16000000, FREQ_24_576K, 12, 0, 400, 9, 1),
    PllDiv(19200000, FREQ_24_576K, 15, 0, 410, 9, 1),
    PllDiv(19680000, FREQ_24_576K, 15, 0, 400, 9, 1),
    PllDiv(24000000, FREQ_24_576K, 4, 0, 128, 24, 0)
  ]
  /** The same inputs to 22.5792 MHz. */
  const PLL_22M: seq<PllDiv> := [
    PllDiv(400000, FREQ_22_579K, 0, 0, 566, 4, 1),
    PllDiv(512000, FREQ_22_579K, 0, 0, 880, 9, 1),
    PllDiv(768000, FREQ_22_579K, 0, 0, 587, 9, 1),
    PllDiv(800000, FREQ_22_579K, 0, 0, 567, 9, 1),
    PllDiv(1024000, FREQ_22_579K, 0, 0, 440, 9, 1),
    PllDiv(1600000, FREQ_22_579K, 1, 0, 567, 9, 1),
    PllDiv(2048000, FREQ_22_579K, 0, 0, 220, 9, 1),
    PllDiv(3072000, FREQ_22_579K, 0, 0, 148, 9, 1),
    PllDiv(4096000, FREQ_22_579K, 2, 0, 330, 9, 1),
    PllDiv(6000000, FREQ_22_579K, 2, 0, 227, 9, 1),
    PllDiv(12000000, FREQ_22_579K, 8, 0, 340, 9, 1),
    PllDiv(13000000, FREQ_22_579K, 9, 0, 350, 9, 1),
    PllDiv(15360000, FREQ_22_579K, 10, 0, 325, 9, 1),
    PllDiv(16000000, FREQ_22_579K, 11, 0, 340, 9, 1),
    PllDiv(19200000, FREQ_22_579K, 13, 0, 330, 9, 1),
    PllDiv(19680000, FREQ_22_579K, 14, 0, 345, 9, 1),
    PllDiv(24000000, FREQ_22_579K, 24, 0, 588, 24, 0)
  ]
  /** Sub-multiples of 24.576 MHz to 24.576 MHz. */
  const PLL_24M_SUB: seq<PllDiv> := [
    PllDiv(FREQ_24_576K / 1, FREQ_24_576K, 9, 0, 200, 9, 1),
    PllDiv(FREQ_24_576K / 2, FREQ_24_576K, 9, 0, 400, 9, 1),
    PllDiv(FREQ_24_576K / 4, FREQ_24_576K, 4, 0, 400, 9, 1),
    PllDiv(FREQ_24_576K / 16, FREQ_24_576K, 0, 0, 320, 9, 1),
    PllDiv(FREQ_24_576K / 64, FREQ_24_576K, 0, 0, 640, 4, 1),
    PllDiv(FREQ_24_576K / 96, FREQ_24_576K, 0, 0, 960, 4, 1),
    PllDiv(FREQ_24_576K / 128, FREQ_24_576K, 0, 0, 512, 1, 1),
    PllDiv(FREQ_24_576K / 176, FREQ_24_576K, 0, 0, 880, 4, 0),
    PllDiv(FREQ_24_576K / 192, FREQ_24_576K, 0, 0, 960, 4, 0)
  ]
  /** Sub-multiples of 22.5792 MHz to 22.5792 MHz. */
  const PLL_22M_SUB: seq<PllDiv> := [
    PllDiv(FREQ_22_579K / 1, FREQ_22_579K, 9, 0, 200, 9, 1),
    PllDiv(FREQ_22_579K / 2, FREQ_22_579K, 9, 0, 400, 9, 1),
    PllDiv(FREQ_22_579K / 4, FREQ_22_579K, 4, 0, 400, 9, 1),
    PllDiv(FREQ_22_579K / 16, FREQ_22_579K, 0, 0, 320, 9, 1),
    PllDiv(FREQ_22_579K / 64, FREQ_22_579K, 0, 0, 640, 4, 1),
    PllDiv(FREQ_22_579K / 96, FREQ_22_579K, 0, 0, 960, 4, 1),
    PllDiv(FREQ_22_579K / 128, FREQ_22_579K, 0, 0, 512, 1, 1),
    PllDiv(FREQ_22_579K / 176, FREQ_22_579K, 0, 0, 880, 4, 0),
    PllDiv(FREQ_22_579K / 192, FREQ_22_579K, 0, 0, 960, 4, 0)
  ]
  /** Further sub-multiples of 22.5792 MHz to 22.5792 MHz. */
  const PLL_22M_SUB2: seq<PllDiv> := [
    PllDiv(FREQ_22_579K / 6, FREQ_22_579K, 2, 0, 360, 9, 1),
    PllDiv(FREQ_22_579K / 8, FREQ_22_579K, 0, 0, 160, 9, 1),
    PllDiv(FREQ_22_579K / 12, FREQ_22_579K, 0, 0, 240, 9, 1),
    PllDiv(FREQ_22_579K / 24, FREQ_22_579K, 0, 0, 480, 9, 1),
    PllDiv(FREQ_22_579K / 32, FREQ_22_579K, 0, 0, 640, 9, 1),
    PllDiv(FREQ_22_579K / 48, FREQ_22_579K, 0, 0, 960, 9, 1)
  ]
  /** `ac108_pll_div_list`, in the source's order. */
  const PLL_DIVS: seq<PllDiv> := PLL_24M + PLL_22M + PLL_24M_SUB + PLL_22M_SUB + PLL_22M_SUB2

  /** The divider fields fit their register fields: M1 and K1 five bits,
      M2 and K2 one bit, N ten bits. */
  predicate Fits(d: PllDiv)
  {
    d.m1 <= 31 && d.m2 <= 1 && d.n <= 1023 && d.k1 <= 31 && d.k2 <= 1
  }

  /** (M1+1) (M2+1) (K1+1) (K2+1). */
  function Divisor(d: PllDiv): nat
  {
    (d.m1 + 1) * (d.m2 + 1) * (d.k1 + 1) * (d.k2 + 1)
  }

  /** FIN * N is within 1% of FOUT times the divisor: the divider produces
      the row's `freq_out` to within 1%. */
  predicate Accurate(d: PllDiv)
  {
    var fout := d.freqIn * d.n;
    var want := d.freqOut * Divisor(d);
    100 * (if fout < want then want - fout else fout - want) <= want
  }

  predicate GoodRow(d: PllDiv)
  {
    Fits(d) && Accurate(d) && d.freqOut != 0
  }

  lemma Good24M() ensures forall d :: d in PLL_24M ==> GoodRow(d) { }
  lemma Good22M() ensures forall d :: d in PLL_22M ==> GoodRow(d) { }
  lemma Good24MSub() ensures forall d :: d in PLL_24M_SUB ==> GoodRow(d) { }
  lemma Good22MSub() ensures forall d :: d in PLL_22M_SUB ==> GoodRow(d) { }
  lemma Good22MSub2() ensures forall d :: d in PLL_22M_SUB2 ==> GoodRow(d) { }

  /** Every row of the table fits the registers and produces its output
      frequency to within 1%. */
  lemma PllTableGood()
    ensures forall i :: 0 <= i < |PLL_DIVS| ==> GoodRow(PLL_DIVS[i])
  {
    Good24M(); Good22M(); Good24MSub(); Good22MSub(); Good22MSub2();
    forall i | 0 <= i < |PLL_DIVS|
      ensures GoodRow(PLL_DIVS[i])
    {
      assert PLL_DIVS[i] in PLL_DIVS;
    }
  }

  /** The first row at or after `from` whose input frequency is `f`. */
  function FindPll(f: nat, from: nat): (r: Option<nat>)
    requires from <= |PLL_DIVS|
    ensures r.Some? ==> from <= r.value < |PLL_DIVS| && PLL_DIVS[r.value].freqIn == f
    ensures r.Some? ==> forall j :: from <= j < r.value ==> PLL_DIVS[j].freqIn != f
    ensures r.None? ==> forall j :: from <= j < |PLL_DIVS| ==> PLL_DIVS[j].freqIn != f
    decreases |PLL_DIVS| - from
  {
    if from == |PLL_DIVS| then None
    else if PLL_DIVS[from].freqIn == f then Some(from)
    else FindPll(f, from + 1)
  }

  /** The divider `config_pll` programs for an input frequency: the first
      matching row, or all zeros. */
  function PllLookup(f: nat): (d: PllDiv)
  {
    match FindPll(f, 0)
    case Some(i) => PLL_DIVS[i]
    case None => NO_DIV
  }

  /** The programmed divider always fits the registers; when a row
      matches, it is accurate and takes `f` in. */
  lemma PllLookupGood(f: nat)
    ensures Fits(PllLookup(f))
    ensures FindPll(f, 0).Some? ==> Accurate(PllLookup(f)) && PllLookup(f).freqIn == f
    ensures FindPll(f, 0).None? ==> PllLookup(f) == NO_DIV
  {
    PllTableGood();
  }

  /** The 22.5792 MHz rows for bit-clock inputs repeat the inputs of the
      24.576 MHz rows before them. */
  lemma RepeatedInputs()
    ensures |PLL_24M| == |PLL_22M| == 17
    ensures forall k :: 0 <= k < 17 ==> PLL_22M[k].freqIn == PLL_24M[k].freqIn
  {
  }

  /** Since the search takes the first row whose input matches, the
      second block of rows (17 to 33) is never programmed: each of its
      inputs selects the 24.576 MHz row seventeen places earlier or one
      before it. */
  lemma ShadowedRows(j: nat)
    requires 17 <= j < 34
    ensures FindPll(PLL_DIVS[j].freqIn, 0).Some?
    ensures FindPll(PLL_DIVS[j].freqIn, 0).value <= j - 17
  {
    RepeatedInputs();
    assert PLL_DIVS[j] == PLL_22M[j - 17];
    assert PLL_DIVS[j - 17] == PLL_24M[j - 17];
  }

  /** No row of a block takes `f` in. */
  predicate Misses(block: seq<PllDiv>, f: nat)
  {
    forall d :: d in block ==> d.freqIn != f
  }

  lemma MissesAll(f: nat)
    requires Misses(PLL_24M, f) && Misses(PLL_22M, f) && Misses(PLL_24M_SUB, f)
    requires Misses(PLL_22M_SUB, f) && Misses(PLL_22M_SUB2, f)
    ensures FindPll(f, 0).None?
  {
    forall j | 0 <= j < |PLL_DIVS|
      ensures PLL_DIVS[j].freqIn != f
    {
      assert PLL_DIVS[j] in PLL_DIVS;
    }
  }

  lemma Misses9216000Sub24M()
    ensures Misses(PLL_24M_SUB, 9216000)
  {
  }

  lemma Misses9216000Sub22M()
    ensures Misses(PLL_22M_SUB, 9216000)
  {
  }

  lemma Misses9216000Sub2()
    ensures Misses(PLL_22M_SUB2, 9216000)
  {
  }

  lemma Misses9216000()
    ensures Misses(PLL_24M, 9216000) && Misses(PLL_22M, 9216000)
  {
  }

  /** 48 kHz, S24_LE, two channels: `hw_params` asks for an input of
      48000 * 24 * 2 * 4 = 9216000 Hz, which no row lists, so the PLL is
      programmed with the all-zero divider and `sysclk` becomes 0. */
  lemma UnlistedInput()
    ensures FindPll(U32(48000 * U32(24 * 2 * 4)), 0).None?
    ensures PllLookup(U32(48000 * U32(24 * 2 * 4))) == NO_DIV
  {
    assert U32(48000 * U32(24 * 2 * 4)) == 9216000;
    Misses9216000();
    Misses9216000Sub24M();
    Misses9216000Sub22M();
    Misses9216000Sub2();
    MissesAll(9216000);
  }
}
