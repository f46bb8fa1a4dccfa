// The AC108 driver state `struct ac108_priv` and the operations that
// change it (ac108.c): the chip reset of the I2C probe, the DAI
// operations set_sysclk, set_fmt and hw_params with their helpers
// config_pll, multi_chips_slots and configure_power, the mixer control
// get and put, and the debug register store. Each method is proved to
// leave the register file as its specification function in Ac108Codec
// describes.
module Ac108Priv {
  import opened Regs
  import opened Wrappers
  import opened Errno
  import opened Ac108Regs
  import opened Ac108
  import opened Ac108Codec

  /** The search of `hw_params` through `ac108_sample_rate`. */
  method LookupRate(rate: nat) returns (idx: Option<nat>)
    ensures idx == RateIndex(rate)
  {
    var i := 0;
    while i < |SAMPLE_RATE|
      invariant 0 <= i <= |SAMPLE_RATE|
      invariant FindReal(SAMPLE_RATE, rate, i) == RateIndex(rate)
    {
      if SAMPLE_RATE[i].realVal == rate {
        return Some(i);
      }
      i := i + 1;
    }
    return None;
  }

  /** The search of `config_pll` through `ac108_pll_div_list`: the first
      row for the input frequency, or the all-zero divider it starts
      from. */
  method LookupPll(freqIn: nat) returns (d: PllDiv)
    ensures d == PllLookup(freqIn)
  {
    d := NO_DIV;
    var i := 0;
    while i < |PLL_DIVS|
      invariant 0 <= i <= |PLL_DIVS|
      invariant FindPll(freqIn, i) == FindPll(freqIn, 0)
    {
      if PLL_DIVS[i].freqIn == freqIn {
        d := PLL_DIVS[i];
        return;
      }
      i := i + 1;
    }
  }

  /** `struct ac108_priv`: the regmap of the chip, the number of chips,
      the clock choices of `set_sysclk`, the PLL output `config_pll`
      reached and the serial mode `set_fmt` chose. */
  class Codec {
    const rm: RegMap
    var codecCnt: int
    var mclk: nat
    var sysclk: nat
    var clkId: bv32
    var i2sMode: bv32

    /** The I2C probe on zeroed private data: the chip is reset and one
        chip is counted. */
    constructor (init: RegFile)
      ensures fresh(rm)
      ensures rm.regs == Written(init, CHIP_RST, CHIP_RST_VAL)
      ensures codecCnt == 1 && mclk == 0 && sysclk == 0 && clkId == 0 && i2sMode == 0
    {
      var r := new RegMap(init);
      r.Write(CHIP_RST, CHIP_RST_VAL);
      rm := r;
      codecCnt := 1;
      mclk := 0;
      sysclk := 0;
      clkId := 0;
      i2sMode := 0;
    }

    /** `ac108_set_sysclk`: whatever the caller asks, the system clock is
        taken from the PLL and the master clock is 24 MHz. */
    method SetSysclk(id: int, freq: nat, dir: int) returns (r: int)
      modifies rm, this`mclk, this`clkId
      ensures r == 0
      ensures rm.regs == BitsUpdated(old(rm.regs), SYSCLK_CTRL, 1 << SYSCLK_SRC, SYSCLK_SRC_PLL << SYSCLK_SRC)
      ensures mclk == 24_000_000 && clkId == SYSCLK_SRC_PLL
    {
      rm.UpdateBits(SYSCLK_CTRL, 1 << SYSCLK_SRC, SYSCLK_SRC_PLL << SYSCLK_SRC);
      mclk := 24_000_000;
      clkId := SYSCLK_SRC_PLL;
      return 0;
    }

    /** `ac108_config_pll`: with the PLL as system clock, program the
        divider for the bit-clock input `rate * ratio` (in `unsigned
        int`) and record the row's output; otherwise do nothing. */
    method ConfigPll(rate: nat, ratio: nat) returns (r: int)
      modifies rm, this`sysclk
      ensures r == 0
      ensures clkId == SYSCLK_SRC_PLL ==>
        rm.regs == PllRegs(old(rm.regs), U32(rate * ratio)) &&
        sysclk == PllLookup(U32(rate * ratio)).freqOut
      ensures clkId != SYSCLK_SRC_PLL ==> rm.regs == old(rm.regs) && sysclk == old(sysclk)
    {
      if clkId == SYSCLK_SRC_PLL {
        var freqIn := U32(rate * ratio);
        var d := LookupPll(freqIn);
        PllLookupGood(freqIn);
        var f := FieldsOf(d);
        WritePllDivider(f);
        sysclk := d.freqOut;
      }
      return 0;
    }

    /** The seven PLL writes of `config_pll` for the divider fields `f`. */
    method WritePllDivider(f: DividerFields)
      modifies rm
      ensures rm.regs == PllProgrammed(old(rm.regs), f)
    {
      WriteDividerWords(f);
      EnablePll();
    }

    method WriteDividerWords(f: DividerFields)
      modifies rm
      ensures rm.regs == PllDivided(old(rm.regs), f)
    {
      rm.UpdateBits(PLL_CTRL5, (0x1f << PLL_POSTDIV1) | (1 << PLL_POSTDIV2),
                    (f.k1 << PLL_POSTDIV1) | (f.k2 << PLL_POSTDIV2));
      rm.UpdateBits(PLL_CTRL4, 0xff << PLL_LOOPDIV_LSB, (f.n & 0xff) << PLL_LOOPDIV_LSB);
      rm.UpdateBits(PLL_CTRL3, 3 << PLL_LOOPDIV_MSB, (f.n >> 8) << PLL_LOOPDIV_MSB);
      rm.UpdateBits(PLL_CTRL2, (0x1f << PLL_PREDIV1) | (1 << PLL_PREDIV2),
                    (f.m1 << PLL_PREDIV1) | (f.m2 << PLL_PREDIV2));
    }

    method EnablePll()
      modifies rm
      ensures rm.regs == PllEnabled(old(rm.regs))
    {
      rm.UpdateBits(PLL_LOCK_CTRL, 1 << PLL_LOCK_EN, 1 << PLL_LOCK_EN);
      rm.UpdateBits(SYSCLK_CTRL, (1 << PLLCLK_EN) | (3 << PLLCLK_SRC) | (1 << SYSCLK_SRC) | (1 << SYSCLK_EN),
                    (1 << PLLCLK_EN) | (PLL_SRC_BCLK << PLLCLK_SRC) | (1 << SYSCLK_SRC) | (1 << SYSCLK_EN));
      rm.UpdateBits(PLL_CTRL1, (1 << PLL_EN) | (1 << PLL_COM_EN), (1 << PLL_EN) | (1 << PLL_COM_EN));
    }

    /** The slot-enable writes of one pass of `multi_chips_slots`: the
        slot count less one (the 8-bit regmap keeps its low byte) and the
        two bytes of the slot mask. */
    method WriteSlotMask(slots: bv32, vec: bv32)
      modifies rm
      ensures rm.regs == old(rm.regs)[I2S_TX1_CTRL1 := (slots - 1) & 0xff][I2S_TX1_CTRL2 := vec & 0xff]
                                     [I2S_TX1_CTRL3 := (vec >> 8) & 0xff]
    {
      rm.Write(I2S_TX1_CTRL1, (slots - 1) & 0xff);
      rm.Write(I2S_TX1_CTRL2, vec & 0xff);
      rm.Write(I2S_TX1_CTRL3, (vec >> 8) & 0xff);
    }

    /** The channel-map writes of one pass: the four bytes of the map. */
    method WriteChannelMap(vec: bv32)
      modifies rm
      ensures rm.regs == old(rm.regs)[I2S_TX1_CHMP_CTRL1 := vec & 0xff][I2S_TX1_CHMP_CTRL2 := (vec >> 8) & 0xff]
                                     [I2S_TX1_CHMP_CTRL3 := (vec >> 16) & 0xff][I2S_TX1_CHMP_CTRL4 := (vec >> 24) & 0xff]
    {
      rm.Write(I2S_TX1_CHMP_CTRL1, vec & 0xff);
      rm.Write(I2S_TX1_CHMP_CTRL2, (vec >> 8) & 0xff);
      rm.Write(I2S_TX1_CHMP_CTRL3, (vec >> 16) & 0xff);
      rm.Write(I2S_TX1_CHMP_CTRL4, (vec >> 24) & 0xff);
    }

    /** `ac108_multi_chips_slots`: one pass per chip over the TX1 slot
        enables and channel maps. With more than two chips the map is
        the slot mask left in `vec`. */
    method MultiChipsSlots(slots: bv32) returns (r: int)
      requires codecCnt <= 4
      modifies rm
      ensures r == 0
      ensures rm.regs == SlotRegs(old(rm.regs), codecCnt, slots)
    {
      var i := 0;
      while i < codecCnt
        invariant 0 <= i && (i <= codecCnt || i == 0)
        invariant rm.regs == if i == 0 then old(rm.regs) else SlotWords(old(rm.regs), codecCnt, slots, i - 1)
      {
        ghost var before := rm.regs;
        var vec := if codecCnt == 1 then 0xf else VEC_MASK[i];
        ghost var mask := vec;
        WriteSlotMask(slots, vec);
        if codecCnt == 1 {
          vec := (0 << 0) | (1 << 2) | (2 << 4) | (3 << 6);
        } else if codecCnt == 2 {
          vec := VEC_MAPS[i];
        }
        WriteChannelMap(vec);
        SlotPass(before, rm.regs, codecCnt, slots, i, mask, vec);
        if i > 0 {
          SlotWordsAgain(old(rm.regs), codecCnt, slots, i - 1, i);
        }
        i := i + 1;
      }
      return 0;
    }

    /** `ac108_configure_power`. */
    method ConfigurePower() returns (r: int)
      modifies rm
      ensures r == 0
      ensures rm.regs == PowerOn(old(rm.regs))
    {
      rm.UpdateBits(PWR_CTRL6, 1 << LDO33ANA_ENABLE, 1 << LDO33ANA_ENABLE);
      rm.UpdateBits(PWR_CTRL7, (0x1f << VREF_SEL) | (1 << VREF_FASTSTART_ENABLE) | (1 << VREF_ENABLE),
                    (0x13 << VREF_SEL) | (0 << VREF_FASTSTART_ENABLE) | (1 << VREF_ENABLE));
      rm.UpdateBits(PWR_CTRL9, (1 << VREFP_FASTSTART_ENABLE) | (3 << VREFP_RESCTRL) | (7 << IGEN_TRIM) | (1 << VREFP_ENABLE),
                    (0 << VREFP_FASTSTART_ENABLE) | (0 << VREFP_RESCTRL) | (4 << IGEN_TRIM) | (1 << VREFP_ENABLE));
      return 0;
    }

    /** `ac108_set_fmt`: the clocking role, then the framing (recorded as
        the serial mode before the polarity is looked at), then the
        polarities; each refusal returns -EINVAL at once. */
    method SetFmt(fmt: bv32) returns (r: int)
      modifies rm, this`i2sMode
      ensures rm.regs == SetFmtRegs(old(rm.regs), fmt)
      ensures r == if FmtAccepted(fmt) then 0 else -EINVAL
      ensures i2sMode == if I2sCtrlValue(fmt).Some? && FramingOf(fmt).Some? then FramingOf(fmt).value.mode else old(i2sMode)
    {
      var ctrl := I2sCtrlValue(fmt);
      if ctrl.None? {
        return -EINVAL;
      }
      rm.UpdateBits(I2S_CTRL, I2S_CTRL_MASK, ctrl.value);
      var framing := FramingOf(fmt);
      if framing.None? {
        return -EINVAL;
      }
      i2sMode := framing.value.mode;
      var pol := PolarityOf(fmt);
      if pol.None? {
        return -EINVAL;
      }
      WriteFormatTail(framing.value, pol.value);
      return 0;
    }

    /** The writes of `set_fmt` after I2S_CTRL once the framing and the
        polarity are known; `fr.mode` is the serial mode just stored. */
    method WriteFormatTail(fr: Framing, pol: Polarity)
      modifies rm
      ensures rm.regs == FormatTail(old(rm.regs), fr, pol)
    {
      var ignored := ConfigurePower();
      rm.UpdateBits(I2S_BCLK_CTRL, 1 << BCLK_POLARITY, pol.bclk << BCLK_POLARITY);
      rm.UpdateBits(I2S_LRCK_CTRL1, 1 << LRCK_POLARITY, pol.lrck << LRCK_POLARITY);
      rm.UpdateBits(I2S_FMT_CTRL1,
                    (1 << ENCD_SEL) | (3 << MODE_SEL) | (1 << TX2_OFFSET) | (1 << TX1_OFFSET) | (1 << TX_SLOT_HIZ) | (1 << TX_STATE),
                    (0 << ENCD_SEL) | (fr.mode << MODE_SEL) | (fr.offset << TX2_OFFSET) | (fr.offset << TX1_OFFSET)
                      | (0 << TX_SLOT_HIZ) | (0 << TX_STATE));
      rm.UpdateBits(I2S_FMT_CTRL3, (1 << TX_MLS) | (3 << SEXT) | (1 << LRCK_WIDTH) | (3 << TX_PDM),
                    (0 << TX_MLS) | (3 << SEXT) | (0 << LRCK_WIDTH) | (0 << TX_PDM));
      rm.Write(HPF_EN, 0);
    }

    /** The LRCK period writes of `hw_params` in serial mode `mode` for
        channel width `width`. */
    method WriteLrckPeriod(mode: bv32, width: bv32, channels: bv32)
      modifies rm
      ensures rm.regs == LrckRegs(old(rm.regs), mode, width, Frame(width, channels))
    {
      if mode != PCM_FORMAT {
        rm.UpdateBits(I2S_LRCK_CTRL1, 3 << LRCK_PERIODH, 0);
        rm.Write(I2S_LRCK_CTRL2, (width - 1) & 0xff);
      } else {
        var div := width * channels - 1;
        rm.UpdateBits(I2S_LRCK_CTRL1, 3 << LRCK_PERIODH, (div >> 8) << LRCK_PERIODH);
        rm.Write(I2S_LRCK_CTRL2, div & 0xff);
      }
    }

    /** The slot width, resolution and sample-rate writes of `hw_params`. */
    method WriteResolution(code: bv32, rateCode: bv32)
      modifies rm
      ensures rm.regs == ResolutionRegs(old(rm.regs), code, rateCode)
    {
      rm.UpdateBits(I2S_FMT_CTRL2, (7 << SAMPLE_RESOLUTION) | (7 << SLOT_WIDTH_SEL),
                    (code << SAMPLE_RESOLUTION) | (code << SLOT_WIDTH_SEL));
      rm.UpdateBits(ADC_SPRC, 0xf << ADC_FS_I2S1, rateCode << ADC_FS_I2S1);
      rm.Write(HPF_EN, 0x0f);
    }

    /** The module clock and reset writes that end `hw_params`. */
    method EnableModules()
      modifies rm
      ensures rm.regs == ModulesOn(old(rm.regs))
    {
      rm.Write(MOD_CLK_EN, MODULES);
      rm.Write(MOD_RST_CTRL, MODULES);
    }

    /** `ac108_hw_params`: an unsupported format or an unlisted rate is
        refused with nothing written; otherwise the LRCK period, the
        resolution and the rate are programmed, then the PLL, the slots
        and the module clocks. The channel width is the format's own,
        which is the width the resolution table lists for it
        (`ResolutionMatchesFormat`). */
    method HwParams(format: PcmFormat, rate: nat, channels: bv32) returns (r: int)
      requires codecCnt <= 4
      modifies rm, this`sysclk
      ensures ResolutionIndex(format).None? || RateIndex(rate).None? ==>
        r == -EINVAL && rm.regs == old(rm.regs) && sysclk == old(sysclk)
      ensures ResolutionIndex(format).Some? && RateIndex(rate).Some? ==>
        r == 0 && rm.regs == HwParamsRegs(old(rm.regs), clkId, i2sMode, codecCnt, format, rate, channels)
      ensures ResolutionIndex(format).Some? && RateIndex(rate).Some? ==>
        sysclk == if clkId == SYSCLK_SRC_PLL then PllLookup(PllInput(rate, format, channels)).freqOut else old(sysclk)
    {
      var res := ResolutionIndex(format);
      if res.None? {
        return -EINVAL;
      }
      var idx := LookupRate(rate);
      if idx.None? {
        return -EINVAL;
      }
      ProgramFormat(format, rate, channels, res.value, idx.value);
      var realRate := SAMPLE_RATE[idx.value].realVal;
      ProgramClocks(format, rate, channels, realRate);
      return 0;
    }

    /** The LRCK period, resolution, rate and filter writes of
        `hw_params`, in the serial mode `set_fmt` recorded. */
    method ProgramFormat(format: PcmFormat, rate: nat, channels: bv32, res: nat, idx: nat)
      requires ResolutionIndex(format) == Some(res) && RateIndex(rate) == Some(idx)
      modifies rm
      ensures rm.regs == FormatStage(old(rm.regs), i2sMode, format, rate, channels)
    {
      var width := BitsWord(format);
      ghost var m0 := rm.regs;
      WriteLrckPeriod(i2sMode, width, channels);
      ghost var l := rm.regs;
      WriteResolution(SAMP_RES[res].regVal, SAMPLE_RATE[idx].regVal);
      FormatStageOf(m0, l, rm.regs, i2sMode, format, rate, channels, width);
    }

    /** The PLL, slot and module steps of `hw_params` for the listed rate
        `realRate`; their results are ignored, as the driver does. */
    method ProgramClocks(format: PcmFormat, rate: nat, channels: bv32, realRate: nat)
      requires codecCnt <= 4 && realRate == rate
      modifies rm, this`sysclk
      ensures rm.regs == ClockStage(old(rm.regs), clkId, codecCnt, format, rate, channels)
      ensures sysclk == if clkId == SYSCLK_SRC_PLL then PllLookup(PllInput(rate, format, channels)).freqOut else old(sysclk)
    {
      ghost var m0 := rm.regs;
      var width := BitsWord(format);
      var ratio := PllRatio(width, channels);
      PllInputOf(rate, format, channels, realRate, width, ratio);
      var ignored := ConfigPll(realRate, ratio);
      ghost var p := rm.regs;
      ignored := MultiChipsSlots(channels);
      ghost var s := rm.regs;
      EnableModules();
      ClockStageOf(m0, p, s, rm.regs, clkId, codecCnt, format, rate, channels);
    }

    /** `snd_ac108_get_volsw` on the chip's register. */
    method GetVolswCtl(mc: MixerControl) returns (v: bv64)
      requires WellFormed(mc)
      ensures v == GetVolsw(mc, Get(rm.regs, mc.reg))
    {
      var word := rm.Read(mc.reg);
      v := GetVolsw(mc, word);
    }

    /** `snd_ac108_put_volsw` on the chip's register. */
    method PutVolswCtl(mc: MixerControl, value: bv64) returns (r: int)
      requires WellFormed(mc)
      modifies rm
      ensures r == 0
      ensures rm.regs == BitsUpdated(old(rm.regs), mc.reg, PutMask(mc) << mc.shift, PutValue(mc, value) << mc.shift)
    {
      rm.UpdateBits(mc.reg, PutMask(mc) << mc.shift, PutValue(mc, value) << mc.shift);
      return 0;
    }

    /** `ac108_store`: parse the command word; write the value when the
        flag is set and the regmap takes the register, otherwise read the
        register back. The whole count is always consumed. */
    method Store(val: bv32, count: nat) returns (r: nat)
      modifies rm
      ensures r == count
      ensures rm.regs == StoreRegs(old(rm.regs), val)
    {
      var flag := (val >> 16) & 0xf;
      var reg := (val >> 8) & 0xff;
      if flag != 0 {
        if reg <= MAX_REGISTER {
          rm.Write(reg as int, val & 0xff);
        }
      } else {
        var readBack := rm.Read(reg as int);
      }
      return count;
    }
  }
}
