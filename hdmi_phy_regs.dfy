// The HDMI PHY register map of the H3/H5 (sunh5_dw_hdmi.h): offsets and
// the fields the PHY driver and its clock touch.
module HdmiPhyRegs {
  import opened Regs

  const DBG_CTRL: int := 0x0000
  const READ_EN: int := 0x0010
  const UNSCRAMBLE: int := 0x0014
  const ANA_CFG1: int := 0x0020
  const ANA_CFG2: int := 0x0024
  const ANA_CFG3: int := 0x0028
  const PLL_CFG1: int := 0x002c
  const PLL_CFG2: int := 0x0030
  const PLL_CFG3: int := 0x0034
  const ANA_STS: int := 0x0038
  const CEC: int := 0x003c

  const READ_EN_MAGIC: bv32 := 0x5452_4545
  const UNSCRAMBLE_MAGIC: bv32 := 0x4249_4E47

  /** DBG_CTRL: the sync polarity field, bits 15:8. */
  const POL_MASK: bv32 := 0xff00
  const POL_NHSYNC: bv32 := 0x100
  const POL_NVSYNC: bv32 := 0x200

  /** PLL_CFG1: the clock input select (bit 26) and the B input (bits 5:0). */
  const CKIN_SEL_MSK: bv32 := 0x0400_0000
  const CKIN_SEL_SHIFT: bv32 := 26
  const B_IN_MSK: bv32 := 0x3f

  /** PLL_CFG2: the pre-divider, bits 3:0, holding the divisor minus one. */
  const PREDIV_MSK: bv32 := 0xf

  /** ANA_STS: the B output (bits 16:11) and the resistor calibration
      (bits 5:0). */
  const B_OUT_MSK: bv32 := 0x1_f800
  const B_OUT_SHIFT: bv32 := 11
  const RCAL_MASK: bv32 := 0x3f
}
