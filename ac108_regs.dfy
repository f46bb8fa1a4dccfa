// The AC108 register map (ac108.h): the 8-bit registers the codec driver
// touches and the bit positions of their fields (kept as 32-bit shift
// amounts, as C shifts its unsigned values).
module Ac108Regs {
  const CHIP_RST: int := 0x00
  const CHIP_RST_VAL: bv32 := 0x12
  const PWR_CTRL6: int := 0x06
  const PWR_CTRL7: int := 0x07
  const PWR_CTRL9: int := 0x09
  const PLL_CTRL1: int := 0x10
  const PLL_CTRL2: int := 0x11
  const PLL_CTRL3: int := 0x12
  const PLL_CTRL4: int := 0x13
  const PLL_CTRL5: int := 0x14
  const PLL_LOCK_CTRL: int := 0x18
  const SYSCLK_CTRL: int := 0x20
  const MOD_CLK_EN: int := 0x21
  const MOD_RST_CTRL: int := 0x22
  const I2S_CTRL: int := 0x30
  const I2S_BCLK_CTRL: int := 0x31
  const I2S_LRCK_CTRL1: int := 0x32
  const I2S_LRCK_CTRL2: int := 0x33
  const I2S_FMT_CTRL1: int := 0x34
  const I2S_FMT_CTRL2: int := 0x35
  const I2S_FMT_CTRL3: int := 0x36
  const I2S_TX1_CTRL1: int := 0x38
  const I2S_TX1_CTRL2: int := 0x39
  const I2S_TX1_CTRL3: int := 0x3A
  const I2S_TX1_CHMP_CTRL1: int := 0x3C
  const I2S_TX1_CHMP_CTRL2: int := 0x3D
  const I2S_TX1_CHMP_CTRL3: int := 0x3E
  const I2S_TX1_CHMP_CTRL4: int := 0x3F
  const ADC_SPRC: int := 0x60
  const HPF_EN: int := 0x66
  const ADC1_DVOL_CTRL: int := 0x70
  const ADC2_DVOL_CTRL: int := 0x71
  const ADC3_DVOL_CTRL: int := 0x72
  const ADC4_DVOL_CTRL: int := 0x73
  const ANA_PGA1_CTRL: int := 0x90
  const ANA_PGA2_CTRL: int := 0x91
  const ANA_PGA3_CTRL: int := 0x92
  const ANA_PGA4_CTRL: int := 0x93

  /** The system clock sources of SYSCLK_CTRL. */
  const SYSCLK_SRC_MCLK: bv32 := 0
  const SYSCLK_SRC_PLL: bv32 := 1

  // SYSCLK_CTRL
  const PLLCLK_EN: bv32 := 7
  const PLLCLK_SRC: bv32 := 4
  const SYSCLK_SRC: bv32 := 3
  const SYSCLK_EN: bv32 := 0
  // MOD_CLK_EN and MOD_RST_CTRL
  const I2S: bv32 := 7
  const ADC_DIGITAL: bv32 := 4
  const MIC_OFFSET_CALIBRATION: bv32 := 1
  const ADC_ANALOG: bv32 := 0
  // I2S_CTRL
  const LRCK_IOEN: bv32 := 6
  const SDO1_EN: bv32 := 4
  const TXEN: bv32 := 2
  const RXEN: bv32 := 1
  const GEN: bv32 := 0
  // I2S_BCLK_CTRL and I2S_LRCK_CTRL1
  const BCLK_POLARITY: bv32 := 4
  const LRCK_POLARITY: bv32 := 4
  const LRCK_PERIODH: bv32 := 0
  // I2S_FMT_CTRL1
  const ENCD_SEL: bv32 := 6
  const MODE_SEL: bv32 := 4
  const TX2_OFFSET: bv32 := 3
  const TX1_OFFSET: bv32 := 2
  const TX_SLOT_HIZ: bv32 := 1
  const TX_STATE: bv32 := 0
  // I2S_FMT_CTRL2
  const SLOT_WIDTH_SEL: bv32 := 4
  const SAMPLE_RESOLUTION: bv32 := 0
  // I2S_FMT_CTRL3
  const TX_MLS: bv32 := 7
  const SEXT: bv32 := 5
  const LRCK_WIDTH: bv32 := 2
  const TX_PDM: bv32 := 0
  // PWR_CTRL6, PWR_CTRL7, PWR_CTRL9
  const LDO33ANA_ENABLE: bv32 := 0
  const VREF_SEL: bv32 := 3
  const VREF_FASTSTART_ENABLE: bv32 := 1
  const VREF_ENABLE: bv32 := 0
  const VREFP_FASTSTART_ENABLE: bv32 := 7
  const VREFP_RESCTRL: bv32 := 5
  const IGEN_TRIM: bv32 := 1
  const VREFP_ENABLE: bv32 := 0
  // PLL_CTRL1 .. PLL_CTRL5, PLL_LOCK_CTRL
  const PLL_COM_EN: bv32 := 1
  const PLL_EN: bv32 := 0
  const PLL_PREDIV2: bv32 := 5
  const PLL_PREDIV1: bv32 := 0
  const PLL_LOOPDIV_MSB: bv32 := 0
  const PLL_LOOPDIV_LSB: bv32 := 0
  const PLL_POSTDIV2: bv32 := 5
  const PLL_POSTDIV1: bv32 := 0
  const PLL_LOCK_EN: bv32 := 0
  // ADC_SPRC
  const ADC_FS_I2S1: bv32 := 0
  // ANA_PGAx_CTRL
  const ANALOG_PGA: bv32 := 1

  /** The serial formats of I2S_FMT_CTRL1's MODE_SEL. */
  const PCM_FORMAT: bv32 := 0
  const LEFT_JUSTIFIED_FORMAT: bv32 := 1
  const RIGHT_JUSTIFIED_FORMAT: bv32 := 2

  const BCLK_NORMAL_DRIVE_N_SAMPLE_P: bv32 := 0
  const BCLK_INVERT_DRIVE_P_SAMPLE_N: bv32 := 1
  const LRCK_LEFT_LOW_RIGHT_HIGH: bv32 := 0
  const LRCK_LEFT_HIGH_RIGHT_LOW: bv32 := 1

  const FREQ_24_576K: nat := 24576000
  const FREQ_22_579K: nat := 22579200
}
