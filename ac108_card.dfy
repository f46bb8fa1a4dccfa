// The AC108 sound card (ac108-card.c): the stream operations the card
// attaches to its DAI link — startup and shutdown with their channel
// override of the CPU DAI, hw_params choosing the master clock, trigger —
// and the channel defaults the card reads from its device-tree node.
module Ac108Card {
  import opened Regs
  import opened Wrappers
  import opened Errno
  import opened Ac108Regs
  import opened Ac108
  import opened Ac108Priv

  // ---- SNDRV_PCM_TRIGGER_* commands ----
  const TRIGGER_STOP: int := 0
  const TRIGGER_START: int := 1
  const TRIGGER_PAUSE_PUSH: int := 3
  const TRIGGER_PAUSE_RELEASE: int := 4
  const TRIGGER_SUSPEND: int := 5
  const TRIGGER_RESUME: int := 6
  const TRIGGER_DRAIN: int := 7

  // ---- SND_SOC_CLOCK_IN / SND_SOC_CLOCK_OUT ----
  const CLOCK_IN: int := 0
  const CLOCK_OUT: int := 1

  /** Commands that start or resume a stream. */
  predicate Starts(cmd: int) {
    cmd == TRIGGER_START || cmd == TRIGGER_RESUME || cmd == TRIGGER_PAUSE_RELEASE
  }

  /** Commands that stop or suspend a stream. */
  predicate Stops(cmd: int) {
    cmd == TRIGGER_STOP || cmd == TRIGGER_SUSPEND || cmd == TRIGGER_PAUSE_PUSH
  }

  /** `ac108_card_trigger`: nothing to do for a start or a stop, any other
      command is refused. */
  function Trigger(cmd: int): (r: int)
    ensures r == 0 <==> Starts(cmd) || Stops(cmd)
    ensures r != 0 ==> r == -EINVAL
  {
    match cmd
    case 1 | 6 | 4 => 0
    case 0 | 5 | 3 => 0
    case _ => -EINVAL
  }

  /** The commands `trigger` accepts are exactly 0 to 6 except 2, which
      Linux leaves undefined; DRAIN is refused. */
  lemma TriggerAccepts(cmd: int)
    ensures Trigger(cmd) == 0 <==> 0 <= cmd <= 6 && cmd != 2
    ensures Trigger(TRIGGER_DRAIN) == -EINVAL
  {
  }

  // ---- hw_params ----

  /** The DAI a `snd_soc_dai_set_sysclk` call goes to. */
  datatype Dai = CodecDai | CpuDai

  /** One `snd_soc_dai_set_sysclk` call: the DAI, the clock id, the
      frequency and the direction. */
  datatype SysclkCall = SysclkCall(dai: Dai, clkId: int, freq: nat, dir: int)

  /** What `ac108_card_hw_params` returns and the calls it makes. */
  datatype Outcome = Outcome(ret: int, calls: seq<SysclkCall>)

  /** The `mclk_fs` factor: the card's when it is set, otherwise the link's. */
  function MclkFs(cardFs: nat, linkFs: nat): nat {
    if cardFs != 0 then cardFs else linkFs
  }

  /** A `set_sysclk` answer `hw_params` carries on after. */
  predicate Tolerated(ret: int) {
    ret == 0 || ret == -ENOTSUPP
  }

  /** `ac108_card_hw_params` with the answers of the codec and CPU DAIs as
      inputs: with a factor, the master clock `rate * mclk_fs` (in
      `unsigned int`) goes to the codec as input and then to the CPU as
      output; an answer other than success or -ENOTSUPP is returned at
      once. */
  function CardHwParams(cardFs: nat, linkFs: nat, rate: nat, codecRet: int, cpuRet: int): (o: Outcome)
    ensures MclkFs(cardFs, linkFs) == 0 ==> o == Outcome(0, [])
    ensures MclkFs(cardFs, linkFs) != 0 ==>
      && 1 <= |o.calls| <= 2
      && o.calls[0] == SysclkCall(CodecDai, 0, U32(rate * MclkFs(cardFs, linkFs)), CLOCK_IN)
      && (|o.calls| == 2 <==> Tolerated(codecRet))
      && (|o.calls| == 2 ==> o.calls[1] == SysclkCall(CpuDai, 0, o.calls[0].freq, CLOCK_OUT))
    ensures o.ret == 0 <==> MclkFs(cardFs, linkFs) == 0 || (Tolerated(codecRet) && Tolerated(cpuRet))
    ensures o.ret != 0 ==> o.ret == if Tolerated(codecRet) then cpuRet else codecRet
  {
    var fs := MclkFs(cardFs, linkFs);
    if fs == 0 then Outcome(0, [])
    else
      var mclk := U32(rate * fs);
      var toCodec := SysclkCall(CodecDai, 0, mclk, CLOCK_IN);
      var toCpu := SysclkCall(CpuDai, 0, mclk, CLOCK_OUT);
      if !Tolerated(codecRet) then Outcome(codecRet, [toCodec])
      else if !Tolerated(cpuRet) then Outcome(cpuRet, [toCodec, toCpu])
      else Outcome(0, [toCodec, toCpu])
  }

  /** A card-level factor decides the outcome whatever the link says. */
  lemma CardFsWins(cardFs: nat, linkFs1: nat, linkFs2: nat, rate: nat, codecRet: int, cpuRet: int)
    requires cardFs != 0
    ensures CardHwParams(cardFs, linkFs1, rate, codecRet, cpuRet) == CardHwParams(cardFs, linkFs2, rate, codecRet, cpuRet)
    ensures CardHwParams(cardFs, linkFs1, rate, codecRet, cpuRet) == CardHwParams(cardFs, 0, rate, codecRet, cpuRet)
  {
  }

  /** Without a card-level factor the link's is used, as if it were the card's. */
  lemma LinkFsFallback(linkFs: nat, rate: nat, codecRet: int, cpuRet: int)
    ensures CardHwParams(0, linkFs, rate, codecRet, cpuRet) == CardHwParams(linkFs, 0, rate, codecRet, cpuRet)
  {
  }

  // ---- startup / shutdown ----

  /** The channel limits of one stream direction of the CPU DAI driver. */
  datatype Limits = Limits(min: nat, max: nat)

  /** The card's saved default and its override for one direction. */
  datatype Channels = Channels(default: nat, override: nat)

  /** The channels `ac108_card_parse_of` reads: override 2 and default 0
      unless the node sets them. */
  function ChannelsOf(default: Option<nat>, override: Option<nat>): (c: Channels)
    ensures default.None? ==> c.default == 0
    ensures override.None? ==> c.override == 2
    ensures default.Some? ==> c.default == default.value
    ensures override.Some? ==> c.override == override.value
  {
    Channels(if default.Some? then default.value else 0, if override.Some? then override.value else 2)
  }

  /** `startup` for one direction: a nonzero `channels_min` becomes the
      saved default, then both limits are forced to the override. */
  function Opened(c: Channels, l: Limits): (Channels, Limits) {
    (Channels(if l.min != 0 then l.min else c.default, c.override), Limits(c.override, c.override))
  }

  /** `shutdown` for one direction: both limits become the saved default. */
  function Closed(c: Channels): Limits {
    Limits(c.default, c.default)
  }

  /** While a stream is open, the CPU DAI offers exactly the override. */
  lemma OpenedForcesOverride(c: Channels, l: Limits)
    ensures Opened(c, l).1.min == Opened(c, l).1.max == c.override
    ensures Opened(c, l).0.override == c.override
  {
  }

  /** Opening and closing leaves both limits at the `channels_min` the CPU
      DAI had, or at the saved default when that was 0; the old
      `channels_max` is not restored. */
  lemma OpenCloseRestoresMin(c: Channels, l: Limits)
    ensures l.min != 0 ==> Closed(Opened(c, l).0) == Limits(l.min, l.min)
    ensures l.min == 0 ==> Closed(Opened(c, l).0) == Limits(c.default, c.default)
  {
  }

  /** A second `startup` before the first `shutdown` (the other direction
      of the same link opening) saves the override as the default, so
      closing then leaves the override in place. */
  lemma NestedOpenKeepsOverride(c: Channels, l: Limits)
    requires c.override != 0
    ensures var (c1, l1) := Opened(c, l);
      Closed(Opened(c1, l1).0) == Limits(c.override, c.override)
  {
  }

  /** Taking one off an enable count; `clk_disable_unprepare` leaves a
      count of 0 alone. */
  function Released(n: nat): nat {
    if n == 0 then 0 else n - 1
  }

  /** The CPU DAI's driver: the channel limits of playback and capture,
      which the card rewrites on every startup and shutdown. */
  class CpuDaiDriver {
    var playback: Limits
    var capture: Limits

    constructor (playback: Limits, capture: Limits)
      ensures this.playback == playback && this.capture == capture
    {
      this.playback := playback;
      this.capture := capture;
    }
  }

  /** `struct ac108_card_priv` with its single link's `dai_props`: the two
      `mclk_fs` factors, the saved defaults and overrides, and the enable
      counts of the CPU and codec DAI clocks. */
  class Card {
    var mclkFs: nat
    var linkFs: nat
    var playback: Channels
    var capture: Channels
    var cpuClkEnables: nat
    var codecClkEnables: nat

    /** The card as `ac108_card_parse_of` leaves it, from the properties
        present in the device tree; the private data starts zeroed. */
    constructor (cardFs: Option<nat>, linkFs: Option<nat>,
                 playbackDefault: Option<nat>, playbackOverride: Option<nat>,
                 captureDefault: Option<nat>, captureOverride: Option<nat>)
      ensures mclkFs == (if cardFs.Some? then cardFs.value else 0)
      ensures this.linkFs == (if linkFs.Some? then linkFs.value else 0)
      ensures playback == ChannelsOf(playbackDefault, playbackOverride)
      ensures capture == ChannelsOf(captureDefault, captureOverride)
      ensures cpuClkEnables == 0 && codecClkEnables == 0
    {
      mclkFs := if cardFs.Some? then cardFs.value else 0;
      this.linkFs := if linkFs.Some? then linkFs.value else 0;
      playback := ChannelsOf(playbackDefault, playbackOverride);
      capture := ChannelsOf(captureDefault, captureOverride);
      cpuClkEnables := 0;
      codecClkEnables := 0;
    }

    /** `ac108_card_startup`, with the answers of the two
        `clk_prepare_enable` calls as inputs: a failed CPU clock is
        returned as is; a failed codec clock releases the CPU clock and is
        returned; otherwise both directions are opened. */
    method Startup(drv: CpuDaiDriver, cpuClkRet: int, codecClkRet: int) returns (ret: int)
      modifies this, drv
      ensures cpuClkRet != 0 ==> ret == cpuClkRet
      ensures cpuClkRet == 0 && codecClkRet != 0 ==> ret == codecClkRet
      ensures ret != 0 ==> unchanged(this) && unchanged(drv)
      ensures ret == 0 <==> cpuClkRet == 0 && codecClkRet == 0
      ensures ret == 0 ==>
        && cpuClkEnables == old(cpuClkEnables) + 1 && codecClkEnables == old(codecClkEnables) + 1
        && (playback, drv.playback) == Opened(old(playback), old(drv.playback))
        && (capture, drv.capture) == Opened(old(capture), old(drv.capture))
        && mclkFs == old(mclkFs) && linkFs == old(linkFs)
    {
      if cpuClkRet != 0 {
        return cpuClkRet;
      }
      cpuClkEnables := cpuClkEnables + 1;
      if codecClkRet != 0 {
        cpuClkEnables := Released(cpuClkEnables);
        return codecClkRet;
      }
      codecClkEnables := codecClkEnables + 1;

      if drv.playback.min != 0 {
        playback := playback.(default := drv.playback.min);
      }
      if drv.capture.min != 0 {
        capture := capture.(default := drv.capture.min);
      }
      drv.playback := Limits(playback.override, playback.override);
      drv.capture := Limits(capture.override, capture.override);
      return 0;
    }

    /** `ac108_card_shutdown`: both directions closed and both clocks
        released. */
    method Shutdown(drv: CpuDaiDriver)
      modifies this`cpuClkEnables, this`codecClkEnables, drv
      ensures drv.playback == Closed(playback) && drv.capture == Closed(capture)
      ensures cpuClkEnables == Released(old(cpuClkEnables))
      ensures codecClkEnables == Released(old(codecClkEnables))
    {
      drv.playback := Limits(playback.default, playback.default);
      drv.capture := Limits(capture.default, capture.default);
      cpuClkEnables := Released(cpuClkEnables);
      codecClkEnables := Released(codecClkEnables);
    }

    /** `ac108_card_hw_params` with the AC108 as the codec DAI and the CPU
        DAI's answer as input: the codec is asked for its system clock
        only when there is a factor, and the result is `CardHwParams` with
        the AC108's answer. */
    method HwParams(codec: Codec, rate: nat, cpuRet: int) returns (ret: int)
      modifies codec.rm, codec`mclk, codec`clkId
      ensures ret == CardHwParams(mclkFs, linkFs, rate, 0, cpuRet).ret
      ensures MclkFs(mclkFs, linkFs) != 0 ==>
        && codec.rm.regs == BitsUpdated(old(codec.rm.regs), SYSCLK_CTRL, 1 << SYSCLK_SRC, SYSCLK_SRC_PLL << SYSCLK_SRC)
        && codec.mclk == 24_000_000 && codec.clkId == SYSCLK_SRC_PLL
      ensures MclkFs(mclkFs, linkFs) == 0 ==>
        codec.rm.regs == old(codec.rm.regs) && codec.mclk == old(codec.mclk) && codec.clkId == old(codec.clkId)
    {
      var fs := MclkFs(mclkFs, linkFs);
      if fs != 0 {
        var mclk := U32(rate * fs);
        ret := codec.SetSysclk(0, mclk, CLOCK_IN);
        if !Tolerated(ret) {
          return;
        }
        ret := cpuRet;
        if !Tolerated(ret) {
          return;
        }
      }
      return 0;
    }
  }
}
