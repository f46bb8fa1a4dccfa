// The DE2 mixer engine (sunh5_mixer.c): the configuration of mixer 0, the
// double-buffer commit, the construction of the layer array and the
// register initialisation `sunh5_mixer_bind` performs.
module Mixer {
  import opened Regs
  import opened Errno
  import opened Wrappers
  import opened MixerRegs
  import opened Layers
  import UiLayer
  import ViLayer

  /** `sunh5_mixer0_cfg`: one VI and three UI channels, all four with a
      scaler, CCSC set 0, a 432 MHz module clock and a 2048-pixel YUV
      scanline, on a DE2 register layout. */
  const Mixer0Cfg: MixerCfg := MixerCfg(viNum := 1, uiNum := 3, scalerMask := 0xf, ccsc := 0,
                                        modRate := 432_000_000, isDe3 := false, scanlineYuv := 2048)

  lemma Mixer0Layout()
    ensures PlaneCount(Mixer0Cfg) == 4
    ensures forall ch :: 0 <= ch < PlaneCount(Mixer0Cfg) ==> HasScaler(Mixer0Cfg, ch)
    ensures !HasScaler(Mixer0Cfg, 4)
  {
    forall ch | 0 <= ch < PlaneCount(Mixer0Cfg)
      ensures HasScaler(Mixer0Cfg, ch)
    {
      assert ch == 0 || ch == 1 || ch == 2 || ch == 3;
    }
  }

  // ---- commit ----

  /** Register file after `sunh5_mixer_commit`. */
  function Committed(m: RegFile): RegFile
  {
    Written(m, GLOBAL_DBUFF, GLOBAL_DBUFF_ENABLE)
  }

  /** `sunh5_mixer_commit`: latch the shadow registers. */
  method Commit(rm: RegMap)
    modifies rm
    ensures rm.regs == Committed(old(rm.regs))
  {
    rm.Write(GLOBAL_DBUFF, GLOBAL_DBUFF_ENABLE);
  }

  /** A commit sets the double-buffer word to 1 and leaves every other word
      as it was, so committing twice is committing once. */
  lemma CommitOnlyLatches(m: RegFile, o: int)
    ensures Get(Committed(m), GLOBAL_DBUFF) == 1
    ensures o != GLOBAL_DBUFF ==> Get(Committed(m), o) == Get(m, o)
    ensures Committed(Committed(m)) == Committed(m)
  {
  }

  // ---- layers_init ----

  /** The outcomes of the calls `init_one` makes for one layer: the
      allocation, `drm_universal_plane_init` and the zpos property. */
  datatype InitCalls = InitCalls(allocOk: bool, planeInitRet: int, zposRet: int)

  /** The `init_one` result for entry `i` of the plane array: VI layers
      first, then UI layers. */
  function LayerAt(cfg: MixerCfg, vi: seq<InitCalls>, ui: seq<InitCalls>, i: nat): Result<Layer>
    requires i < |vi| + |ui|
  {
    if i < |vi| then ViLayer.InitOne(cfg, i, vi[i].allocOk, vi[i].planeInitRet, vi[i].zposRet)
    else
      var c := ui[i - |vi|];
      UiLayer.InitOne(cfg, i - |vi|, c.allocOk, c.planeInitRet, c.zposRet)
  }

  /** `sunh5_layers_init`: an array of `vi_num + ui_num + 1` planes, filled
      with the VI layers, then the UI layers, and ending in a null entry.
      The first layer that fails aborts the construction with its error. */
  method LayersInit(cfg: MixerCfg, allocOk: bool, vi: seq<InitCalls>, ui: seq<InitCalls>)
    returns (r: Result<seq<Option<Layer>>>)
    requires |vi| == cfg.viNum && |ui| == cfg.uiNum
    ensures !allocOk ==> r == Err(-ENOMEM)
    ensures r.Ok? <==> allocOk && forall i :: 0 <= i < |vi| + |ui| ==> LayerAt(cfg, vi, ui, i).Ok?
    ensures r.Ok? ==> && |r.value| == |vi| + |ui| + 1 && r.value[|vi| + |ui|] == None
                      && forall i :: 0 <= i < |vi| + |ui| ==> r.value[i] == Some(LayerAt(cfg, vi, ui, i).value)
    ensures allocOk && r.Err? ==>
      exists k :: 0 <= k < |vi| + |ui| && LayerAt(cfg, vi, ui, k) == Err(r.code)
                  && forall j :: 0 <= j < k ==> LayerAt(cfg, vi, ui, j).Ok?
  {
    if !allocOk {
      return Err(-ENOMEM);
    }
    var n := cfg.viNum + cfg.uiNum;
    var planes: seq<Option<Layer>> := seq(n + 1, _ => None);
    var i := 0;
    while i < cfg.viNum
      invariant 0 <= i <= cfg.viNum && |planes| == n + 1
      invariant forall j :: 0 <= j < i ==> LayerAt(cfg, vi, ui, j).Ok? && planes[j] == Some(LayerAt(cfg, vi, ui, j).value)
      invariant forall j :: i <= j <= n ==> planes[j] == None
    {
      var layer := ViLayer.InitOne(cfg, i, vi[i].allocOk, vi[i].planeInitRet, vi[i].zposRet);
      if layer.Err? {
        assert LayerAt(cfg, vi, ui, i) == layer;
        return Err(layer.code);
      }
      planes := planes[i := Some(layer.value)];
      i := i + 1;
    }
    i := 0;
    while i < cfg.uiNum
      invariant 0 <= i <= cfg.uiNum && |planes| == n + 1
      invariant forall j :: 0 <= j < cfg.viNum + i ==> LayerAt(cfg, vi, ui, j).Ok? && planes[j] == Some(LayerAt(cfg, vi, ui, j).value)
      invariant forall j :: cfg.viNum + i <= j <= n ==> planes[j] == None
    {
      var layer := UiLayer.InitOne(cfg, i, ui[i].allocOk, ui[i].planeInitRet, ui[i].zposRet);
      if layer.Err? {
        assert LayerAt(cfg, vi, ui, cfg.viNum + i) == layer;
        return Err(layer.code);
      }
      planes := planes[cfg.viNum + i := Some(layer.value)];
      i := i + 1;
    }
    return Ok(planes);
  }

  /** Entry `i` of a built array is the layer driving channel `i`, VI layers
      before UI layers; the first UI layer is the primary plane and every
      zpos starts at the channel index. */
  lemma LayersByChannel(cfg: MixerCfg, vi: seq<InitCalls>, ui: seq<InitCalls>, i: nat)
    requires |vi| == cfg.viNum && |ui| == cfg.uiNum && i < |vi| + |ui|
    requires LayerAt(cfg, vi, ui, i).Ok?
    ensures var l := LayerAt(cfg, vi, ui, i).value;
      && l.channel == i && l.zpos == i && l.zposMax == |vi| + |ui| - 1
      && (l.isVi <==> i < |vi|)
      && (l.kind == Primary <==> i == |vi|)
  {
  }

  // ---- register initialisation in bind ----

  /** Words below `4 * n` zeroed, one per step of the reset loop. */
  function Cleared(m: RegFile, n: nat): RegFile
  {
    if n == 0 then m else Cleared(m, n - 1)[4 * (n - 1) := 0]
  }

  /** After `n` steps the first `n` words read 0 and every other word is
      as it was. */
  lemma {:induction false} ClearedAt(m: RegFile, n: nat, o: int)
    ensures Get(Cleared(m, n), o) == if 0 <= o < 4 * n && o % 4 == 0 then 0 else Get(m, o)
  {
    if n > 0 {
      ClearedAt(m, n - 1, o);
    }
  }

  /** The seven sub-engines (FCE, BWS, LTI, PEAK, ASE, FCC, DCSC) switched off. */
  function SubEnginesOff(m: RegFile): RegFile
  {
    var e := SubEngineEnables;
    m[e[0] := 0][e[1] := 0][e[2] := 0][e[3] := 0][e[4] := 0][e[5] := 0][e[6] := 0]
  }

  /** The blend-mode words of the first `n` pipes set to the default. */
  function BlendModesWritten(m: RegFile, base: int, n: nat): RegFile
  {
    if n == 0 then m else BlendModesWritten(m, base, n - 1)[BlendMode(base, n - 1) := BLEND_MODE_DEF]
  }

  lemma {:induction false} BlendModesAt(m: RegFile, base: int, n: nat, o: int)
    ensures Get(BlendModesWritten(m, base, n), o)
         == if base + 0x90 <= o < base + 0x90 + 4 * n && (o - base) % 4 == 0 then BLEND_MODE_DEF else Get(m, o)
  {
    if n > 0 {
      BlendModesAt(m, base, n - 1, o);
    }
  }

  /** The register file the bind sequence leaves, given the word it writes
      to PIPE_CTL before the per-pipe blend modes. */
  function InitWords(m: RegFile, cfg: MixerCfg, pipeCtl: bv32): RegFile
  {
    var base := BlenderBase(cfg.isDe3);
    var m1 := SubEnginesOff(Cleared(m, DE2_MIXER_UNIT_SIZE / 4));
    var m2 := BlendModesWritten(BlenderSetUp(m1, base, pipeCtl), base, PlaneCount(cfg));
    m2[PipeCtl(base) := Merge(Get(m2, PipeCtl(base)), PIPE_CTL_EN_MSK, 0)]
  }

  /** The mixer enabled, the background and the bottom pipe's fill colour
      set to black, and PIPE_CTL given its first word. */
  function BlenderSetUp(m: RegFile, base: int, pipeCtl: bv32): RegFile
  {
    m[GLOBAL_CTL := GLOBAL_CTL_RT_EN][BkColor(base) := COLOR_BLACK][PipeCtl(base) := pipeCtl][AttrFcolor(base, 0) := COLOR_BLACK]
  }

  /** The word the bind sequence leaves at offset `o`, register by
      register: PIPE_CTL with its pipe-enable bits cleared, the default
      blend mode for each of the mixer's pipes, black background and
      bottom fill colour, the mixer enabled, the sub-engines and the rest
      of the 0x6000-byte unit zeroed, and every other word as it was. */
  function InitWord(m: RegFile, cfg: MixerCfg, pipeCtl: bv32, o: int): bv32
  {
    var base := BlenderBase(cfg.isDe3);
    if o == PipeCtl(base) then pipeCtl & !PIPE_CTL_EN_MSK
    else if base + 0x90 <= o < base + 0x90 + 4 * PlaneCount(cfg) && (o - base) % 4 == 0 then BLEND_MODE_DEF
    else if o == BkColor(base) || o == AttrFcolor(base, 0) then COLOR_BLACK
    else if o == GLOBAL_CTL then GLOBAL_CTL_RT_EN
    else if o in SubEngineEnables then 0
    else if 0 <= o < DE2_MIXER_UNIT_SIZE && o % 4 == 0 then 0
    else Get(m, o)
  }

  lemma InitWordsAt(m: RegFile, cfg: MixerCfg, pipeCtl: bv32, o: int)
    ensures Get(InitWords(m, cfg, pipeCtl), o) == InitWord(m, cfg, pipeCtl, o)
  {
    var base := BlenderBase(cfg.isDe3);
    var m0 := Cleared(m, DE2_MIXER_UNIT_SIZE / 4);
    var m1 := SubEnginesOff(m0);
    var m2 := BlenderSetUp(m1, base, pipeCtl);
    var m3 := BlendModesWritten(m2, base, PlaneCount(cfg));
    ResetAt(m, o);
    SetUpAt(m1, base, pipeCtl, o);
    BlendModesAt(m2, base, PlaneCount(cfg), o);
    if o == PipeCtl(base) {
      assert Get(m3, o) == pipeCtl;
      PipeCtlCleared(m3, base, pipeCtl);
    }
  }

  /** After the reset loop and the sub-engine writes. */
  lemma ResetAt(m: RegFile, o: int)
    ensures Get(SubEnginesOff(Cleared(m, DE2_MIXER_UNIT_SIZE / 4)), o)
         == if o in SubEngineEnables then 0
            else if 0 <= o < DE2_MIXER_UNIT_SIZE && o % 4 == 0 then 0
            else Get(m, o)
  {
    var m0 := Cleared(m, DE2_MIXER_UNIT_SIZE / 4);
    var w0 := Get(m0, o);
    assert w0 == if 0 <= o < DE2_MIXER_UNIT_SIZE && o % 4 == 0 then 0 else Get(m, o) by {
      ClearedAt(m, DE2_MIXER_UNIT_SIZE / 4, o);
    }
    SubEnginesAt(m0, o);
  }

  lemma PipeCtlCleared(m3: RegFile, base: int, pipeCtl: bv32)
    requires Get(m3, PipeCtl(base)) == pipeCtl
    ensures Get(BitsUpdated(m3, PipeCtl(base), PIPE_CTL_EN_MSK, 0), PipeCtl(base)) == pipeCtl & !PIPE_CTL_EN_MSK
  {
  }

  lemma SetUpAt(m: RegFile, base: int, pipeCtl: bv32, o: int)
    requires base == DE2_BLD_BASE || base == DE3_BLD_BASE
    ensures Get(BlenderSetUp(m, base, pipeCtl), o)
         == if o == PipeCtl(base) then pipeCtl
            else if o == BkColor(base) || o == AttrFcolor(base, 0) then COLOR_BLACK
            else if o == GLOBAL_CTL then GLOBAL_CTL_RT_EN
            else Get(m, o)
  {
  }

  lemma SubEnginesAt(m: RegFile, o: int)
    ensures Get(SubEnginesOff(m), o) == if o in SubEngineEnables then 0 else Get(m, o)
  {
  }

  /** The sequence as written: PIPE_CTL first receives PIPE_CTL_EN(0). */
  function InitAsWritten(m: RegFile, cfg: MixerCfg): RegFile
  {
    InitWords(m, cfg, PipeEn(0))
  }

  /** The sequence as its comment intends: the fill colour of the bottom
      pipe enabled, FC_EN(0). */
  function InitCorrected(m: RegFile, cfg: MixerCfg): RegFile
  {
    InitWords(m, cfg, PipeFcEn(0))
  }

  /** After bind, as the code is written, the mixer is enabled, the
      background and the bottom fill colour are black, every pipe of the
      mixer has the default blend mode, and PIPE_CTL is 0: no pipe and no
      fill colour is enabled. */
  lemma BindInitState(m: RegFile, cfg: MixerCfg, i: nat)
    requires i < PlaneCount(cfg)
    ensures var r, base := InitAsWritten(m, cfg), BlenderBase(cfg.isDe3);
      && Get(r, GLOBAL_CTL) == GLOBAL_CTL_RT_EN
      && Get(r, BkColor(base)) == COLOR_BLACK
      && Get(r, AttrFcolor(base, 0)) == COLOR_BLACK
      && Get(r, BlendMode(base, i)) == BLEND_MODE_DEF
      && Get(r, PipeCtl(base)) == 0
  {
    var r, base := InitAsWritten(m, cfg), BlenderBase(cfg.isDe3);
    assert Get(r, GLOBAL_CTL) == GLOBAL_CTL_RT_EN by {
      InitWordsAt(m, cfg, PipeEn(0), GLOBAL_CTL);
    }
    assert Get(r, BkColor(base)) == COLOR_BLACK by {
      InitWordsAt(m, cfg, PipeEn(0), BkColor(base));
    }
    assert Get(r, AttrFcolor(base, 0)) == COLOR_BLACK by {
      InitWordsAt(m, cfg, PipeEn(0), AttrFcolor(base, 0));
    }
    BindBlendMode(m, cfg, PipeEn(0), i);
    AsWrittenLeavesNoFill(m, cfg);
  }

  /** The corrected sequence differs only in PIPE_CTL: it leaves the other
      words as the code does, and no pipe enabled. */
  lemma CorrectedAgreesElsewhere(m: RegFile, cfg: MixerCfg, o: int)
    ensures var base := BlenderBase(cfg.isDe3);
      o != PipeCtl(base) ==> Get(InitCorrected(m, cfg), o) == Get(InitAsWritten(m, cfg), o)
    ensures Get(InitCorrected(m, cfg), PipeCtl(BlenderBase(cfg.isDe3))) & PIPE_CTL_EN_MSK == 0
  {
    InitWordsAt(m, cfg, PipeEn(0), o);
    InitWordsAt(m, cfg, PipeFcEn(0), o);
    CorrectedFillsBottom(m, cfg);
  }

  lemma BindBlendMode(m: RegFile, cfg: MixerCfg, pipeCtl: bv32, i: nat)
    requires i < PlaneCount(cfg)
    ensures Get(InitWords(m, cfg, pipeCtl), BlendMode(BlenderBase(cfg.isDe3), i)) == BLEND_MODE_DEF
  {
    var base := BlenderBase(cfg.isDe3);
    var o := BlendMode(base, i);
    BlendModeInRange(base, i, PlaneCount(cfg));
    assert o != PipeCtl(base);
    InitWordsAt(m, cfg, pipeCtl, o);
  }

  lemma BlendModeInRange(base: int, i: nat, n: nat)
    requires i < n
    ensures var o := BlendMode(base, i);
      base + 0x90 <= o < base + 0x90 + 4 * n && (o - base) % 4 == 0
  {
    assert BlendMode(base, i) - base == 4 * (i + 0x24);
  }

  /** As written, the final update of PIPE_CTL clears the bit the first
      write set, so the bottom pipe's fill colour is never enabled. */
  lemma AsWrittenLeavesNoFill(m: RegFile, cfg: MixerCfg)
    ensures Get(InitAsWritten(m, cfg), PipeCtl(BlenderBase(cfg.isDe3))) == 0
  {
    InitWordsAt(m, cfg, PipeEn(0), PipeCtl(BlenderBase(cfg.isDe3)));
  }

  /** Corrected, PIPE_CTL ends with exactly the bottom pipe's fill-colour
      bit set. */
  lemma CorrectedFillsBottom(m: RegFile, cfg: MixerCfg)
    ensures Get(InitCorrected(m, cfg), PipeCtl(BlenderBase(cfg.isDe3))) == PipeFcEn(0)
  {
    InitWordsAt(m, cfg, PipeFcEn(0), PipeCtl(BlenderBase(cfg.isDe3)));
  }

  /** The register initialisation of `sunh5_mixer_bind`. */
  method BindInit(rm: RegMap, cfg: MixerCfg)
    modifies rm
    ensures rm.regs == InitAsWritten(old(rm.regs), cfg)
  {
    var base := BlenderBase(cfg.isDe3);
    ClearUnit(rm);
    DisableSubEngines(rm);
    SetUpBlender(rm, base, PipeEn(0));
    WriteBlendModes(rm, base, PlaneCount(cfg));
    rm.UpdateBits(PipeCtl(base), PIPE_CTL_EN_MSK, 0);
  }

  method SetUpBlender(rm: RegMap, base: int, pipeCtl: bv32)
    modifies rm
    ensures rm.regs == BlenderSetUp(old(rm.regs), base, pipeCtl)
  {
    rm.Write(GLOBAL_CTL, GLOBAL_CTL_RT_EN);
    rm.Write(BkColor(base), COLOR_BLACK);
    rm.Write(PipeCtl(base), pipeCtl);
    rm.Write(AttrFcolor(base, 0), COLOR_BLACK);
  }

  /** The loop giving each of the mixer's `n` pipes the default blend mode. */
  method WriteBlendModes(rm: RegMap, base: int, n: nat)
    modifies rm
    ensures rm.regs == BlendModesWritten(old(rm.regs), base, n)
  {
    var i := 0;
    while i < n
      invariant 0 <= i <= n
      invariant rm.regs == BlendModesWritten(old(rm.regs), base, i)
    {
      rm.Write(BlendMode(base, i), BLEND_MODE_DEF);
      i := i + 1;
    }
  }

  /** The reset loop: every word of the 0x6000-byte unit written with 0. */
  method ClearUnit(rm: RegMap)
    modifies rm
    ensures rm.regs == Cleared(old(rm.regs), DE2_MIXER_UNIT_SIZE / 4)
  {
    var i := 0;
    while i < DE2_MIXER_UNIT_SIZE
      invariant 0 <= i <= DE2_MIXER_UNIT_SIZE && i % 4 == 0
      invariant rm.regs == Cleared(old(rm.regs), i / 4)
    {
      rm.Write(i, 0);
      i := i + 4;
    }
  }

  method DisableSubEngines(rm: RegMap)
    modifies rm
    ensures rm.regs == SubEnginesOff(old(rm.regs))
  {
    rm.Write(0xa0000, 0);
    rm.Write(0xa2000, 0);
    rm.Write(0xa4000, 0);
    rm.Write(0xa6000, 0);
    rm.Write(0xa8000, 0);
    rm.Write(0xaa000, 0);
    rm.Write(0xb0000, 0);
  }
}
