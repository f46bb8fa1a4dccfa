// The UI layer controller (sunh5_ui_layer.c): the RGB-only layers of the
// mixer's UI channels, one overlay each.
module UiLayer {
  import opened Regs
  import opened Errno
  import opened Wrappers
  import opened MixerRegs
  import opened Formats
  import opened Layers

  // Channel registers of a UI layer (sunh5_ui_layer.h), from the channel base.
  function Attr(ch: int, overlay: nat): int { ch + 0x20 * overlay }
  function LayerSize(ch: int, overlay: nat): int { ch + 0x20 * overlay + 0x4 }
  function Pitch(ch: int, overlay: nat): int { ch + 0x20 * overlay + 0xc }
  function TopLaddr(ch: int, overlay: nat): int { ch + 0x20 * overlay + 0x10 }
  function OvlSize(ch: int): int { ch + 0x88 }

  /** The attribute word of a UI layer, and the blender base of its mixer. */
  function AttrOf(cfg: MixerCfg, channel: nat, overlay: nat): int { Attr(ChannelBase(cfg.isDe3, channel), overlay) }

  /** A UI layer's attribute word lies outside the blender's words. */
  lemma AttrApart(cfg: MixerCfg, channel: nat, overlay: nat)
    ensures Apart(AttrOf(cfg, channel, overlay), BlenderBase(cfg.isDe3))
  {
  }

  /** `sunh5_ui_layer_enable`. */
  method Enable(rm: RegMap, cfg: MixerCfg, channel: nat, overlay: nat, enable: bool, zpos: bv32, oldZpos: bv32)
    requires channel < 16 && zpos < 8 && oldZpos < 8
    modifies rm
    ensures rm.regs == SlotUpdated(old(rm.regs), AttrOf(cfg, channel, overlay), BlenderBase(cfg.isDe3),
                                   channel as bv32, enable, zpos, oldZpos)
  {
    LayerEnable(rm, AttrOf(cfg, channel, overlay), BlenderBase(cfg.isDe3), channel as bv32, enable, zpos, oldZpos);
  }

  /** `sunh5_ui_layer_atomic_disable`: vacate the slot the old state held. */
  method AtomicDisable(rm: RegMap, cfg: MixerCfg, layer: Layer, oldZpos: bv32)
    requires layer.channel < 16 && oldZpos < 8
    modifies rm
    ensures rm.regs == SlotUpdated(old(rm.regs), AttrOf(cfg, layer.channel, layer.overlay), BlenderBase(cfg.isDe3),
                                   layer.channel as bv32, false, 0, oldZpos)
  {
    Enable(rm, cfg, layer.channel, layer.overlay, false, 0, oldZpos);
  }

  // ---- update_coord ----

  /** SIZE of the source in whole pixels, and of the destination. */
  function Insize(s: PlaneState): bv32
    requires Visible(s)
  {
    Size(SrcWidth(s), SrcHeight(s))
  }

  /** The scaler request of the UI `update_coord`: on exactly when the size
      words differ or the source starts at a fractional position, with
      16.16 factors from the unclipped source and CRTC sizes. */
  function Scaler(s: PlaneState): ScalerCall
    requires Visible(s)
  {
    if Insize(s) != Outsize(s) || HPhase(s) != 0 || VPhase(s) != 0 then
      ScalerOn(SrcWidth(s), SrcHeight(s), DstWidth(s), DstHeight(s),
               s.srcW / s.crtcW, s.srcH / s.crtcH, HPhase(s), VPhase(s))
    else ScalerOff
  }

  /** Sizes the size encoder represents faithfully. */
  predicate Encodable(s: PlaneState)
  {
    1 <= SrcWidth(s) <= 0x10000 && 1 <= SrcHeight(s) <= 0x10000
    && 1 <= DstWidth(s) <= 0x10000 && 1 <= DstHeight(s) <= 0x10000
  }

  /** For sizes the encoder represents, the scaler stays off exactly when the
      source is the destination's size and starts on a whole pixel. */
  lemma ScalerOffIffIdentity(s: PlaneState)
    requires Visible(s) && Encodable(s)
    ensures Scaler(s) == ScalerOff <==>
              SrcWidth(s) == DstWidth(s) && SrcHeight(s) == DstHeight(s)
              && HPhase(s) == 0 && VPhase(s) == 0
  {
    SizeInjective(SrcWidth(s), SrcHeight(s), DstWidth(s), DstHeight(s));
  }

  /** Register file after the UI `update_coord` for a plane at blend slot `zpos`. */
  function CoordWritten(m: RegFile, cfg: MixerCfg, channel: nat, overlay: nat, s: PlaneState,
                        primary: bool, interlaced: bool, zpos: nat): RegFile
    requires Visible(s)
  {
    var bld := BlenderBase(cfg.isDe3);
    var ch := ChannelBase(cfg.isDe3, channel);
    var m1 := if primary then
        BitsUpdated(Written(Written(m, GLOBAL_SIZE, Outsize(s)), OutSize(bld), Outsize(s)),
                    OutCtl(bld), OUTCTL_INTERLACED, if interlaced then OUTCTL_INTERLACED else 0)
      else m;
    var m2 := Written(Written(m1, LayerSize(ch, overlay), Insize(s)), OvlSize(ch), Insize(s));
    Written(Written(m2, AttrCoord(bld, zpos), Coord(s.dst.x1, s.dst.y1)), AttrInsize(bld, zpos), Outsize(s))
  }

  /** `update_coord` for any plane: the layer and overlay sizes hold the
      source size, and the blend slot holds the destination position and size. */
  lemma CoordLayerWords(m: RegFile, cfg: MixerCfg, channel: nat, overlay: nat, s: PlaneState,
                        primary: bool, interlaced: bool, zpos: nat)
    requires Visible(s) && zpos < 8
    ensures var r := CoordWritten(m, cfg, channel, overlay, s, primary, interlaced, zpos);
      var bld, ch := BlenderBase(cfg.isDe3), ChannelBase(cfg.isDe3, channel);
      && Get(r, LayerSize(ch, overlay)) == Insize(s) && Get(r, OvlSize(ch)) == Insize(s)
      && Get(r, AttrCoord(bld, zpos)) == Coord(s.dst.x1, s.dst.y1)
      && Get(r, AttrInsize(bld, zpos)) == Outsize(s)
  {
    BlenderWordsDistinct(BlenderBase(cfg.isDe3), zpos, zpos);
  }

  /** For the primary plane, `update_coord` also sets the mixer's global size
      and the blender's output size to the destination size, and the
      blender's interlace bit to the mode's; other planes leave all three alone. */
  lemma CoordPrimaryWords(m: RegFile, cfg: MixerCfg, channel: nat, overlay: nat, s: PlaneState,
                          primary: bool, interlaced: bool, zpos: nat)
    requires Visible(s) && zpos < 8
    ensures var r := CoordWritten(m, cfg, channel, overlay, s, primary, interlaced, zpos);
      var bld := BlenderBase(cfg.isDe3);
      && (primary ==> Get(r, GLOBAL_SIZE) == Outsize(s) && Get(r, OutSize(bld)) == Outsize(s)
                      && Get(r, OutCtl(bld)) & OUTCTL_INTERLACED == (if interlaced then OUTCTL_INTERLACED else 0)
                      && Get(r, OutCtl(bld)) & !OUTCTL_INTERLACED == Get(m, OutCtl(bld)) & !OUTCTL_INTERLACED)
      && (!primary ==> Get(r, GLOBAL_SIZE) == Get(m, GLOBAL_SIZE) && Get(r, OutSize(bld)) == Get(m, OutSize(bld))
                       && Get(r, OutCtl(bld)) == Get(m, OutCtl(bld)))
  {
    BlenderWordsDistinct(BlenderBase(cfg.isDe3), zpos, zpos);
  }

  /** `update_coord` writes no register besides the seven it names. */
  lemma CoordFrame(m: RegFile, cfg: MixerCfg, channel: nat, overlay: nat, s: PlaneState,
                   primary: bool, interlaced: bool, zpos: nat, o: int)
    requires Visible(s)
    requires var bld, ch := BlenderBase(cfg.isDe3), ChannelBase(cfg.isDe3, channel);
      o !in {GLOBAL_SIZE, OutSize(bld), OutCtl(bld), LayerSize(ch, overlay), OvlSize(ch),
             AttrCoord(bld, zpos), AttrInsize(bld, zpos)}
    ensures Get(CoordWritten(m, cfg, channel, overlay, s, primary, interlaced, zpos), o) == Get(m, o)
  {
  }

  /** `sunh5_ui_layer_update_coord`; returns what it asks of the scaler. */
  method UpdateCoord(rm: RegMap, cfg: MixerCfg, channel: nat, overlay: nat, s: PlaneState,
                     primary: bool, interlaced: bool, zpos: nat) returns (scaler: ScalerCall)
    requires Visible(s)
    modifies rm
    ensures scaler == Scaler(s)
    ensures rm.regs == CoordWritten(old(rm.regs), cfg, channel, overlay, s, primary, interlaced, zpos)
  {
    var bld := BlenderBase(cfg.isDe3);
    var ch := ChannelBase(cfg.isDe3, channel);
    var insize := Insize(s);
    var outsize := Outsize(s);
    if primary {
      rm.Write(GLOBAL_SIZE, outsize);
      rm.Write(OutSize(bld), outsize);
      var val: bv32 := if interlaced then OUTCTL_INTERLACED else 0;
      rm.UpdateBits(OutCtl(bld), OUTCTL_INTERLACED, val);
    }
    rm.Write(LayerSize(ch, overlay), insize);
    rm.Write(OvlSize(ch), insize);
    scaler := Scaler(s);
    rm.Write(AttrCoord(bld, zpos), Coord(s.dst.x1, s.dst.y1));
    rm.Write(AttrInsize(bld, zpos), outsize);
  }

  // ---- update_formats ----

  /** The FBFMT field value for a fourcc, or -EINVAL when the catalogue has
      no entry for it or the entry is not read as RGB. */
  function FormatField(f: Fourcc): (r: Result<bv32>)
    ensures r.Ok? <==> Lookup(f).Some? && Lookup(f).value.rgb
    ensures r.Err? ==> r.code == -EINVAL
    ensures r.Ok? ==> Lookup(f).value.de2 < 32 && (r.value & ATTR_FBFMT_MASK) >> ATTR_FBFMT_OFFSET == Word(Lookup(f).value.de2)
  {
    var e := Lookup(f);
    if e.None? || !e.value.rgb then Err(-EINVAL)
    else
      CodesFitField(f);
      Ok(FbfmtField(e.value.de2))
  }

  /** Every format the UI planes advertise is accepted by `update_formats`. */
  lemma AdvertisedFormatsAccepted(f: Fourcc)
    requires f in UiFormats
    ensures FormatField(f).Ok?
  {
    UiFormatsAreRgb();
  }

  function FormatsWritten(m: RegFile, attr: int, f: Fourcc): RegFile
  {
    match FormatField(f)
    case Ok(v) => BitsUpdated(m, attr, ATTR_FBFMT_MASK, v)
    case Err(_) => m
  }

  /** `sunh5_ui_layer_update_formats`: on success only the FBFMT bits of the
      attribute word change; on failure nothing is written. */
  method UpdateFormats(rm: RegMap, cfg: MixerCfg, channel: nat, overlay: nat, f: Fourcc) returns (ret: int)
    modifies rm
    ensures ret == (if FormatField(f).Ok? then 0 else -EINVAL)
    ensures rm.regs == FormatsWritten(old(rm.regs), AttrOf(cfg, channel, overlay), f)
  {
    var field := FormatField(f);
    if field.Err? {
      return -EINVAL;
    }
    rm.UpdateBits(AttrOf(cfg, channel, overlay), ATTR_FBFMT_MASK, field.value);
    return 0;
  }

  // ---- update_buffer ----

  /** Register file after `update_buffer`: plane 0's pitch, and the address
      of the first source pixel. */
  function BufferWritten(m: RegFile, cfg: MixerCfg, channel: nat, overlay: nat, fb: Framebuffer, s: PlaneState): RegFile
    requires WellFormed(fb)
  {
    var ch := ChannelBase(cfg.isDe3, channel);
    Written(Written(m, Pitch(ch, overlay), fb.pitches[0]),
            TopLaddr(ch, overlay), Word(PixelAddress(fb, 0, SrcX(s) as int, SrcY(s) as int)))
  }

  /** `sunh5_ui_layer_update_buffer`. */
  method UpdateBuffer(rm: RegMap, cfg: MixerCfg, channel: nat, overlay: nat, fb: Framebuffer, s: PlaneState)
    requires WellFormed(fb)
    modifies rm
    ensures rm.regs == BufferWritten(old(rm.regs), cfg, channel, overlay, fb, s)
  {
    var ch := ChannelBase(cfg.isDe3, channel);
    var paddr := PixelAddress(fb, 0, SrcX(s) as int, SrcY(s) as int);
    rm.Write(Pitch(ch, overlay), fb.pitches[0]);
    rm.Write(TopLaddr(ch, overlay), Word(paddr));
  }

  // ---- atomic_update ----

  /** Register file after `sunh5_ui_layer_atomic_update`. A plane that is not
      visible only vacates its old slot. A visible plane gets its geometry,
      format, buffer and slot programmed in that order. */
  function Updated(m: RegFile, cfg: MixerCfg, layer: Layer, s: PlaneState, visible: bool, interlaced: bool,
                   fb: Framebuffer, zpos: bv32, oldZpos: bv32): RegFile
    requires layer.channel < 16 && zpos < 8 && oldZpos < 8
    requires visible ==> Visible(s) && WellFormed(fb)
  {
    if !visible then
      SlotUpdated(m, AttrOf(cfg, layer.channel, layer.overlay), BlenderBase(cfg.isDe3), layer.channel as bv32, false, 0, oldZpos)
    else Shown(m, cfg, layer, s, interlaced, fb, zpos, oldZpos)
  }

  /** A visible plane: its registers as `Staged` leaves them, then its layer
      enabled in slot `zpos`. */
  function Shown(m: RegFile, cfg: MixerCfg, layer: Layer, s: PlaneState, interlaced: bool,
                 fb: Framebuffer, zpos: bv32, oldZpos: bv32): RegFile
    requires layer.channel < 16 && zpos < 8 && oldZpos < 8 && Visible(s) && WellFormed(fb)
  {
    SlotUpdated(Staged(m, cfg, layer, s, interlaced, fb, zpos), AttrOf(cfg, layer.channel, layer.overlay),
                BlenderBase(cfg.isDe3), layer.channel as bv32, true, zpos, oldZpos)
  }

  /** Geometry, format and buffer of a visible plane; a failed format update
      writes nothing and the update carries on. */
  function Staged(m: RegFile, cfg: MixerCfg, layer: Layer, s: PlaneState, interlaced: bool,
                  fb: Framebuffer, zpos: bv32): RegFile
    requires Visible(s) && WellFormed(fb)
  {
    var m1 := CoordWritten(m, cfg, layer.channel, layer.overlay, s, layer.kind == Primary, interlaced, zpos as nat);
    var m2 := FormatsWritten(m1, AttrOf(cfg, layer.channel, layer.overlay), fb.format);
    BufferWritten(m2, cfg, layer.channel, layer.overlay, fb, s)
  }

  /** `sunh5_ui_layer_atomic_update`; returns the scaler request of a visible plane. */
  method AtomicUpdate(rm: RegMap, cfg: MixerCfg, layer: Layer, s: PlaneState, visible: bool, interlaced: bool,
                      fb: Framebuffer, zpos: bv32, oldZpos: bv32) returns (scaler: Option<ScalerCall>)
    requires layer.channel < 16 && zpos < 8 && oldZpos < 8
    requires visible ==> Visible(s) && WellFormed(fb)
    modifies rm
    ensures scaler == if visible then Some(Scaler(s)) else None
    ensures rm.regs == Updated(old(rm.regs), cfg, layer, s, visible, interlaced, fb, zpos, oldZpos)
  {
    if !visible {
      Enable(rm, cfg, layer.channel, layer.overlay, false, 0, oldZpos);
      return None;
    }
    var sc := UpdateCoord(rm, cfg, layer.channel, layer.overlay, s, layer.kind == Primary, interlaced, zpos as nat);
    var _ := UpdateFormats(rm, cfg, layer.channel, layer.overlay, fb.format);
    UpdateBuffer(rm, cfg, layer.channel, layer.overlay, fb, s);
    Enable(rm, cfg, layer.channel, layer.overlay, true, zpos, oldZpos);
    scaler := Some(sc);
  }

  /** The channel registers `update_coord` and `update_buffer` write lie
      apart from the layer's attribute word. */
  lemma ChannelWordsApart(cfg: MixerCfg, channel: nat, overlay: nat, zpos: nat)
    requires zpos < 8
    ensures var attr, ch, bld := AttrOf(cfg, channel, overlay), ChannelBase(cfg.isDe3, channel), BlenderBase(cfg.isDe3);
      attr !in {GLOBAL_SIZE, OutSize(bld), OutCtl(bld), LayerSize(ch, overlay), OvlSize(ch),
                AttrCoord(bld, zpos), AttrInsize(bld, zpos), Pitch(ch, overlay), TopLaddr(ch, overlay)}
  {
  }

  /** Of the steps of a visible update, only `update_formats` touches the
      attribute word before the layer is enabled. */
  lemma StepsBeforeEnable(m: RegFile, cfg: MixerCfg, layer: Layer, s: PlaneState, interlaced: bool,
                          fb: Framebuffer, zpos: bv32)
    requires zpos < 8 && Visible(s) && WellFormed(fb)
    ensures var attr := AttrOf(cfg, layer.channel, layer.overlay);
      Get(Staged(m, cfg, layer, s, interlaced, fb, zpos), attr) == Get(FormatsWritten(m, attr, fb.format), attr)
  {
    var attr := AttrOf(cfg, layer.channel, layer.overlay);
    ChannelWordsApart(cfg, layer.channel, layer.overlay, zpos as nat);
    CoordFrame(m, cfg, layer.channel, layer.overlay, s, layer.kind == Primary, interlaced, zpos as nat, attr);
  }

  /** After a visible update the attribute word is the one `update_formats`
      leaves, with the enable bit set. */
  lemma VisibleAttrWord(m: RegFile, cfg: MixerCfg, layer: Layer, s: PlaneState, interlaced: bool,
                        fb: Framebuffer, zpos: bv32, oldZpos: bv32)
    requires layer.channel < 16 && zpos < 8 && oldZpos < 8 && Visible(s) && WellFormed(fb)
    ensures var attr := AttrOf(cfg, layer.channel, layer.overlay);
      var r := Updated(m, cfg, layer, s, true, interlaced, fb, zpos, oldZpos);
      && Get(r, attr) & ATTR_EN == ATTR_EN
      && Get(r, attr) & !ATTR_EN == Get(FormatsWritten(m, attr, fb.format), attr) & !ATTR_EN
  {
    var attr := AttrOf(cfg, layer.channel, layer.overlay);
    StepsBeforeEnable(m, cfg, layer, s, interlaced, fb, zpos);
    AttrApart(cfg, layer.channel, layer.overlay);
    EnabledOver(Staged(m, cfg, layer, s, interlaced, fb, zpos), FormatsWritten(m, attr, fb.format),
                attr, BlenderBase(cfg.isDe3), layer.channel as bv32, zpos, oldZpos);
  }

  lemma EnabledOver(m: RegFile, f: RegFile, attr: int, bld: int, channel: bv32, zpos: bv32, oldZpos: bv32)
    requires zpos < 8 && oldZpos < 8 && Apart(attr, bld) && Get(m, attr) == Get(f, attr)
    ensures var r := SlotUpdated(m, attr, bld, channel, true, zpos, oldZpos);
      && Get(r, attr) & ATTR_EN == ATTR_EN
      && Get(r, attr) & !ATTR_EN == Get(f, attr) & !ATTR_EN
  {
    SlotAttrBit(m, attr, bld, channel, true, zpos, oldZpos);
  }

  /** A visible plane whose format `update_formats` rejects is still enabled
      in its slot, with the FBFMT field left as it was. */
  lemma UpdateIgnoresFormatError(m: RegFile, cfg: MixerCfg, layer: Layer, s: PlaneState, interlaced: bool,
                                 fb: Framebuffer, zpos: bv32, oldZpos: bv32)
    requires layer.channel < 16 && zpos < 8 && oldZpos < 8 && Visible(s) && WellFormed(fb)
    requires FormatField(fb.format).Err?
    ensures var r := Updated(m, cfg, layer, s, true, interlaced, fb, zpos, oldZpos);
      var attr := AttrOf(cfg, layer.channel, layer.overlay);
      && Get(r, attr) & ATTR_EN == ATTR_EN
      && Get(r, attr) & ATTR_FBFMT_MASK == Get(m, attr) & ATTR_FBFMT_MASK
  {
    var attr := AttrOf(cfg, layer.channel, layer.overlay);
    var r := Updated(m, cfg, layer, s, true, interlaced, fb, zpos, oldZpos);
    VisibleAttrWord(m, cfg, layer, s, interlaced, fb, zpos, oldZpos);
    EnableKeepsFormat(Get(m, attr), Get(r, attr));
  }

  lemma EnableKeepsFormat(before: bv32, after: bv32)
    requires after & !ATTR_EN == before & !ATTR_EN
    ensures after & ATTR_FBFMT_MASK == before & ATTR_FBFMT_MASK
  {
  }

  /** A visible plane with an accepted format ends with the FBFMT field
      `FormatField` computes, which reads back as its hardware code (that it
      ends enabled is `VisibleAttrWord`). */
  lemma UpdateProgramsFormat(m: RegFile, cfg: MixerCfg, layer: Layer, s: PlaneState, interlaced: bool,
                             fb: Framebuffer, zpos: bv32, oldZpos: bv32)
    requires layer.channel < 16 && zpos < 8 && oldZpos < 8 && Visible(s) && WellFormed(fb)
    requires FormatField(fb.format).Ok?
    ensures var r := Updated(m, cfg, layer, s, true, interlaced, fb, zpos, oldZpos);
      Get(r, AttrOf(cfg, layer.channel, layer.overlay)) & ATTR_FBFMT_MASK
        == FormatField(fb.format).value & ATTR_FBFMT_MASK
  {
    var attr := AttrOf(cfg, layer.channel, layer.overlay);
    var r := Updated(m, cfg, layer, s, true, interlaced, fb, zpos, oldZpos);
    var v := FormatField(fb.format).value;
    VisibleAttrWord(m, cfg, layer, s, interlaced, fb, zpos, oldZpos);
    FormatsWrittenWord(m, attr, fb.format);
    ProgrammedField(Get(r, attr), Get(m, attr), v);
  }

  lemma FormatsWrittenWord(m: RegFile, attr: int, f: Fourcc)
    requires FormatField(f).Ok?
    ensures Get(FormatsWritten(m, attr, f), attr) == Merge(Get(m, attr), ATTR_FBFMT_MASK, FormatField(f).value)
  {
  }
  lemma ProgrammedField(w: bv32, before: bv32, v: bv32)
    requires w & !ATTR_EN == Merge(before, ATTR_FBFMT_MASK, v) & !ATTR_EN
    ensures w & ATTR_FBFMT_MASK == v & ATTR_FBFMT_MASK
  {
  }

  // ---- init_one ----

  /** `sunh5_ui_layer_init_one` for UI layer `index`: the first is the
      primary plane; each drives channel vi_num + index, overlay 0, with a
      zpos property starting at its channel and ranging over the mixer's planes. */
  function InitOne(cfg: MixerCfg, index: nat, allocOk: bool, planeInitRet: int, zposRet: int): (r: Result<Layer>)
    ensures r.Ok? <==> allocOk && planeInitRet == 0 && zposRet == 0
    ensures r.Ok? ==> && r.value.channel == cfg.viNum + index && !r.value.isVi
                      && (r.value.kind == Primary <==> index == 0) && r.value.kind != Cursor
                      && r.value.overlay == 0 && r.value.zpos == r.value.channel
                      && r.value.zposMax == PlaneCount(cfg) - 1
  {
    var channel := cfg.viNum + index;
    InitOutcome(allocOk, planeInitRet, zposRet,
                Layer(if index == 0 then Primary else Overlay, false, channel, 0, channel, PlaneCount(cfg) - 1))
  }
}
