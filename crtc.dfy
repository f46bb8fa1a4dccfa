// The CRTC helpers (sunh5_crtc.c): the encoder lookup, the atomic check,
// begin, flush and enable hooks with the page-flip event hand-over, the
// vblank switches, and the plane roles `sunh5_crtc_init` assigns.
module Crtc {
  import opened Regs
  import opened Wrappers
  import opened Errno
  import opened CrtcState
  import opened Layers
  import Mixer
  import Tcon
  import MixerRegs

  // ---- get_encoder ----

  /** An encoder of the DRM device: its type and the CRTC it is attached to. */
  datatype Encoder = Encoder(kind: Tcon.EncoderType, crtc: Option<nat>)

  /** `sunh5_crtc_get_encoder`: the first encoder, in the device's order,
      attached to CRTC `crtc`. */
  function GetEncoder(encoders: seq<Encoder>, crtc: nat): (r: Option<nat>)
    ensures r.Some? ==> r.value < |encoders| && encoders[r.value].crtc == Some(crtc)
    ensures r.Some? ==> forall j :: 0 <= j < r.value ==> encoders[j].crtc != Some(crtc)
    ensures r.None? ==> forall j :: 0 <= j < |encoders| ==> encoders[j].crtc != Some(crtc)
  {
    EncoderFrom(encoders, crtc, 0)
  }

  function EncoderFrom(encoders: seq<Encoder>, crtc: nat, from: nat): (r: Option<nat>)
    requires from <= |encoders|
    ensures r.Some? ==> from <= r.value < |encoders| && encoders[r.value].crtc == Some(crtc)
    ensures r.Some? ==> forall j :: from <= j < r.value ==> encoders[j].crtc != Some(crtc)
    ensures r.None? ==> forall j :: from <= j < |encoders| ==> encoders[j].crtc != Some(crtc)
    decreases |encoders| - from
  {
    if from == |encoders| then None
    else if encoders[from].crtc == Some(crtc) then Some(from)
    else EncoderFrom(encoders, crtc, from + 1)
  }

  /** Whether some encoder is attached to `crtc`; the hooks that use the
      encoder dereference it without a check. */
  predicate HasEncoder(encoders: seq<Encoder>, crtc: nat)
  {
    exists j :: 0 <= j < |encoders| && encoders[j].crtc == Some(crtc)
  }

  // ---- atomic_check ----

  /** The engine operations a CRTC may call; only the presence of
      `atomic_check` matters here. */
  datatype EngineOps = EngineOps(hasAtomicCheck: bool)

  /** The mixer's operation table provides `commit` and `layers_init` only. */
  const MixerOps: EngineOps := EngineOps(hasAtomicCheck := false)

  /** `sunh5_crtc_atomic_check`: the engine's own check when it has one
      (`checkRet` is what that check returns), 0 otherwise. */
  function AtomicCheck(ops: Option<EngineOps>, checkRet: int): (r: int)
    ensures r != 0 ==> ops.Some? && ops.value.hasAtomicCheck && r == checkRet
    ensures ops.Some? && ops.value.hasAtomicCheck ==> r == checkRet
    ensures ops == Some(MixerOps) ==> r == 0
  {
    if ops.Some? && ops.value.hasAtomicCheck then checkRet else 0
  }

  // ---- atomic_begin / atomic_flush ----

  /** The events after `sunh5_crtc_atomic_begin`; `vblankGetOk` is whether
      `drm_crtc_vblank_get` succeeded (and so took a reference). */
  function Begun(e: Events, vblankGetOk: bool): Events
  {
    if e.pending.Some? then
      e.(refs := e.refs + (if vblankGetOk then 1 else 0), slot := e.pending, pending := None)
    else e
  }

  /** The events after `sunh5_crtc_atomic_flush`: an event still in the
      state is armed when a vblank reference can be taken, and sent at
      once otherwise. */
  function Flushed(e: Events, vblankGetOk: bool): Events
  {
    if e.pending.None? then e
    else if vblankGetOk then e.(pending := None, refs := e.refs + 1, armed := e.armed + [e.pending.value])
    else e.(pending := None, sent := e.sent + [e.pending.value])
  }

  /** Begin moves the state's event into the driver's slot; an event still
      in the slot is overwritten and so drops out of the accounting. */
  lemma BeginTakesEvent(e: Events, vblankGetOk: bool)
    ensures Begun(e, vblankGetOk).pending.None?
    ensures e.pending.Some? ==> Begun(e, vblankGetOk).slot == e.pending
    ensures e.pending.Some? ==> Held(Begun(e, vblankGetOk)) == Held(e) - OptionBag(e.slot)
    ensures e.pending.None? ==> Begun(e, vblankGetOk) == e
    ensures Begun(e, vblankGetOk).sent == e.sent && Begun(e, vblankGetOk).armed == e.armed
  {
    if e.pending.Some? {
      var b := Begun(e, vblankGetOk);
      assert Held(b) == OptionBag(e.pending) + multiset(e.armed) + multiset(e.sent);
    }
  }

  /** Flush empties the state's event into exactly one of `armed` (with a
      reference) or `sent`, and loses or duplicates nothing. */
  lemma FlushPlacesEvent(e: Events, vblankGetOk: bool)
    ensures Flushed(e, vblankGetOk).pending.None?
    ensures Held(Flushed(e, vblankGetOk)) == Held(e)
    ensures e.pending.Some? && vblankGetOk ==>
      Flushed(e, vblankGetOk).armed == e.armed + [e.pending.value] && Flushed(e, vblankGetOk).refs == e.refs + 1
      && Flushed(e, vblankGetOk).sent == e.sent
    ensures e.pending.Some? && !vblankGetOk ==>
      Flushed(e, vblankGetOk).sent == e.sent + [e.pending.value] && Flushed(e, vblankGetOk).armed == e.armed
    ensures Flushed(e, vblankGetOk).slot == e.slot
  {
  }

  /** After begin has taken the event, flush finds none and does nothing,
      so the event waits in the slot until the interrupt handler delivers
      it, exactly once. */
  lemma FlipCompletesInHandler(e: Events, ev: Event, beginOk: bool, flushOk: bool)
    requires e.pending == Some(ev)
    ensures Flushed(Begun(e, beginOk), flushOk) == Begun(e, beginOk)
    ensures Tcon.PageFlipFinished(Flushed(Begun(e, beginOk), flushOk)).sent == e.sent + [ev]
    ensures Tcon.PageFlipFinished(Tcon.PageFlipFinished(Flushed(Begun(e, beginOk), flushOk))).sent == e.sent + [ev]
  {
    Tcon.PageFlipDelivers(Begun(e, beginOk));
  }

  /** `sunh5_crtc_atomic_begin`. */
  method AtomicBegin(c: Crtc, vblankGetOk: bool)
    modifies c
    ensures c.events == Begun(old(c.events), vblankGetOk)
  {
    if c.events.pending.Some? {
      if vblankGetOk {
        c.events := c.events.(refs := c.events.refs + 1);
      }
      c.events := c.events.(slot := c.events.pending);
      c.events := c.events.(pending := None);
    }
  }

  /** `sunh5_crtc_atomic_flush`: commit the mixer's shadow registers, then
      hand any remaining event to the vblank core. */
  method AtomicFlush(c: Crtc, mixer: RegMap, vblankGetOk: bool)
    modifies c, mixer
    ensures mixer.regs == Mixer.Committed(old(mixer.regs))
    ensures c.events == Flushed(old(c.events), vblankGetOk)
  {
    Mixer.Commit(mixer);
    if c.events.pending.Some? {
      var ev := c.events.pending.value;
      c.events := c.events.(pending := None);
      if vblankGetOk {
        c.events := c.events.(refs := c.events.refs + 1, armed := c.events.armed + [ev]);
      } else {
        c.events := c.events.(sent := c.events.sent + [ev]);
      }
    }
  }

  // ---- atomic_enable, mode_set_nofb, vblank ----

  /** `sunh5_crtc_atomic_enable`: switch the TCON on for the attached
      encoder (`clock` is what `set_status` did to the channel clock), then
      turn vblank handling on. */
  method AtomicEnable(c: Crtc, tcon: RegMap, encoders: seq<Encoder>, crtc: nat) returns (clock: Option<bool>)
    requires HasEncoder(encoders, crtc)
    modifies c, tcon
    ensures GetEncoder(encoders, crtc).Some?
    ensures tcon.regs == Tcon.StatusSet(old(tcon.regs), encoders[GetEncoder(encoders, crtc).value].kind, true)
    ensures clock == (if Tcon.ChannelOf(encoders[GetEncoder(encoders, crtc).value].kind) == Some(1) then Some(true) else None)
    ensures c.events == old(c.events).(vblankOn := true)
  {
    var k := GetEncoder(encoders, crtc);
    clock := Tcon.SetStatus(tcon, encoders[k.value].kind, true);
    c.events := c.events.(vblankOn := true);
  }

  /** `sunh5_crtc_mode_set_nofb`: program the TCON for the adjusted mode. */
  method ModeSetNofb(tcon: RegMap, encoders: seq<Encoder>, crtc: nat, mode: Tcon.Mode) returns (dotClock: Option<int>)
    requires HasEncoder(encoders, crtc)
    modifies tcon
    ensures GetEncoder(encoders, crtc).Some?
    ensures tcon.regs == Tcon.ModeSetWords(old(tcon.regs), encoders[GetEncoder(encoders, crtc).value].kind, mode)
  {
    var k := GetEncoder(encoders, crtc);
    dotClock := Tcon.ModeSet(tcon, encoders[k.value].kind, mode);
  }

  /** `sunh5_crtc_enable_vblank`. */
  method EnableVblank(tcon: RegMap) returns (r: int)
    modifies tcon
    ensures r == 0
    ensures tcon.regs == Tcon.VblankSet(old(tcon.regs), true)
  {
    Tcon.EnableVblank(tcon, true);
    r := 0;
  }

  /** `sunh5_crtc_disable_vblank`. */
  method DisableVblank(tcon: RegMap)
    modifies tcon
    ensures tcon.regs == Tcon.VblankSet(old(tcon.regs), false)
  {
    Tcon.EnableVblank(tcon, false);
  }

  // ---- plane roles in crtc_init ----

  /** A plane array ends in a null entry. */
  predicate Terminated(planes: seq<Option<Layer>>)
  {
    exists k :: 0 <= k < |planes| && planes[k].None?
  }

  /** The position of the null entry ending a plane array. */
  function Terminator(planes: seq<Option<Layer>>): (k: nat)
    requires Terminated(planes)
    ensures k < |planes| && planes[k].None?
    ensures forall j :: 0 <= j < k ==> planes[j].Some?
  {
    NoneFrom(planes, 0)
  }

  function NoneFrom(planes: seq<Option<Layer>>, from: nat): (k: nat)
    requires from <= |planes|
    requires exists k :: from <= k < |planes| && planes[k].None?
    ensures from <= k < |planes| && planes[k].None?
    ensures forall j :: from <= j < k ==> planes[j].Some?
    decreases |planes| - from
  {
    if planes[from].None? then from else NoneFrom(planes, from + 1)
  }

  /** The last of the first `n` planes that has type `kind`. */
  function LastOfKind(planes: seq<Option<Layer>>, n: nat, kind: PlaneType): (r: Option<nat>)
    requires n <= |planes| && forall j :: 0 <= j < n ==> planes[j].Some?
    ensures r.Some? ==> r.value < n && planes[r.value].value.kind == kind
    ensures r.Some? ==> forall j :: r.value < j < n ==> planes[j].value.kind != kind
    ensures r.None? ==> forall j :: 0 <= j < n ==> planes[j].value.kind != kind
  {
    if n == 0 then None
    else if planes[n - 1].value.kind == kind then Some(n - 1)
    else LastOfKind(planes, n - 1, kind)
  }

  /** The planes among the first `n` whose type is overlay. */
  function OverlaySet(planes: seq<Option<Layer>>, n: nat): set<nat>
    requires n <= |planes| && forall j :: 0 <= j < n ==> planes[j].Some?
  {
    set j: nat | j < n && planes[j].value.kind == Overlay
  }

  /** The first loop of `sunh5_crtc_init`: the primary and cursor planes are
      the last plane of each type before the null entry. */
  method PlaneRoles(planes: seq<Option<Layer>>) returns (primary: Option<nat>, cursor: Option<nat>)
    requires Terminated(planes)
    ensures primary == LastOfKind(planes, Terminator(planes), Primary)
    ensures cursor == LastOfKind(planes, Terminator(planes), Cursor)
  {
    primary, cursor := None, None;
    var i := 0;
    while planes[i].Some?
      invariant i <= Terminator(planes)
      invariant primary == LastOfKind(planes, i, Primary)
      invariant cursor == LastOfKind(planes, i, Cursor)
      decreases Terminator(planes) - i
    {
      match planes[i].value.kind {
        case Primary => primary := Some(i);
        case Cursor => cursor := Some(i);
        case Overlay =>
      }
      i := i + 1;
    }
  }

  /** The second loop of `sunh5_crtc_init`: `possible_crtcs` is set on the
      overlay planes and on no other. */
  method MarkOverlays(planes: seq<Option<Layer>>) returns (marked: set<nat>)
    requires Terminated(planes)
    ensures marked == OverlaySet(planes, Terminator(planes))
  {
    marked := {};
    var i := 0;
    while planes[i].Some?
      invariant i <= Terminator(planes)
      invariant marked == OverlaySet(planes, i)
      decreases Terminator(planes) - i
    {
      if planes[i].value.kind == Overlay {
        marked := marked + {i};
      }
      i := i + 1;
    }
  }

  /** What `sunh5_crtc_init` returns: a CRTC with its primary and cursor
      planes and the overlays given `possible_crtcs`, a null pointer, or
      an error pointer. */
  datatype InitResult = Created(primary: Option<nat>, cursor: Option<nat>, overlays: set<nat>) | NoCrtc | InitFailed(code: int)

  /** `sunh5_crtc_init`, given the allocation, the engine's plane array and
      the result of `drm_crtc_init_with_planes`. A failed plane array gives
      a null pointer, not an error pointer. */
  method Init(allocOk: bool, layers: Result<seq<Option<Layer>>>, initRet: int) returns (r: InitResult)
    requires layers.Ok? ==> Terminated(layers.value)
    ensures !allocOk ==> r == InitFailed(-ENOMEM)
    ensures allocOk && layers.Err? ==> r == NoCrtc
    ensures allocOk && layers.Ok? && initRet != 0 ==> r == InitFailed(initRet)
    ensures allocOk && layers.Ok? && initRet == 0 ==>
      var planes := layers.value;
      var n := Terminator(planes);
      r == Created(LastOfKind(planes, n, Primary), LastOfKind(planes, n, Cursor), OverlaySet(planes, n))
  {
    if !allocOk {
      return InitFailed(-ENOMEM);
    }
    if layers.Err? {
      return NoCrtc;
    }
    var primary, cursor := PlaneRoles(layers.value);
    if initRet != 0 {
      return InitFailed(initRet);
    }
    var marked := MarkOverlays(layers.value);
    r := Created(primary, cursor, marked);
  }

  /** On the array the mixer builds, the first UI layer is the primary
      plane, there is no cursor, and every other layer is an overlay. */
  lemma MixerPlaneRoles(cfg: MixerRegs.MixerCfg, vi: seq<Mixer.InitCalls>, ui: seq<Mixer.InitCalls>,
                         planes: seq<Option<Layer>>, n: nat)
    requires |vi| == cfg.viNum && |ui| == cfg.uiNum && 1 <= |ui| && n == |vi| + |ui|
    requires forall i :: 0 <= i < n ==> Mixer.LayerAt(cfg, vi, ui, i).Ok?
    requires |planes| == n + 1 && planes[n] == None
    requires forall i :: 0 <= i < n ==> planes[i] == Some(Mixer.LayerAt(cfg, vi, ui, i).value)
    ensures Terminated(planes) && Terminator(planes) == n
    ensures LastOfKind(planes, n, Primary) == Some(|vi|)
    ensures LastOfKind(planes, n, Cursor) == None
    ensures forall j: nat :: j < n ==> (j in OverlaySet(planes, n) <==> j != |vi|)
  {
    assert planes[n].None?;
    forall j | 0 <= j < n
      ensures planes[j].value.kind == (if j == |vi| then Primary else Overlay)
    {
      Mixer.LayersByChannel(cfg, vi, ui, j);
      LayerKinds(cfg, vi, ui, j);
    }
    assert planes[|vi|].value.kind == Primary;
    var p := LastOfKind(planes, n, Primary);
    assert p.Some?;
    assert planes[p.value].value.kind == Primary;
  }

  /** No layer of the mixer is a cursor: VI layers are overlays and UI
      layers are overlays but for the first. */
  lemma LayerKinds(cfg: MixerRegs.MixerCfg, vi: seq<Mixer.InitCalls>, ui: seq<Mixer.InitCalls>, j: nat)
    requires |vi| == cfg.viNum && |ui| == cfg.uiNum && j < |vi| + |ui|
    requires Mixer.LayerAt(cfg, vi, ui, j).Ok?
    ensures Mixer.LayerAt(cfg, vi, ui, j).value.kind != Cursor
  {
  }
}
