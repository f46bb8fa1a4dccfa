// What the UI and VI layer controllers share: the blend-pipe slot a visible
// layer claims (enable bit, pipe-enable bit, route nibble), the plane-state
// check, and the clipped plane geometry the DRM core hands to them.
module Layers {
  import opened Regs
  import opened Errno
  import opened MixerRegs
  import opened Wrappers
  import Formats

  /** LAYER_ATTR_EN: bit 0 of a layer's attribute word, in UI and VI channels alike. */
  const ATTR_EN: bv32 := 1
  /** LAYER_ATTR_FBFMT: the hardware format code in bits 12:8 of the attribute word. */
  const ATTR_FBFMT_MASK: bv32 := 0x1f00
  const ATTR_FBFMT_OFFSET: bv32 := 8

  /** Updating ROUTE_PIPE_MSK(n) to `v << 4n` sets nibble n to `v` and keeps every other nibble. */
  lemma RouteNibbleMerge(w: bv32, n: bv32, v: bv32, k: bv32)
    requires n < 8 && k < 8
    ensures RouteNibble(Merge(w, RouteMask(n), v << RouteShift(n)), n) == v & 0xf
    ensures k != n ==> RouteNibble(Merge(w, RouteMask(n), v << RouteShift(n)), k) == RouteNibble(w, k)
  {
  }

  /** The blender's pipe-control word with pipe `z` switched off and route
      nibble `z` emptied, as the disable path of `layer_enable` leaves it. */
  function Vacated(m: RegFile, bld: int, z: bv32): (r: RegFile)
    requires z < 8
  {
    BitsUpdated(BitsUpdated(m, PipeCtl(bld), PipeEn(z), 0), Route(bld), RouteMask(z), 0)
  }

  /** Pipe `z` switched on and route nibble `z` pointing at `channel`. */
  function Claimed(m: RegFile, bld: int, channel: bv32, z: bv32): (r: RegFile)
    requires z < 8
  {
    BitsUpdated(BitsUpdated(m, PipeCtl(bld), PipeEn(z), PipeEn(z)), Route(bld), RouteMask(z), channel << RouteShift(z))
  }

  /** Register file after `sunh5_ui_layer_enable` / `sunh5_vi_layer_enable`
      for the layer whose attribute word is at `attr`. */
  function SlotUpdated(m: RegFile, attr: int, bld: int, channel: bv32, enable: bool, zpos: bv32, oldZpos: bv32): RegFile
    requires zpos < 8 && oldZpos < 8
  {
    var m1 := BitsUpdated(m, attr, ATTR_EN, if enable then ATTR_EN else 0);
    var m2 := if !enable || zpos != oldZpos then Vacated(m1, bld, oldZpos) else m1;
    if enable then Claimed(m2, bld, channel, zpos) else m2
  }

  /** The pipe bits `layer_enable` may change: the vacated slot's and the claimed slot's. */
  function TouchedPipes(enable: bool, zpos: bv32, oldZpos: bv32): bv32
    requires zpos < 8 && oldZpos < 8
  {
    (if !enable || zpos != oldZpos then PipeEn(oldZpos) else 0) | (if enable then PipeEn(zpos) else 0)
  }

  /** The route bits `layer_enable` may change. */
  function TouchedRoutes(enable: bool, zpos: bv32, oldZpos: bv32): bv32
    requires zpos < 8 && oldZpos < 8
  {
    (if !enable || zpos != oldZpos then RouteMask(oldZpos) else 0) | (if enable then RouteMask(zpos) else 0)
  }

  /** The attribute word lies outside the blender's pipe-control and route words. */
  predicate Apart(attr: int, bld: int)
  {
    attr != PipeCtl(bld) && attr != Route(bld) && PipeCtl(bld) != Route(bld)
  }

  /** The pipe-control word after `layer_enable`. */
  function PipeWord(w: bv32, enable: bool, zpos: bv32, oldZpos: bv32): bv32
    requires zpos < 8 && oldZpos < 8
  {
    var w1 := if !enable || zpos != oldZpos then Merge(w, PipeEn(oldZpos), 0) else w;
    if enable then Merge(w1, PipeEn(zpos), PipeEn(zpos)) else w1
  }

  /** The route word after `layer_enable`. */
  function RouteWord(w: bv32, channel: bv32, enable: bool, zpos: bv32, oldZpos: bv32): bv32
    requires zpos < 8 && oldZpos < 8
  {
    var w1 := if !enable || zpos != oldZpos then Merge(w, RouteMask(oldZpos), 0) else w;
    if enable then Merge(w1, RouteMask(zpos), channel << RouteShift(zpos)) else w1
  }

  // Two updates through disjoint masks: each mask takes its value, the rest
  // is kept. (One bit-vector fact per lemma keeps the solver quick.)
  lemma DisjointMergesFirst(w: bv32, a: bv32, va: bv32, b: bv32, vb: bv32)
    requires a & b == 0
    ensures Merge(Merge(w, a, va), b, vb) & a == va & a
  {
  }

  lemma DisjointMergesRest(w: bv32, a: bv32, va: bv32, b: bv32, vb: bv32)
    requires a & b == 0
    ensures Merge(Merge(w, a, va), b, vb) & !(a | b) == w & !(a | b)
  {
  }

  lemma PipeEnDisjoint(p: bv32, q: bv32)
    requires p < 8 && q < 8
    ensures PipeEn(p) != 0
    ensures p != q ==> PipeEn(p) & PipeEn(q) == 0
  {
  }

  /** An enabled layer's pipe bit is on after `layer_enable`. */
  lemma PipeWordClaims(w: bv32, enable: bool, zpos: bv32, oldZpos: bv32)
    requires zpos < 8 && oldZpos < 8 && enable
    ensures PipeWord(w, enable, zpos, oldZpos) & PipeEn(zpos) != 0
  {
    PipeEnDisjoint(zpos, oldZpos);
    var w1 := if zpos != oldZpos then Merge(w, PipeEn(oldZpos), 0) else w;
    assert PipeWord(w, enable, zpos, oldZpos) & PipeEn(zpos) == PipeEn(zpos) & PipeEn(zpos);
  }

  /** A disabled or moved layer's old pipe bit is off after `layer_enable`. */
  lemma PipeWordVacates(w: bv32, enable: bool, zpos: bv32, oldZpos: bv32)
    requires zpos < 8 && oldZpos < 8 && (!enable || zpos != oldZpos)
    ensures PipeWord(w, enable, zpos, oldZpos) & PipeEn(oldZpos) == 0
  {
    PipeEnDisjoint(zpos, oldZpos);
    var po := PipeEn(oldZpos);
    if enable {
      DisjointMergesFirst(w, po, 0, PipeEn(zpos), PipeEn(zpos));
    }
  }

  /** A single update through `a` keeps every bit outside a mask `c` that covers `a`. */
  lemma MergeKeepsOutside(w: bv32, a: bv32, va: bv32, c: bv32)
    requires a & !c == 0
    ensures Merge(w, a, va) & !c == w & !c
  {
  }

  /** `layer_enable` keeps every pipe bit outside the two slots it touches. */
  lemma PipeWordKeeps(w: bv32, enable: bool, zpos: bv32, oldZpos: bv32)
    requires zpos < 8 && oldZpos < 8
    ensures PipeWord(w, enable, zpos, oldZpos) & !TouchedPipes(enable, zpos, oldZpos)
            == w & !TouchedPipes(enable, zpos, oldZpos)
  {
    if !enable {
      PipeKeepsVacated(w, enable, zpos, oldZpos);
    } else if zpos == oldZpos {
      PipeKeepsStaying(w, enable, zpos, oldZpos);
    } else {
      PipeKeepsMoved(w, enable, zpos, oldZpos);
    }
  }

  lemma PipeKeepsVacated(w: bv32, enable: bool, zpos: bv32, oldZpos: bv32)
    requires zpos < 8 && oldZpos < 8 && !enable
    ensures PipeWord(w, enable, zpos, oldZpos) & !TouchedPipes(enable, zpos, oldZpos)
            == w & !TouchedPipes(enable, zpos, oldZpos)
  {
    var po := PipeEn(oldZpos);
    assert TouchedPipes(enable, zpos, oldZpos) == po;
    assert PipeWord(w, enable, zpos, oldZpos) == Merge(w, po, 0);
  }

  lemma PipeKeepsStaying(w: bv32, enable: bool, zpos: bv32, oldZpos: bv32)
    requires zpos < 8 && oldZpos < 8 && enable && zpos == oldZpos
    ensures PipeWord(w, enable, zpos, oldZpos) & !TouchedPipes(enable, zpos, oldZpos)
            == w & !TouchedPipes(enable, zpos, oldZpos)
  {
    var pz := PipeEn(zpos);
    assert TouchedPipes(enable, zpos, oldZpos) == pz;
    assert PipeWord(w, enable, zpos, oldZpos) == Merge(w, pz, pz);
  }

  lemma PipeKeepsMoved(w: bv32, enable: bool, zpos: bv32, oldZpos: bv32)
    requires zpos < 8 && oldZpos < 8 && enable && zpos != oldZpos
    ensures PipeWord(w, enable, zpos, oldZpos) & !TouchedPipes(enable, zpos, oldZpos)
            == w & !TouchedPipes(enable, zpos, oldZpos)
  {
    PipeEnDisjoint(zpos, oldZpos);
    var pz, po := PipeEn(zpos), PipeEn(oldZpos);
    assert TouchedPipes(enable, zpos, oldZpos) == po | pz;
    assert PipeWord(w, enable, zpos, oldZpos) == Merge(Merge(w, po, 0), pz, pz);
    DisjointMergesRest(w, po, 0, pz, pz);
  }

  /** Nibble n is determined by the bits under ROUTE_PIPE_MSK(n). */
  lemma NibbleUnderMask(r: bv32, x: bv32, n: bv32)
    requires n < 8 && r & RouteMask(n) == x & RouteMask(n)
    ensures RouteNibble(r, n) == RouteNibble(x, n)
  {
  }

  /** An enabled layer's route nibble names its channel after `layer_enable`. */
  lemma RouteWordClaims(w: bv32, channel: bv32, enable: bool, zpos: bv32, oldZpos: bv32)
    requires zpos < 8 && oldZpos < 8 && channel < 16 && enable
    ensures RouteNibble(RouteWord(w, channel, enable, zpos, oldZpos), zpos) == channel
  {
    var v := channel << RouteShift(zpos);
    RouteNibbles(zpos, zpos, channel);
    NibbleUnderMask(RouteWord(w, channel, enable, zpos, oldZpos), v, zpos);
  }

  /** A disabled or moved layer's old route nibble is empty after `layer_enable`. */
  lemma RouteWordVacates(w: bv32, channel: bv32, enable: bool, zpos: bv32, oldZpos: bv32)
    requires zpos < 8 && oldZpos < 8 && (!enable || zpos != oldZpos)
    ensures RouteNibble(RouteWord(w, channel, enable, zpos, oldZpos), oldZpos) == 0
  {
    var ro := RouteMask(oldZpos);
    var r := RouteWord(w, channel, enable, zpos, oldZpos);
    RouteNibbles(zpos, oldZpos, 0);
    if enable {
      DisjointMergesFirst(w, ro, 0, RouteMask(zpos), channel << RouteShift(zpos));
    }
    assert r & ro == 0 & ro;
    NibbleUnderMask(r, 0, oldZpos);
  }

  /** `layer_enable` keeps every route nibble outside the two slots it touches. */
  lemma RouteWordKeeps(w: bv32, channel: bv32, enable: bool, zpos: bv32, oldZpos: bv32)
    requires zpos < 8 && oldZpos < 8
    ensures RouteWord(w, channel, enable, zpos, oldZpos) & !TouchedRoutes(enable, zpos, oldZpos)
            == w & !TouchedRoutes(enable, zpos, oldZpos)
  {
    if !enable {
      RouteKeepsVacated(w, channel, enable, zpos, oldZpos);
    } else if zpos == oldZpos {
      RouteKeepsStaying(w, channel, enable, zpos, oldZpos);
    } else {
      RouteKeepsMoved(w, channel, enable, zpos, oldZpos);
    }
  }

  lemma RouteKeepsVacated(w: bv32, channel: bv32, enable: bool, zpos: bv32, oldZpos: bv32)
    requires zpos < 8 && oldZpos < 8 && !enable
    ensures RouteWord(w, channel, enable, zpos, oldZpos) & !TouchedRoutes(enable, zpos, oldZpos)
            == w & !TouchedRoutes(enable, zpos, oldZpos)
  {
    var ro := RouteMask(oldZpos);
    assert TouchedRoutes(enable, zpos, oldZpos) == ro;
    assert RouteWord(w, channel, enable, zpos, oldZpos) == Merge(w, ro, 0);
  }

  lemma RouteKeepsStaying(w: bv32, channel: bv32, enable: bool, zpos: bv32, oldZpos: bv32)
    requires zpos < 8 && oldZpos < 8 && enable && zpos == oldZpos
    ensures RouteWord(w, channel, enable, zpos, oldZpos) & !TouchedRoutes(enable, zpos, oldZpos)
            == w & !TouchedRoutes(enable, zpos, oldZpos)
  {
    var rz := RouteMask(zpos);
    assert TouchedRoutes(enable, zpos, oldZpos) == rz;
    assert RouteWord(w, channel, enable, zpos, oldZpos) == Merge(w, rz, channel << RouteShift(zpos));
  }

  lemma RouteKeepsMoved(w: bv32, channel: bv32, enable: bool, zpos: bv32, oldZpos: bv32)
    requires zpos < 8 && oldZpos < 8 && enable && zpos != oldZpos
    ensures RouteWord(w, channel, enable, zpos, oldZpos) & !TouchedRoutes(enable, zpos, oldZpos)
            == w & !TouchedRoutes(enable, zpos, oldZpos)
  {
    var rz, ro := RouteMask(zpos), RouteMask(oldZpos);
    RouteNibbles(zpos, oldZpos, 0);
    assert TouchedRoutes(enable, zpos, oldZpos) == ro | rz;
    assert RouteWord(w, channel, enable, zpos, oldZpos) == Merge(Merge(w, ro, 0), rz, channel << RouteShift(zpos));
    DisjointMergesRest(w, ro, 0, rz, channel << RouteShift(zpos));
  }

  /** The three words `layer_enable` touches, read back from its result. */
  lemma SlotWords(m: RegFile, attr: int, bld: int, channel: bv32, enable: bool, zpos: bv32, oldZpos: bv32)
    requires zpos < 8 && oldZpos < 8 && Apart(attr, bld)
    ensures var r := SlotUpdated(m, attr, bld, channel, enable, zpos, oldZpos);
      && Get(r, attr) == Merge(Get(m, attr), ATTR_EN, if enable then ATTR_EN else 0)
      && Get(r, PipeCtl(bld)) == PipeWord(Get(m, PipeCtl(bld)), enable, zpos, oldZpos)
      && Get(r, Route(bld)) == RouteWord(Get(m, Route(bld)), channel, enable, zpos, oldZpos)
      && (forall o :: o != attr && o != PipeCtl(bld) && o != Route(bld) ==> Get(r, o) == Get(m, o))
  {
  }

  // What `layer_enable` does, one register at a time.

  /** Only bit 0 of the layer's attribute word changes, and it follows `enable`. */
  lemma SlotAttrBit(m: RegFile, attr: int, bld: int, channel: bv32, enable: bool, zpos: bv32, oldZpos: bv32)
    requires zpos < 8 && oldZpos < 8 && Apart(attr, bld)
    ensures var r := SlotUpdated(m, attr, bld, channel, enable, zpos, oldZpos);
      && Get(r, attr) & ATTR_EN == (if enable then ATTR_EN else 0)
      && Get(r, attr) & !ATTR_EN == Get(m, attr) & !ATTR_EN
  {
    SlotWords(m, attr, bld, channel, enable, zpos, oldZpos);
  }

  /** An enabled layer ends with pipe `zpos` on and route nibble `zpos` naming its channel. */
  lemma SlotClaimed(m: RegFile, attr: int, bld: int, channel: bv32, zpos: bv32, oldZpos: bv32)
    requires zpos < 8 && oldZpos < 8 && channel < 16 && Apart(attr, bld)
    ensures var r := SlotUpdated(m, attr, bld, channel, true, zpos, oldZpos);
      && Get(r, PipeCtl(bld)) & PipeEn(zpos) != 0
      && RouteNibble(Get(r, Route(bld)), zpos) == channel
  {
    SlotWords(m, attr, bld, channel, true, zpos, oldZpos);
    PipeWordClaims(Get(m, PipeCtl(bld)), true, zpos, oldZpos);
    RouteWordClaims(Get(m, Route(bld)), channel, true, zpos, oldZpos);
  }

  /** A disabled layer, or one moved to another slot, leaves pipe `oldZpos`
      off and route nibble `oldZpos` empty, whichever channel that nibble
      named before. */
  lemma SlotVacated(m: RegFile, attr: int, bld: int, channel: bv32, enable: bool, zpos: bv32, oldZpos: bv32)
    requires zpos < 8 && oldZpos < 8 && Apart(attr, bld) && (!enable || zpos != oldZpos)
    ensures var r := SlotUpdated(m, attr, bld, channel, enable, zpos, oldZpos);
      && Get(r, PipeCtl(bld)) & PipeEn(oldZpos) == 0
      && RouteNibble(Get(r, Route(bld)), oldZpos) == 0
  {
    SlotWords(m, attr, bld, channel, enable, zpos, oldZpos);
    PipeWordVacates(Get(m, PipeCtl(bld)), enable, zpos, oldZpos);
    RouteWordVacates(Get(m, Route(bld)), channel, enable, zpos, oldZpos);
  }

  /** Every other pipe bit keeps its value. */
  lemma SlotKeepsPipes(m: RegFile, attr: int, bld: int, channel: bv32, enable: bool, zpos: bv32, oldZpos: bv32)
    requires zpos < 8 && oldZpos < 8 && Apart(attr, bld)
    ensures var r := SlotUpdated(m, attr, bld, channel, enable, zpos, oldZpos);
      Get(r, PipeCtl(bld)) & !TouchedPipes(enable, zpos, oldZpos) == Get(m, PipeCtl(bld)) & !TouchedPipes(enable, zpos, oldZpos)
  {
    SlotWords(m, attr, bld, channel, enable, zpos, oldZpos);
    PipeWordKeeps(Get(m, PipeCtl(bld)), enable, zpos, oldZpos);
  }

  /** Every other route nibble keeps its value. */
  lemma SlotKeepsRoutes(m: RegFile, attr: int, bld: int, channel: bv32, enable: bool, zpos: bv32, oldZpos: bv32)
    requires zpos < 8 && oldZpos < 8 && Apart(attr, bld)
    ensures var r := SlotUpdated(m, attr, bld, channel, enable, zpos, oldZpos);
      Get(r, Route(bld)) & !TouchedRoutes(enable, zpos, oldZpos) == Get(m, Route(bld)) & !TouchedRoutes(enable, zpos, oldZpos)
  {
    SlotWords(m, attr, bld, channel, enable, zpos, oldZpos);
    RouteWordKeeps(Get(m, Route(bld)), channel, enable, zpos, oldZpos);
  }

  /** Disabling a layer a second time from the same slot changes nothing more. */
  lemma DisableIdempotent(m: RegFile, attr: int, bld: int, channel: bv32, oldZpos: bv32)
    requires oldZpos < 8 && Apart(attr, bld)
    ensures var once := SlotUpdated(m, attr, bld, channel, false, 0, oldZpos);
      SlotUpdated(once, attr, bld, channel, false, 0, oldZpos) == once
  {
    var once := SlotUpdated(m, attr, bld, channel, false, 0, oldZpos);
    MergeAgain(Get(m, attr), ATTR_EN, 0);
    var pm := BitsUpdated(m, attr, ATTR_EN, 0);
    MergeAgain(Get(pm, PipeCtl(bld)), PipeEn(oldZpos), 0);
    var pp := BitsUpdated(pm, PipeCtl(bld), PipeEn(oldZpos), 0);
    MergeAgain(Get(pp, Route(bld)), RouteMask(oldZpos), 0);
    assert once == pp[Route(bld) := Merge(Get(pp, Route(bld)), RouteMask(oldZpos), 0)];
    var twice := SlotUpdated(once, attr, bld, channel, false, 0, oldZpos);
    assert Get(once, attr) == Get(pm, attr);
    assert Get(once, PipeCtl(bld)) == Get(pp, PipeCtl(bld));
    assert twice == once;
  }

  /** `sunh5_ui_layer_enable` / `sunh5_vi_layer_enable`, given the layer's
      attribute-word offset and the blender base. */
  method LayerEnable(rm: RegMap, attr: int, bld: int, channel: bv32, enable: bool, zpos: bv32, oldZpos: bv32)
    requires zpos < 8 && oldZpos < 8
    modifies rm
    ensures rm.regs == SlotUpdated(old(rm.regs), attr, bld, channel, enable, zpos, oldZpos)
  {
    var val: bv32 := if enable then ATTR_EN else 0;
    rm.UpdateBits(attr, ATTR_EN, val);
    if !enable || zpos != oldZpos {
      rm.UpdateBits(PipeCtl(bld), PipeEn(oldZpos), 0);
      rm.UpdateBits(Route(bld), RouteMask(oldZpos), 0);
    }
    if enable {
      val := PipeEn(zpos);
      rm.UpdateBits(PipeCtl(bld), val, val);
      val := channel << RouteShift(zpos);
      rm.UpdateBits(Route(bld), RouteMask(zpos), val);
    }
  }

  // ---- atomic_check ----

  /** DRM_PLANE_HELPER_NO_SCALING: a 16.16 scale factor of exactly 1. */
  const NO_SCALING: int := 0x10000

  /** The minimum and maximum 16.16 scale factors handed to the plane-state helper. */
  datatype ScaleRange = ScaleRange(minScale: int, maxScale: int)

  const Unscaled: ScaleRange := ScaleRange(NO_SCALING, NO_SCALING)

  /** How `atomic_check` ends: accepted outright, rejected with an errno, or
      decided by `drm_atomic_helper_check_plane_state` under the given limits
      (its verdict is the check's return value). */
  datatype CheckStep = Accept | Reject(code: int) | Delegate(limits: ScaleRange)

  /** `atomic_check` of a UI or VI layer on channel `channel`, where `scaler`
      is the range its scaler supports. A plane without a CRTC is accepted; a
      CRTC without a state in the commit is an error; otherwise the helper
      decides, with scaling allowed only on channels that have a scaler. */
  function AtomicCheck(cfg: MixerCfg, channel: nat, scaler: ScaleRange, hasCrtc: bool, hasCrtcState: bool): (r: CheckStep)
    requires channel < 32
    ensures r == Accept <==> !hasCrtc
    ensures r.Reject? <==> hasCrtc && !hasCrtcState
    ensures r.Reject? ==> r.code == -EINVAL
    ensures r.Delegate? && r.limits != Unscaled ==> HasScaler(cfg, channel)
    ensures r.Delegate? && HasScaler(cfg, channel) ==> r.limits == scaler
  {
    if !hasCrtc then Accept
    else if !hasCrtcState then Reject(-EINVAL)
    else if HasScaler(cfg, channel) then Delegate(scaler)
    else Delegate(Unscaled)
  }

  // ---- plane geometry and framebuffer ----

  /** A DRM rectangle: 16.16 fixed point for a source, whole pixels for a
      destination. Coordinates are kept as the 32-bit words the C `int`
      fields hold once clipped to non-negative values. */
  datatype Rect = Rect(x1: bv32, y1: bv32, x2: bv32, y2: bv32)

  /** The plane state `atomic_update` reads: the clipped source and
      destination rectangles, and the unclipped 16.16 source size and CRTC size. */
  datatype PlaneState = PlaneState(src: Rect, dst: Rect, srcW: bv32, srcH: bv32, crtcW: bv32, crtcH: bv32)

  /** A rectangle as the plane-state helper leaves it: ordered, non-negative
      and within C `int` range. */
  predicate Clipped(r: Rect)
  {
    r.x1 <= r.x2 < 0x8000_0000 && r.y1 <= r.y2 < 0x8000_0000
  }

  /** The state of a visible plane: both rectangles clipped, a non-empty
      destination, and a CRTC of non-zero size. */
  predicate Visible(s: PlaneState)
  {
    Clipped(s.src) && Clipped(s.dst) && s.dst.x1 < s.dst.x2 && s.dst.y1 < s.dst.y2
    && s.crtcW != 0 && s.crtcH != 0
  }

  // The quantities both update_coord functions derive from the plane state:
  // whole source pixels (`width >> 16`), the fractional start (`x1 & 0xffff`),
  // and destination pixels.
  function SrcWidth(s: PlaneState): bv32 { (s.src.x2 - s.src.x1) >> 16 }
  function SrcHeight(s: PlaneState): bv32 { (s.src.y2 - s.src.y1) >> 16 }
  function SrcX(s: PlaneState): bv32 { s.src.x1 >> 16 }
  function SrcY(s: PlaneState): bv32 { s.src.y1 >> 16 }
  function HPhase(s: PlaneState): bv32 { s.src.x1 & 0xffff }
  function VPhase(s: PlaneState): bv32 { s.src.y1 & 0xffff }
  function DstWidth(s: PlaneState): bv32 { s.dst.x2 - s.dst.x1 }
  function DstHeight(s: PlaneState): bv32 { s.dst.y2 - s.dst.y1 }

  /** SIZE of the destination rectangle, as both layer kinds program it. */
  function Outsize(s: PlaneState): bv32
  {
    Size(DstWidth(s), DstHeight(s))
  }

  /** A 16.16 coordinate is its whole part shifted up joined with its fraction. */
  lemma FixedPointSplit(s: PlaneState)
    ensures (SrcX(s) << 16) | HPhase(s) == s.src.x1
  {
  }

  /** What `update_coord` asks of the channel's scaler: switch it off, or set
      it up for these pixel sizes, 16.16 scale factors and phases and switch
      it on. The scaler's own registers are not part of this model. */
  datatype ScalerCall =
    | ScalerOff
    | ScalerOn(srcW: bv32, srcH: bv32, dstW: bv32, dstH: bv32, hscale: bv32, vscale: bv32, hphase: bv32, vphase: bv32)

  /** The word a value below 2^32 is stored as. */
  function Word(x: nat): bv32
    requires x < 0x1_0000_0000
  {
    x as bv32
  }

  /** The FBFMT field of a layer attribute word holding hardware format `code`. */
  function FbfmtField(code: nat): (r: bv32)
    requires code < 32
    ensures (r & ATTR_FBFMT_MASK) >> ATTR_FBFMT_OFFSET == Word(code)
  {
    SmallWord(code);
    FieldReadsBack(Word(code));
    Word(code) << ATTR_FBFMT_OFFSET
  }

  lemma SmallWord(x: nat)
    requires x < 32
    ensures Word(x) < 32
  {
  }

  lemma FieldReadsBack(x: bv32)
    requires x < 32
    ensures ((x << ATTR_FBFMT_OFFSET) & ATTR_FBFMT_MASK) >> ATTR_FBFMT_OFFSET == x
  {
  }

  /** `lower_32_bits` of a bus address. */
  function Lower32(a: nat): (r: nat)
    ensures r < 0x1_0000_0000
  {
    a % 0x1_0000_0000
  }

  /** The parts of a framebuffer the layers read, per colour plane: the
      buffer's bus address (`paddr` of its GEM object), the plane's offset,
      line pitch and bytes per pixel, plus the format's chroma subsampling. */
  datatype Framebuffer = Framebuffer(
    format: Formats.Fourcc, numPlanes: nat, hsub: bv32, vsub: bv32,
    paddr: seq<nat>, offsets: seq<nat>, pitches: seq<bv32>, cpp: seq<nat>)

  /** Per-plane arrays cover every plane, and subsampling is 1, 2 or 4. */
  predicate WellFormed(fb: Framebuffer)
  {
    1 <= fb.numPlanes <= |fb.paddr| && fb.numPlanes <= |fb.offsets|
    && fb.numPlanes <= |fb.pitches| && fb.numPlanes <= |fb.cpp|
    && (fb.hsub == 1 || fb.hsub == 2 || fb.hsub == 4)
    && (fb.vsub == 1 || fb.vsub == 2 || fb.vsub == 4)
  }

  /** Bus address of source pixel (x, y) in plane `i`, truncated to 32 bits
      as the layer address registers hold it. */
  function PixelAddress(fb: Framebuffer, i: nat, x: nat, y: nat): (r: nat)
    requires i < |fb.paddr| && i < |fb.offsets| && i < |fb.pitches| && i < |fb.cpp|
    ensures r < 0x1_0000_0000
  {
    Lower32(fb.paddr[i] + fb.offsets[i] + x * fb.cpp[i] + y * fb.pitches[i] as int)
  }

  /** Moving one source row down moves the address one pitch on, and one
      pixel right moves it one pixel size on, modulo 2^32. */
  lemma PixelAddressSteps(fb: Framebuffer, i: nat, x: nat, y: nat)
    requires i < |fb.paddr| && i < |fb.offsets| && i < |fb.pitches| && i < |fb.cpp|
    ensures PixelAddress(fb, i, x, y + 1) == Lower32(PixelAddress(fb, i, x, y) + fb.pitches[i] as int)
    ensures PixelAddress(fb, i, x + 1, y) == Lower32(PixelAddress(fb, i, x, y) + fb.cpp[i])
  {
    AddressSteps(fb.paddr[i] + fb.offsets[i], x, y, fb.cpp[i], fb.pitches[i] as int);
  }

  lemma AddressSteps(base: nat, x: nat, y: nat, cpp: nat, pitch: nat)
    ensures Lower32(base + x * cpp + (y + 1) * pitch) == Lower32(Lower32(base + x * cpp + y * pitch) + pitch)
    ensures Lower32(base + (x + 1) * cpp + y * pitch) == Lower32(Lower32(base + x * cpp + y * pitch) + cpp)
  {
    var a := base + x * cpp + y * pitch;
    assert (y + 1) * pitch == y * pitch + pitch;
    assert (x + 1) * cpp == x * cpp + cpp;
    ModAddLeft(a, pitch);
    ModAddLeft(a, cpp);
  }

  lemma ModAddLeft(a: nat, b: nat)
    ensures (a + b) % 0x1_0000_0000 == (a % 0x1_0000_0000 + b) % 0x1_0000_0000
  {
    var q := a / 0x1_0000_0000;
    assert a == q * 0x1_0000_0000 + a % 0x1_0000_0000;
  }

  // ---- the layer objects layers_init creates ----

  datatype PlaneType = Primary | Overlay | Cursor

  /** A UI or VI layer as `init_one` leaves it: its DRM plane type, the mixer
      channel and overlay it drives, and its zpos property (initial value and
      upper bound; the lower bound is 0). */
  datatype Layer = Layer(kind: PlaneType, isVi: bool, channel: nat, overlay: nat, zpos: nat, zposMax: int)

  /** The outcome of `init_one` given the allocation and the two DRM calls
      it makes (`drm_universal_plane_init`, `drm_plane_create_zpos_property`). */
  function InitOutcome(allocOk: bool, planeInitRet: int, zposRet: int, layer: Layer): (r: Result<Layer>)
    ensures r == Ok(layer) <==> allocOk && planeInitRet == 0 && zposRet == 0
    ensures !allocOk ==> r == Err(-ENOMEM)
    ensures allocOk && planeInitRet != 0 ==> r == Err(planeInitRet)
    ensures allocOk && planeInitRet == 0 && zposRet != 0 ==> r == Err(zposRet)
  {
    if !allocOk then Err(-ENOMEM)
    else if planeInitRet != 0 then Err(planeInitRet)
    else if zposRet != 0 then Err(zposRet)
    else Ok(layer)
  }
}
