// The per-CRTC state that the CRTC helpers and the TCON interrupt handler
// share (struct sunh5_crtc), together with the parts of the DRM vblank core
// the driver drives: the reference count it takes and drops, the events it
// arms for the next vblank and the events it delivers.
module CrtcState {
  import opened Wrappers

  /** A pending page-flip event (drm_pending_vblank_event), by identity. */
  type Event = nat

  /** Where page-flip events are and what the vblank core holds.
      `pending` is the event of the CRTC state being committed
      (crtc->state->event), `slot` the event the driver keeps for the
      interrupt handler (scrtc->event), `refs` the vblank references the
      driver holds, `armed` the events handed to the vblank core with
      drm_crtc_arm_vblank_event, `sent` the events delivered to user space,
      and `vblankOn` whether drm_crtc_vblank_on has been called. */
  datatype Events = Events(
    pending: Option<Event>,
    slot: Option<Event>,
    refs: int,
    armed: seq<Event>,
    sent: seq<Event>,
    vblankOn: bool)

  /** Every event the state accounts for, wherever it is. */
  function Held(e: Events): multiset<Event>
  {
    OptionBag(e.pending) + OptionBag(e.slot) + multiset(e.armed) + multiset(e.sent)
  }

  function OptionBag(o: Option<Event>): multiset<Event>
  {
    if o.Some? then multiset{o.value} else multiset{}
  }

  /** A CRTC of this driver; the DRM core object itself is not modelled. */
  class Crtc {
    var events: Events

    constructor ()
      ensures events == Events(None, None, 0, [], [], false)
    {
      events := Events(None, None, 0, [], [], false);
    }
  }
}
