/** `FaceTracker` (tracker.py): a two-state wrapper, active or inactive, around
    a short-term visual tracker whose internals are not modelled. The
    backend's answer to an update, (success, float box), is an oracle passed
    in by the caller. */
module Tracker {
  import opened Boxes

  /** One backend tracker instance, created afresh on every initialisation,
      remembering the box it was initialised with. */
  class Backend {
    const initBox: Box

    constructor (b: Box)
      ensures initBox == b
    {
      initBox := b;
    }
  }

  class FaceTracker {
    var backend: Backend?
    var active: bool

    /** An active tracker always has a backend. */
    ghost predicate Valid()
      reads this
    {
      active ==> backend != null
    }

    constructor ()
      ensures Valid()
      ensures backend == null && !active
    {
      backend := null;
      active := false;
    }

    /** Start tracking box b with a brand-new backend. */
    method Init(b: Box)
      modifies this
      ensures Valid()
      ensures active && backend != null && fresh(backend) && backend.initBox == b
    {
      backend := new Backend(b);
      active := true;
    }

    /** Ask the backend for the face on the current frame. An inactive tracker
        answers (false, None) without asking, whatever the backend would say.
        On success the float box is truncated to integers and tracking goes on;
        on failure tracking stops until the next Init. */
    method Update(backendOk: bool, backendBox: RealBox) returns (ok: bool, box: Option<Box>)
      requires Valid()
      modifies this
      ensures Valid()
      ensures backend == old(backend)
      ensures ok <==> box.Some?
      ensures !old(active) ==> !ok && !active
      ensures old(active) && backendOk ==> ok && box == Some(TruncBox(backendBox)) && active
      ensures old(active) && !backendOk ==> !ok && !active
    {
      if !active || backend == null {
        return false, None;
      }
      if backendOk {
        return true, Some(TruncBox(backendBox));
      }
      active := false;
      return false, None;
    }
  }
}
