/** Local display freshness: when the frame stream is lost, and when the notice is due. */
module FrameWatchdogs {
  import opened Basics

  /** A reading of the monotone clock. */
  type Time = int

  datatype DisplayEffect = NoEffect | FrameEffect | ClearEffect | ResetEffect

  datatype Watch = Watch(timeout: nat, lastFrame: Option<Time>, noticeShown: bool)

  function Started(timeout: nat, now: Time): Watch {
    Watch(timeout, Some(now), false)
  }

  function Observed(w: Watch, effect: DisplayEffect, now: Time): Watch {
    match effect
    case FrameEffect => w.(lastFrame := Some(now), noticeShown := false)
    case ClearEffect => w.(lastFrame := None, noticeShown := false)
    case ResetEffect => w.(noticeShown := false)
    case NoEffect => w
  }

  /** Durations saturate at zero when the clock readings are out of order. */
  function Elapsed(since: Time, now: Time): nat {
    if now < since then 0 else now - since
  }

  /** Elapsed time against a positive timeout, on the clock readings themselves. */
  lemma ElapsedOnTheClock(since: Time, now: Time, timeout: nat)
    requires timeout > 0
    ensures Elapsed(since, now) >= timeout <==> now >= since + timeout
  {
  }

  predicate Due(w: Watch, now: Time) {
    !w.noticeShown && w.lastFrame.Some? && Elapsed(w.lastFrame.value, now) >= w.timeout
  }
}
