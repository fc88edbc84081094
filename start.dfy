/**
 * The animation driver of util/start.js: every frame hands the callback the
 * time since the previous frame in seconds, clamped. The driver keeps the
 * previous frame's timestamp (milliseconds) in the closure variable `time`,
 * modelled as the field of a FrameClock; `maxDt` and `inactiveTimeout` are the
 * driver's optional settings, where 0 stands for an unset (undefined) one since
 * both are falsy. requestAnimationFrame and the callback itself are not modelled:
 * DoCallback returns the dt it would pass on.
 */
module Start {
  import opened JsMath

  /** The raw step: milliseconds between two timestamps, in seconds. */
  function Elapsed(prev: real, timestamp: real): real {
    (timestamp - prev) / 1000.0
  }

  /** The step after a frame at `timestamp` whose predecessor was at `prev` (0: no predecessor). */
  function FrameDt(prev: real, timestamp: real, maxDt: real, inactiveTimeout: real): (dt: real)
    ensures dt == 0.0 || dt == Elapsed(prev, timestamp) || dt == maxDt
    ensures 0.0 < maxDt ==> dt <= maxDt
  {
    var raw := if Truthy(prev) then Elapsed(prev, timestamp) else 0.0;
    if Truthy(inactiveTimeout) && raw > inactiveTimeout then 0.0
    else if Truthy(maxDt) && raw > maxDt then maxDt
    else raw
  }

  /**
   * The first frame, with no previous timestamp, gets dt = 0 (unless a
   * setting is negative: 0 then exceeds it and the clamps apply).
   */
  lemma FirstFrame(timestamp: real, maxDt: real, inactiveTimeout: real)
    requires 0.0 <= inactiveTimeout && 0.0 <= maxDt
    ensures FrameDt(0.0, timestamp, maxDt, inactiveTimeout) == 0.0
  {}

  /** A step longer than the inactivity timeout is dropped. */
  lemma InactiveIsZero(prev: real, timestamp: real, maxDt: real, inactiveTimeout: real)
    requires Truthy(prev) && Truthy(inactiveTimeout) && Elapsed(prev, timestamp) > inactiveTimeout
    ensures FrameDt(prev, timestamp, maxDt, inactiveTimeout) == 0.0
  {}

  /** Otherwise a step longer than maxDt, when set, is cut to maxDt. */
  lemma LongStepIsCapped(prev: real, timestamp: real, maxDt: real, inactiveTimeout: real)
    requires Truthy(prev) && !(Truthy(inactiveTimeout) && Elapsed(prev, timestamp) > inactiveTimeout)
    requires Truthy(maxDt) && Elapsed(prev, timestamp) > maxDt
    ensures FrameDt(prev, timestamp, maxDt, inactiveTimeout) == maxDt
  {}

  /** Any other step is the raw elapsed time. */
  lemma OtherStepIsRaw(prev: real, timestamp: real, maxDt: real, inactiveTimeout: real)
    requires Truthy(prev) && !(Truthy(inactiveTimeout) && Elapsed(prev, timestamp) > inactiveTimeout)
    requires !(Truthy(maxDt) && Elapsed(prev, timestamp) > maxDt)
    ensures FrameDt(prev, timestamp, maxDt, inactiveTimeout) == Elapsed(prev, timestamp)
  {}

  /** Timestamps that go backwards give a negative dt, passed on unclamped when the settings are unset or positive. */
  lemma BackwardsPassesThrough(prev: real, timestamp: real, maxDt: real, inactiveTimeout: real)
    requires Truthy(prev) && timestamp < prev && 0.0 <= maxDt && 0.0 <= inactiveTimeout
    ensures FrameDt(prev, timestamp, maxDt, inactiveTimeout) == Elapsed(prev, timestamp) < 0.0
  {}

  /** After a predecessor, a step forward in time never delivers more than the time that passed, nor less than 0. */
  lemma NotAhead(prev: real, timestamp: real, maxDt: real, inactiveTimeout: real)
    requires Truthy(prev) && prev <= timestamp && 0.0 <= maxDt
    ensures 0.0 <= FrameDt(prev, timestamp, maxDt, inactiveTimeout) <= Elapsed(prev, timestamp)
  {}

  /** The steps delivered for the frames `timestamps`, the first following a frame at `prev`. */
  function Steps(prev: real, timestamps: seq<real>, maxDt: real, inactiveTimeout: real): (dts: seq<real>)
    ensures |dts| == |timestamps|
    decreases |timestamps|
  {
    if timestamps == [] then []
    else [FrameDt(prev, timestamps[0], maxDt, inactiveTimeout)] + Steps(timestamps[0], timestamps[1..], maxDt, inactiveTimeout)
  }

  function Sum(xs: seq<real>): real {
    if xs == [] then 0.0 else xs[0] + Sum(xs[1..])
  }

  /** Every timestamp is positive and none is earlier than the one before, starting from prev. */
  predicate Forward(prev: real, timestamps: seq<real>) {
    && 0.0 < prev
    && (timestamps != [] ==> prev <= timestamps[0])
    && forall k :: 0 < k < |timestamps| ==> timestamps[k - 1] <= timestamps[k]
  }

  /**
   * Over any run of frames whose clock moves forward, the steps the
   * simulation receives add up to at most the time that passed: the clamps
   * only ever shorten a step.
   */
  lemma {:induction false} RunNotAhead(prev: real, timestamps: seq<real>, maxDt: real, inactiveTimeout: real)
    requires Forward(prev, timestamps) && 0.0 <= maxDt && timestamps != []
    ensures Sum(Steps(prev, timestamps, maxDt, inactiveTimeout)) <= Elapsed(prev, timestamps[|timestamps| - 1])
    decreases |timestamps|
  {
    var t0 := timestamps[0];
    NotAhead(prev, t0, maxDt, inactiveTimeout);
    if |timestamps| > 1 {
      var rest := timestamps[1..];
      assert Forward(t0, rest) by {
        assert rest[0] == timestamps[1];
        forall k | 0 < k < |rest|
          ensures rest[k - 1] <= rest[k]
        {
          assert rest[k - 1] == timestamps[k] && rest[k] == timestamps[k + 1];
        }
      }
      RunNotAhead(t0, rest, maxDt, inactiveTimeout);
      assert rest[|rest| - 1] == timestamps[|timestamps| - 1];
    }
  }

  /** The driver's state: the previous frame's timestamp and the two settings. */
  class FrameClock {
    var time: real
    const maxDt: real
    const inactiveTimeout: real

    /** The driver starts with `time = 0`: no frame yet. */
    constructor (maxDt: real, inactiveTimeout: real)
      ensures time == 0.0 && this.maxDt == maxDt && this.inactiveTimeout == inactiveTimeout
    {
      time := 0.0;
      this.maxDt := maxDt;
      this.inactiveTimeout := inactiveTimeout;
    }

    /** doCallback: computes the step from the previous timestamp, records the new one and returns the clamped step. */
    method DoCallback(timestamp: real) returns (dt: real)
      modifies this
      ensures time == timestamp
      ensures dt == FrameDt(old(time), timestamp, maxDt, inactiveTimeout)
    {
      dt := if Truthy(time) then (timestamp - time) / 1000.0 else 0.0;
      time := timestamp;
      if Truthy(inactiveTimeout) && dt > inactiveTimeout {
        dt := 0.0;
      } else if Truthy(maxDt) && dt > maxDt {
        dt := maxDt;
      }
    }
  }
}
