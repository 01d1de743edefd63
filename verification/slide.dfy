/**
 * The slide service (src/automixer/services/slide.py): it watches the
 * camera frames of the slide feed and reports a slide change whenever a
 * valid frame differs enough from the last valid frame.
 *
 * The Sobel edge detector is a parameter (see Frames.KeepsShape).
 */
module Slide {
  import opened Wrappers
  import opened Events
  import opened Frames

  /** The thresholds of the service (slide.py:15-28). */
  datatype Thresholds = Thresholds(diff: real, edge: int, blackMean: real, blackStd: real)

  /** The constructor defaults: diff 5, edge 20, full-black mean 36 and std 5. */
  const DefaultThresholds := Thresholds(5.0, 20, 36.0, 5.0)

  /** frame_is_valid (slide.py:39-44): a frame is there and is not full black. */
  predicate FrameIsValid(frame: Option<Frame>, t: Thresholds)
  {
    frame.Some? && !IsFullBlack(frame.value, t.blackMean, t.blackStd)
  }

  /** What one camera frame does: the new previous frame, the dispatched events, and whether the handler raised. */
  datatype Reaction = Reaction(prev: Option<Frame>, events: seq<Event>, outcome: Outcome)

  /**
   * on_camera_frame (slide.py:69-87) as a function of the previous frame:
   * an invalid frame is ignored; the first valid frame is only stored; a
   * later valid frame is compared with the stored one, reported when
   * different, and stored. An empty frame, or frames of different shapes,
   * make the comparison raise before the frame is stored.
   */
  function React(prev: Option<Frame>, frame: Option<Frame>, t: Thresholds, edgeOf: Frame -> seq<int>): Reaction
    requires KeepsShape(edgeOf)
  {
    if !FrameIsValid(frame, t) then Reaction(prev, [], Pass)
    else if prev.None? then Reaction(frame, [], Pass)
    else
      assert |edgeOf(frame.value)| == |frame.value|;
      match FramesAreDifferent(frame.value, prev.value, edgeOf(frame.value), t.edge, t.diff)
      case Failure(e) => Reaction(prev, [], Fail(e))
      case Success(different) =>
        Reaction(frame, if different then [SlideChange(frame.value, prev.value)] else [], Pass)
  }

  /**
   * One camera frame: an invalid frame changes nothing; a valid frame is
   * stored unless the comparison raised, which happens exactly for a stored
   * frame of another shape or an empty frame after a stored one; at most one event is dispatched, exactly when
   * the valid frame differs from the stored one of its shape, and it
   * carries the new frame and the stored one, which are unequal when the
   * threshold is not negative. A stored frame is always valid.
   */
  lemma ReactSound(prev: Option<Frame>, frame: Option<Frame>, t: Thresholds, edgeOf: Frame -> seq<int>)
    requires KeepsShape(edgeOf)
    ensures var r := React(prev, frame, t, edgeOf);
      (!FrameIsValid(frame, t) ==> r == Reaction(prev, [], Pass))
      && (FrameIsValid(frame, t) && prev.None? ==> r == Reaction(frame, [], Pass))
      && (r.outcome.Fail? <==>
            FrameIsValid(frame, t) && prev.Some? && (|prev.value| != |frame.value| || |frame.value| == 0))
      && (r.outcome.Fail? ==> r.prev == prev && r.events == [])
      && (FrameIsValid(frame, t) && r.outcome.Pass? ==> r.prev == frame)
      && |r.events| <= 1
      && (|r.events| == 1 ==> prev.Some? && r.events[0] == SlideChange(frame.value, prev.value))
      && (FrameIsValid(frame, t) && prev.Some? && |prev.value| == |frame.value| ==>
            (|r.events| == 1 <==> FramesAreDifferent(frame.value, prev.value, edgeOf(frame.value), t.edge, t.diff) == Success(true)))
      && (|r.events| == 1 && 0.0 <= t.diff ==> frame.value != prev.value)
      && ((prev.None? || FrameIsValid(prev, t)) ==> (r.prev.None? || FrameIsValid(r.prev, t)))
  {
    if FrameIsValid(frame, t) && prev.Some? && |edgeOf(frame.value)| == |frame.value| && frame.value == prev.value && 0.0 <= t.diff {
      IdenticalFramesNotDifferent(frame.value, edgeOf(frame.value), t.edge, t.diff);
    }
  }

  /** The frames of a run, replayed from the stored frame `prev`; raised errors are swallowed by the bus. */
  function Replay(prev: Option<Frame>, frames: seq<Option<Frame>>, t: Thresholds, edgeOf: Frame -> seq<int>): Reaction
    requires KeepsShape(edgeOf)
  {
    if |frames| == 0 then Reaction(prev, [], Pass)
    else
      var before := Replay(prev, frames[..|frames| - 1], t, edgeOf);
      var r := React(before.prev, frames[|frames| - 1], t, edgeOf);
      Reaction(r.prev, before.events + r.events, r.outcome)
  }

  /** The last valid frame of `frames`, or `prev` when there is none. */
  function LastValid(prev: Option<Frame>, frames: seq<Option<Frame>>, t: Thresholds): Option<Frame>
  {
    if |frames| == 0 then prev
    else if FrameIsValid(frames[|frames| - 1], t) then frames[|frames| - 1]
    else LastValid(prev, frames[..|frames| - 1], t)
  }

  /** All frames that are present have `n` values. */
  predicate AllOfSize(frames: seq<Option<Frame>>, n: nat)
  {
    forall i :: 0 <= i < |frames| && frames[i].Some? ==> |frames[i].value| == n
  }

  /**
   * Over a feed of one frame shape, the stored frame is always the last
   * valid frame seen, and there are no more slide changes than frames.
   */
  lemma {:induction false} ReplayStoresLastValid(prev: Option<Frame>, frames: seq<Option<Frame>>, t: Thresholds, edgeOf: Frame -> seq<int>, n: nat)
    requires KeepsShape(edgeOf)
    requires (prev.Some? ==> |prev.value| == n) && AllOfSize(frames, n)
    ensures Replay(prev, frames, t, edgeOf).prev == LastValid(prev, frames, t)
    ensures |Replay(prev, frames, t, edgeOf).events| <= |frames|
  {
    if |frames| > 0 {
      var init := frames[..|frames| - 1];
      assert AllOfSize(init, n) by {
        forall i | 0 <= i < |init| && init[i].Some? ensures |init[i].value| == n {
          assert init[i] == frames[i];
        }
      }
      ReplayStoresLastValid(prev, init, t, edgeOf, n);
      LastValidHasSize(prev, init, t, n);
      ReactSound(Replay(prev, init, t, edgeOf).prev, frames[|frames| - 1], t, edgeOf);
    }
  }

  lemma {:induction false} LastValidHasSize(prev: Option<Frame>, frames: seq<Option<Frame>>, t: Thresholds, n: nat)
    requires (prev.Some? ==> |prev.value| == n) && AllOfSize(frames, n)
    ensures LastValid(prev, frames, t).Some? ==> |LastValid(prev, frames, t).value| == n
  {
    if |frames| > 0 && !FrameIsValid(frames[|frames| - 1], t) {
      var init := frames[..|frames| - 1];
      assert AllOfSize(init, n) by {
        forall i | 0 <= i < |init| && init[i].Some? ensures |init[i].value| == n {
          assert init[i] == frames[i];
        }
      }
      LastValidHasSize(prev, init, t, n);
    }
  }

  /** Every slide change of a replay is between two valid frames, whatever the shapes. */
  lemma {:induction false} ReplayChangesAreValid(prev: Option<Frame>, frames: seq<Option<Frame>>, t: Thresholds, edgeOf: Frame -> seq<int>)
    requires KeepsShape(edgeOf)
    requires prev.None? || FrameIsValid(prev, t)
    ensures var r := Replay(prev, frames, t, edgeOf);
      (r.prev.None? || FrameIsValid(r.prev, t))
      && forall i :: 0 <= i < |r.events| ==>
           r.events[i].SlideChange?
           && FrameIsValid(Some(r.events[i].slide), t) && FrameIsValid(Some(r.events[i].previousSlide), t)
  {
    if |frames| > 0 {
      var init := frames[..|frames| - 1];
      ReplayChangesAreValid(prev, init, t, edgeOf);
      ReactSound(Replay(prev, init, t, edgeOf).prev, frames[|frames| - 1], t, edgeOf);
    }
  }

  class SlideService {
    const bus: Bus
    const thresholds: Thresholds
    const edgeOf: Frame -> seq<int>
    var prevFrame: Option<Frame>

    /** slide.py:15-28: no previous frame. */
    constructor(bus: Bus, thresholds: Thresholds, edgeOf: Frame -> seq<int>)
      requires KeepsShape(edgeOf)
      ensures this.bus == bus && this.thresholds == thresholds && this.edgeOf == edgeOf
      ensures prevFrame.None?
    {
      this.bus := bus;
      this.thresholds := thresholds;
      this.edgeOf := edgeOf;
      prevFrame := None;
    }

    /** on_camera_frame (slide.py:69-87). */
    method OnCameraFrame(frame: Option<Frame>) returns (outcome: Outcome)
      requires KeepsShape(edgeOf)
      modifies this, bus
      ensures var r := React(old(prevFrame), frame, thresholds, edgeOf);
        prevFrame == r.prev && bus.dispatched == old(bus.dispatched) + r.events && outcome == r.outcome
      ensures bus.handlers == old(bus.handlers)
    {
      if !FrameIsValid(frame, thresholds) {
        return Pass;
      }
      if prevFrame.None? {
        prevFrame := frame;
        return Pass;
      }
      var current := frame.value;
      var different := FramesAreDifferent(current, prevFrame.value, edgeOf(current), thresholds.edge, thresholds.diff);
      if different.Failure? {
        return Fail(different.error);
      }
      if different.value {
        bus.Dispatch(SlideChange(current, prevFrame.value));
      }
      prevFrame := frame;
      return Pass;
    }
  }
}
