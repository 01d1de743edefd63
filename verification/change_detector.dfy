/**
 * The change detector of the earlier service generation
 * (services/change_detector.py): it compares each camera frame with the
 * one before, skipping black frames and frames equal to the virtual
 * camera's placeholder picture, and publishes a time-stamped change event
 * when the frames differ, at most once per cooldown period.
 */
module ChangeDetection {
  import opened Wrappers
  import opened Events
  import opened LegacyEvents
  import opened Frames

  /**
   * The detector's settings (change_detector.py:16-41). `reference` is the
   * placeholder picture of the virtual camera, when one was loaded.
   */
  datatype Settings = Settings(edge: int, diff: real, blackMean: real, blackStd: real, cooldown: real, reference: Option<Frame>)

  /** The constructor defaults: edge 20, diff 5.0, black mean 36.0 and std 5.0, cooldown 2.0, no picture. */
  const DefaultSettings := Settings(20, 5.0, 36.0, 5.0, 2.0, None)

  /** The signed per-value difference of two frames of one shape. */
  function SignedDiff(a: Frame, b: Frame): (d: seq<int>)
    requires |a| == |b|
    ensures |d| == |a| && forall i :: 0 <= i < |d| ==> d[i] == a[i] as int - b[i] as int
  {
    seq(|a|, i requires 0 <= i < |a| => a[i] as int - b[i] as int)
  }

  /** The difference of two frames sums to the difference of their sums. */
  lemma {:induction false} SumOfSignedDiff(a: Frame, b: Frame)
    requires |a| == |b|
    ensures Sum(SignedDiff(a, b)) == Sum(a) - Sum(b)
  {
    if |a| > 0 {
      var n := |a| - 1;
      SumOfSignedDiff(a[..n], b[..n]);
      assert SignedDiff(a, b)[..n] == SignedDiff(a[..n], b[..n]);
    }
  }

  /**
   * The signed difference is zero everywhere exactly for equal frames,
   * changes sign when the frames are swapped, and its mean is the
   * difference of the frames' means.
   */
  lemma SignedDiffSound(a: Frame, b: Frame)
    requires |a| == |b|
    ensures (forall i :: 0 <= i < |a| ==> SignedDiff(a, b)[i] == 0) <==> a == b
    ensures forall i :: 0 <= i < |a| ==> SignedDiff(b, a)[i] == -SignedDiff(a, b)[i]
    ensures |a| > 0 ==> Mean(SignedDiff(a, b)) == Mean(a) - Mean(b)
  {
    if |a| > 0 {
      SumOfSignedDiff(a, b);
      var n := |a| as real;
      calc {
        Mean(SignedDiff(a, b));
        (Sum(a) - Sum(b)) as real / n;
        { QuotientOfDifference(Sum(a) as real, Sum(b) as real, n); }
        Sum(a) as real / n - Sum(b) as real / n;
      }
    }
  }

  lemma QuotientOfDifference(x: real, y: real, n: real)
    requires n > 0.0
    ensures (x - y) / n == x / n - y / n
  {
  }

  /**
   * is_obs_vcam_default (change_detector.py:49-56): the frame is the
   * placeholder picture up to noise, that is, the signed difference has
   * mean at most 1.0 and standard deviation at most 0.5. Without a picture,
   * or when the shapes cannot be subtracted, the answer is no; an empty
   * difference has a nan mean, which is not at most 1.0.
   */
  predicate IsObsVcamDefault(img: Frame, reference: Option<Frame>)
  {
    reference.Some? && |img| == |reference.value| && |img| > 0
    && Mean(SignedDiff(img, reference.value)) <= 1.0
    && StdAtMost(SignedDiff(img, reference.value), 0.5)
  }

  /** A frame is its own placeholder picture: it never counts as a live frame. */
  lemma PlaceholderIsDetected(img: Frame)
    requires |img| > 0
    ensures IsObsVcamDefault(img, Some(img))
  {
    var d := SignedDiff(img, img);
    SumOfZeros(d);
    SquaredDeviationOfConstant(d, 0);
    assert Mean(d) == 0.0;
    assert Variance(d) == 0.0;
    NonNegativeProduct(0.5, 0.5);
  }

  /** The guard of on_frame (change_detector.py:64-70): both frames are live and neither is black. */
  predicate Comparable(before: Option<Frame>, img: Frame, s: Settings)
  {
    before.Some?
    && !IsFullBlack(before.value, s.blackMean, s.blackStd)
    && !IsFullBlack(img, s.blackMean, s.blackStd)
    && !IsObsVcamDefault(before.value, s.reference)
    && !IsObsVcamDefault(img, s.reference)
  }

  /** img_before and _last_event_ts; the detector starts with neither a frame nor an event (time 0.0). */
  datatype DetectorState = DetectorState(imgBefore: Option<Frame>, lastEventTs: real)

  const InitialState := DetectorState(None, 0.0)

  /** The detector state after a frame, with the events it published. */
  datatype Detection = Detection(state: DetectorState, events: seq<LegacyEvent>)

  /**
   * Whether on_frame publishes for `img` at clock reading `now`: the frames
   * are comparable, their masked difference exceeds the threshold (a shape
   * mismatch raises inside the try and publishes nothing), and the cooldown
   * has elapsed since the last event.
   */
  predicate Fires(st: DetectorState, img: Frame, now: real, s: Settings, edgeOf: Frame -> seq<int>)
    requires KeepsShape(edgeOf)
  {
    Comparable(st.imgBefore, img, s)
    && FramesAreDifferent(img, st.imgBefore.value, edgeOf(img), s.edge, s.diff) == Success(true)
    && now - st.lastEventTs >= s.cooldown
  }

  /**
   * on_frame (change_detector.py:58-94): no frame is ignored; otherwise the
   * frame becomes img_before whatever happened (the finally clause), and a
   * firing frame publishes ChangeDetected(now) and restarts the cooldown.
   */
  function OnFrame(st: DetectorState, img: Option<Frame>, now: real, s: Settings, edgeOf: Frame -> seq<int>): Detection
    requires KeepsShape(edgeOf)
  {
    if img.None? then Detection(st, [])
    else if Fires(st, img.value, now, s, edgeOf) then Detection(DetectorState(img, now), [ChangeDetected(now)])
    else Detection(DetectorState(img, st.lastEventTs), [])
  }

  /** One camera frame (or its absence) and the clock reading when it is handled. */
  datatype Tick = Tick(frame: Option<Frame>, now: real)

  /** The frames of a run, in order, from state `st`. */
  function Replay(st: DetectorState, ticks: seq<Tick>, s: Settings, edgeOf: Frame -> seq<int>): Detection
    requires KeepsShape(edgeOf)
  {
    if |ticks| == 0 then Detection(st, [])
    else
      var before := Replay(st, ticks[..|ticks| - 1], s, edgeOf);
      var tick := ticks[|ticks| - 1];
      var r := OnFrame(before.state, tick.frame, tick.now, s, edgeOf);
      Detection(r.state, before.events + r.events)
  }

  /** The time stamps of the change events, in order. */
  function Stamps(events: seq<LegacyEvent>): seq<real>
  {
    if |events| == 0 then []
    else Stamps(events[..|events| - 1]) + (if events[|events| - 1].ChangeDetected? then [events[|events| - 1].timestamp] else [])
  }

  /** Each stamp is at least `gap` after the one before, and the first at least `gap` after `start`. */
  predicate Spaced(ts: seq<real>, gap: real, start: real)
  {
    (|ts| > 0 ==> ts[0] - start >= gap)
    && forall i :: 0 < i < |ts| ==> ts[i] - ts[i - 1] >= gap
  }

  /**
   * One frame: a missing frame changes nothing; any frame becomes the frame
   * before; an event is published exactly when the detector fires, it is
   * stamped `now`, and the cooldown restarts at `now`.
   */
  lemma OnFrameSound(st: DetectorState, img: Option<Frame>, now: real, s: Settings, edgeOf: Frame -> seq<int>)
    requires KeepsShape(edgeOf)
    ensures var r := OnFrame(st, img, now, s, edgeOf);
      (img.None? ==> r == Detection(st, []))
      && (img.Some? ==> r.state.imgBefore == img)
      && (r.events == [ChangeDetected(now)] <==> img.Some? && Fires(st, img.value, now, s, edgeOf))
      && (r.events == [] <==> !(img.Some? && Fires(st, img.value, now, s, edgeOf)))
      && (r.events == [] ==> r.state.lastEventTs == st.lastEventTs)
      && (r.events != [] ==> r.state.lastEventTs == now && now - st.lastEventTs >= s.cooldown)
      && (img.Some? && st.imgBefore == img && 0.0 <= s.diff ==> r.events == [])
  {
    if img.Some? && st.imgBefore == img && 0.0 <= s.diff {
      IdenticalFramesNotDifferent(img.value, edgeOf(img.value), s.edge, s.diff);
    }
  }

  /**
   * Over a run, the change events are spaced by the cooldown: the first
   * comes at least one cooldown after the last event before the run, each
   * later one at least one cooldown after its predecessor, and the last
   * one's stamp is the detector's last event time.
   */
  lemma {:induction false} ReplaySpaced(st: DetectorState, ticks: seq<Tick>, s: Settings, edgeOf: Frame -> seq<int>)
    requires KeepsShape(edgeOf)
    ensures var r := Replay(st, ticks, s, edgeOf);
      var ts := Stamps(r.events);
      |ts| == |r.events|
      && Spaced(ts, s.cooldown, st.lastEventTs)
      && (|ts| == 0 ==> r.state.lastEventTs == st.lastEventTs)
      && (|ts| > 0 ==> ts[|ts| - 1] == r.state.lastEventTs)
  {
    if |ticks| > 0 {
      var init := ticks[..|ticks| - 1];
      var before := Replay(st, init, s, edgeOf);
      ReplaySpaced(st, init, s, edgeOf);
      var tick := ticks[|ticks| - 1];
      OnFrameSound(before.state, tick.frame, tick.now, s, edgeOf);
      var r := OnFrame(before.state, tick.frame, tick.now, s, edgeOf);
      StampsAppend(before.events, r.events);
      var ts0 := Stamps(before.events);
      var ts := Stamps(before.events + r.events);
      if r.events != [] {
        assert ts == ts0 + [tick.now];
        assert |ts0| > 0 ==> ts[|ts| - 1] - ts[|ts| - 2] >= s.cooldown;
        SpacedSnoc(ts0, tick.now, s.cooldown, st.lastEventTs);
      } else {
        assert ts == ts0;
      }
    }
  }

  lemma SpacedSnoc(ts: seq<real>, t: real, gap: real, start: real)
    requires Spaced(ts, gap, start)
    requires t - (if |ts| == 0 then start else ts[|ts| - 1]) >= gap
    ensures Spaced(ts + [t], gap, start)
  {
    var u := ts + [t];
    forall i | 0 < i < |u| ensures u[i] - u[i - 1] >= gap {
      if i < |ts| {
        assert u[i] == ts[i] && u[i - 1] == ts[i - 1];
      }
    }
  }

  lemma StampsAppend(a: seq<LegacyEvent>, b: seq<LegacyEvent>)
    requires b == [] || (|b| == 1 && b[0].ChangeDetected?)
    ensures Stamps(a + b) == Stamps(a) + (if b == [] then [] else [b[0].timestamp])
  {
    if b == [] {
      assert a + b == a;
    } else {
      assert (a + b)[..|a + b| - 1] == a;
    }
  }

  /** With a cooldown that is not negative, any two change events are at least one cooldown apart. */
  lemma {:induction false} SpacedPairwise(ts: seq<real>, gap: real, start: real, i: nat, j: nat)
    requires 0.0 <= gap && Spaced(ts, gap, start)
    requires i < j < |ts|
    ensures ts[j] - ts[i] >= gap
    decreases j
  {
    if j > i + 1 {
      SpacedPairwise(ts, gap, start, i, j - 1);
    }
  }

  class ChangeDetector {
    const bus: LegacyBus
    const settings: Settings
    const edgeOf: Frame -> seq<int>
    var imgBefore: Option<Frame>
    var lastEventTs: real

    /** change_detector.py:16-42: no frame yet, last event at time 0.0. */
    constructor(bus: LegacyBus, settings: Settings, edgeOf: Frame -> seq<int>)
      requires KeepsShape(edgeOf)
      ensures this.bus == bus && this.settings == settings && this.edgeOf == edgeOf
      ensures DetectorState(imgBefore, lastEventTs) == InitialState
    {
      this.bus := bus;
      this.settings := settings;
      this.edgeOf := edgeOf;
      imgBefore := None;
      lastEventTs := 0.0;
    }

    /** on_frame (change_detector.py:58-94), with the clock reading `now` as a parameter. */
    method HandleFrame(img: Option<Frame>, now: real)
      requires KeepsShape(edgeOf)
      modifies this, bus
      ensures var r := OnFrame(old(DetectorState(imgBefore, lastEventTs)), img, now, settings, edgeOf);
        DetectorState(imgBefore, lastEventTs) == r.state && bus.published == old(bus.published) + r.events
    {
      if img.None? {
        return;
      }
      var frame := img.value;
      if imgBefore.Some?
        && !IsFullBlack(imgBefore.value, settings.blackMean, settings.blackStd)
        && !IsFullBlack(frame, settings.blackMean, settings.blackStd)
        && !IsObsVcamDefault(imgBefore.value, settings.reference)
        && !IsObsVcamDefault(frame, settings.reference)
      {
        var different := FramesAreDifferent(frame, imgBefore.value, edgeOf(frame), settings.edge, settings.diff);
        if different == Success(true) && now - lastEventTs >= settings.cooldown {
          bus.Publish(ChangeDetected(now));
          lastEventTs := now;
        }
      }
      imgBefore := img;
    }
  }
}
