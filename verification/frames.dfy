/**
 * The pixel statistics the slide detectors use (numpy mean and std over all
 * channel values, the absolute difference of two frames, the edge mask),
 * over exact arithmetic. A standard deviation is compared through its
 * square: std < t exactly when t > 0 and variance < t * t.
 */
module Frames {
  import opened Wrappers
  import opened Events

  function Abs(x: int): nat { if x < 0 then -x else x }

  function Sum(xs: seq<int>): int
  {
    if |xs| == 0 then 0 else Sum(xs[..|xs| - 1]) + xs[|xs| - 1]
  }

  /** numpy.mean of a non-empty array. */
  function Mean(xs: seq<int>): real
    requires |xs| > 0
  {
    Sum(xs) as real / |xs| as real
  }

  /** The sum of the squared deviations of `xs` from `m`. */
  function SquaredDeviation(xs: seq<int>, m: real): real
  {
    if |xs| == 0 then 0.0
    else SquaredDeviation(xs[..|xs| - 1], m) + (xs[|xs| - 1] as real - m) * (xs[|xs| - 1] as real - m)
  }

  /** The population variance (numpy.std squared, ddof = 0). */
  function Variance(xs: seq<int>): real
    requires |xs| > 0
  {
    SquaredDeviation(xs, Mean(xs)) / |xs| as real
  }

  /** numpy.std(xs) < t. */
  predicate StdBelow(xs: seq<int>, t: real)
    requires |xs| > 0
  {
    t > 0.0 && Variance(xs) < t * t
  }

  /** numpy.std(xs) <= t. */
  predicate StdAtMost(xs: seq<int>, t: real)
    requires |xs| > 0
  {
    t >= 0.0 && Variance(xs) <= t * t
  }

  /** Comparing a standard deviation through its square is exact. */
  lemma SquareComparison(s: real, t: real)
    requires 0.0 <= s
    ensures s < t <==> (t > 0.0 && s * s < t * t)
    ensures s <= t <==> (t >= 0.0 && s * s <= t * t)
  {
    if s < t {
      LessSquares(s, t);
    } else if 0.0 <= t {
      AtMostSquares(t, s);
    }
    if s <= t {
      AtMostSquares(s, t);
    } else if 0.0 <= t {
      LessSquares(t, s);
    }
  }

  lemma PositiveProduct(a: real, b: real)
    requires 0.0 < a && 0.0 < b
    ensures 0.0 < a * b
  {
  }
  lemma NonNegativeProduct(a: real, b: real)
    requires 0.0 <= a && 0.0 <= b
    ensures 0.0 <= a * b
  {
  }
  lemma LessSquares(s: real, t: real)
    requires 0.0 <= s < t
    ensures s * s < t * t
  {
    PositiveProduct(t - s, t + s);
    assert t * t - s * s == (t - s) * (t + s);
  }
  lemma AtMostSquares(s: real, t: real)
    requires 0.0 <= s <= t
    ensures s * s <= t * t
  {
    NonNegativeProduct(t - s, t + s);
    assert t * t - s * s == (t - s) * (t + s);
  }

  /** is_full_black (slide.py:33-37): mean and standard deviation both below their thresholds. */
  predicate IsFullBlack(frame: Frame, meanThreshold: real, stdThreshold: real)
  {
    // numpy gives nan for an empty frame, and nan compares false
    |frame| > 0 && Mean(frame) < meanThreshold && StdBelow(frame, stdThreshold)
  }

  /** calculate_abs_diff (slide.py:53-57): the per-value absolute difference, which fits a byte. */
  function AbsDiff(frame1: Frame, frame2: Frame): (d: Frame)
    requires |frame1| == |frame2|
    ensures |d| == |frame1|
    ensures forall i :: 0 <= i < |d| ==> d[i] == Abs(frame1[i] as int - frame2[i] as int)
  {
    seq(|frame1|, i requires 0 <= i < |frame1| => Abs(frame1[i] as int - frame2[i] as int))
  }

  /** `diff *= edge < threshold`: a value whose edge strength reaches the threshold becomes 0. */
  function Masked(diff: Frame, edge: seq<int>, edgeThreshold: int): (m: Frame)
    requires |edge| == |diff|
    ensures |m| == |diff|
    ensures forall i :: 0 <= i < |m| ==> m[i] == if edge[i] < edgeThreshold then diff[i] else 0
  {
    seq(|diff|, i requires 0 <= i < |diff| => if edge[i] < edgeThreshold then diff[i] else 0)
  }

  /**
   * The absolute difference does not depend on the order of the frames and
   * is 0 exactly where they agree, so it is all zero exactly for equal frames.
   */
  lemma AbsDiffSymmetric(frame1: Frame, frame2: Frame)
    requires |frame1| == |frame2|
    ensures AbsDiff(frame1, frame2) == AbsDiff(frame2, frame1)
    ensures forall i :: 0 <= i < |frame1| ==> (AbsDiff(frame1, frame2)[i] == 0 <==> frame1[i] == frame2[i])
    ensures (forall i :: 0 <= i < |frame1| ==> AbsDiff(frame1, frame2)[i] == 0) <==> frame1 == frame2
  {
  }

  /**
   * Masking only ever lowers a value, to 0; it keeps the whole difference
   * when no edge reaches the threshold, and masking twice is masking once.
   */
  lemma MaskedLowersValues(diff: Frame, edge: seq<int>, edgeThreshold: int)
    requires |edge| == |diff|
    ensures forall i :: 0 <= i < |diff| ==>
      Masked(diff, edge, edgeThreshold)[i] <= diff[i]
      && (Masked(diff, edge, edgeThreshold)[i] == diff[i] || Masked(diff, edge, edgeThreshold)[i] == 0)
    ensures (forall i :: 0 <= i < |edge| ==> edge[i] < edgeThreshold) ==> Masked(diff, edge, edgeThreshold) == diff
    ensures Masked(Masked(diff, edge, edgeThreshold), edge, edgeThreshold) == Masked(diff, edge, edgeThreshold)
  {
  }

  /**
   * An edge detector (Sobel on the grey image, spread back over the
   * channels) yields one edge strength per value of the frame. The detector
   * itself is a parameter of the model; only this shape fact is used.
   */
  ghost predicate KeepsShape(edgeOf: Frame -> seq<int>)
  {
    forall f: Frame :: |edgeOf(f)| == |f|
  }

  /**
   * frames_are_different (slide.py:59-67) with the edge map of `frame1` given:
   * the mean of the masked absolute difference, over all values, exceeds
   * the threshold. An empty `frame1` raises in OpenCV's colour conversion
   * of the edge detection, before anything is compared, and frames of
   * different shapes raise in the subtraction.
   */
  function FramesAreDifferent(frame1: Frame, frame2: Frame, edge: seq<int>, edgeThreshold: int, diffThreshold: real): Result<bool>
    requires |edge| == |frame1|
  {
    if |frame1| == 0 then Failure("cvtColor: the input image is empty")
    else if |frame1| != |frame2| then Failure("operands could not be broadcast together")
    else Success(Mean(Masked(AbsDiff(frame1, frame2), edge, edgeThreshold)) > diffThreshold)
  }

  lemma {:induction false} SumOfZeros(xs: seq<int>)
    requires forall i :: 0 <= i < |xs| ==> xs[i] == 0
    ensures Sum(xs) == 0
  {
    if |xs| > 0 {
      SumOfZeros(xs[..|xs| - 1]);
    }
  }

  lemma {:induction false} SumMonotone(xs: seq<int>, ys: seq<int>)
    requires |xs| == |ys| && forall i :: 0 <= i < |xs| ==> xs[i] <= ys[i]
    ensures Sum(xs) <= Sum(ys)
  {
    if |xs| > 0 {
      SumMonotone(xs[..|xs| - 1], ys[..|ys| - 1]);
    }
  }

  lemma {:induction false} SumOfConstant(xs: seq<int>, v: int)
    requires forall i :: 0 <= i < |xs| ==> xs[i] == v
    ensures Sum(xs) == |xs| * v
  {
    if |xs| > 0 {
      SumOfConstant(xs[..|xs| - 1], v);
    }
  }

  lemma {:induction false} SquaredDeviationOfConstant(xs: seq<int>, v: int)
    requires forall i :: 0 <= i < |xs| ==> xs[i] == v
    ensures SquaredDeviation(xs, v as real) == 0.0
  {
    if |xs| > 0 {
      SquaredDeviationOfConstant(xs[..|xs| - 1], v);
    }
  }

  /** A frame of one value below the mean threshold is full black for any positive std threshold. */
  lemma ConstantFrameIsBlack(frame: Frame, v: Pixel, meanThreshold: real, stdThreshold: real)
    requires |frame| > 0 && forall i :: 0 <= i < |frame| ==> frame[i] == v
    requires (v as real) < meanThreshold && 0.0 < stdThreshold
    ensures IsFullBlack(frame, meanThreshold, stdThreshold)
  {
    SumOfConstant(frame, v);
    assert Mean(frame) == v as real;
    SquaredDeviationOfConstant(frame, v);
    assert Variance(frame) == 0.0;
    LessSquares(0.0, stdThreshold);
    assert StdBelow(frame, stdThreshold);
  }

  /**
   * A frame is never different from itself when the threshold is not
   * negative; comparing an empty frame with itself raises.
   */
  lemma IdenticalFramesNotDifferent(frame: Frame, edge: seq<int>, edgeThreshold: int, diffThreshold: real)
    requires |edge| == |frame| && 0.0 <= diffThreshold
    ensures FramesAreDifferent(frame, frame, edge, edgeThreshold, diffThreshold).Failure? <==> |frame| == 0
    ensures |frame| > 0 ==> FramesAreDifferent(frame, frame, edge, edgeThreshold, diffThreshold) == Success(false)
  {
    if |frame| > 0 {
      SumOfZeros(Masked(AbsDiff(frame, frame), edge, edgeThreshold));
    }
  }

  /**
   * Masked values add 0 but still count in the denominator: the masked mean
   * never exceeds the plain mean of the difference, and with every value
   * masked it is 0.
   */
  lemma MaskingLowersMean(diff: Frame, edge: seq<int>, edgeThreshold: int)
    requires |edge| == |diff| && |diff| > 0
    ensures Mean(Masked(diff, edge, edgeThreshold)) <= Mean(diff)
    ensures (forall i :: 0 <= i < |edge| ==> edge[i] >= edgeThreshold) ==> Mean(Masked(diff, edge, edgeThreshold)) == 0.0
  {
    var m := Masked(diff, edge, edgeThreshold);
    SumMonotone(m, diff);
    if forall i :: 0 <= i < |edge| ==> edge[i] >= edgeThreshold {
      SumOfZeros(m);
    }
  }
}
