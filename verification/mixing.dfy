/**
 * The mixing service (src/automixer/services/mixing.py): it accumulates the
 * slide text and the transcript, scores how much of the slide has been
 * spoken, and asks for the camera once the score has stayed at or above the
 * threshold for longer than the delay.
 */
module Mixing {
  import opened Wrappers
  import opened Events
  import opened Strings
  import opened TextMetrics

  // ---------------------------------------------------------------------------
  // The slide-to-camera score
  // ---------------------------------------------------------------------------

  /** The word tolerance calculate_slide2cam_score passes to lcs_1gram. */
  const WordTolerance := 3

  /** `x / n` for a count `x` and a positive length `n`. */
  function Ratio(x: nat, n: nat): real
    requires n > 0
  {
    x as real / n as real
  }

  lemma RatioBounds(x: nat, n: nat)
    requires n > 0
    ensures 0.0 <= Ratio(x, n)
    ensures x <= n ==> Ratio(x, n) <= 1.0
    ensures x == n ==> Ratio(x, n) == 1.0
  {
  }

  /**
   * ROUGE-1 of the code: the length of the single-space join of the tolerant
   * 1-gram LCS of the words, over the length of the slide text.
   */
  function Rouge1Gram(slide: string, transcription: string): real
    requires |slide| > 0
  {
    Ratio(|Join(" ", Reconstruct(Split(slide), Split(transcription), Tolerance(WordTolerance)))|, |slide|)
  }

  /** ROUGE-L of the code: the character LCS length over the length of the slide text. */
  function RougeL(slide: string, transcription: string): real
    requires |slide| > 0
  {
    Ratio(LcsLength(slide, transcription, Equal), |slide|)
  }

  /** The weighting of mixing.py:77-80. */
  function WeightedSum(w1: real, r1: real, wl: real, rl: real): real
  {
    w1 * r1 + wl * rl
  }

  /**
   * calculate_slide2cam_score (mixing.py:66-82): 0 when either text is
   * missing or empty, else the weighted sum of the two ratios.
   */
  function Slide2CamScore(slideText: Option<string>, transcription: Option<string>, rouge1GramWeight: real, rougeLWeight: real): real
  {
    if slideText.None? || transcription.None? || |slideText.value| == 0 || |transcription.value| == 0 then 0.0
    else WeightedSum(rouge1GramWeight, Rouge1Gram(slideText.value, transcription.value),
                     rougeLWeight, RougeL(slideText.value, transcription.value))
  }

  /** The single-space join of a subsequence of words is no longer than the join of all of them. */
  lemma {:induction false} JoinOfSubsequenceNoLonger(x: seq<string>, ws: seq<string>)
    requires IsSubsequence(x, ws)
    ensures |Join(" ", x)| <= |Join(" ", ws)|
    decreases |ws|
  {
    if |x| > 0 {
      var xInit, wsInit := x[..|x| - 1], ws[..|ws| - 1];
      if Equal(x[|x| - 1], ws[|ws| - 1]) && PairsInOrder(xInit, wsInit, Equal) {
        JoinOfSubsequenceNoLonger(xInit, wsInit);
        if |xInit| > 0 {
          assert |wsInit| > 0;
        }
      } else {
        assert PairsInOrder(x, wsInit, Equal);
        JoinOfSubsequenceNoLonger(x, wsInit);
        assert |wsInit| > 0;
      }
    }
  }

  /** Both ratios of the score lie between 0 and 1. */
  lemma RatiosInUnitInterval(slide: string, transcription: string)
    requires |slide| > 0
    ensures 0.0 <= Rouge1Gram(slide, transcription) <= 1.0
    ensures 0.0 <= RougeL(slide, transcription) <= 1.0
  {
    var words1, words2 := Split(slide), Split(transcription);
    ReconstructIsCommonSubsequence(words1, words2, Tolerance(WordTolerance));
    JoinOfSubsequenceNoLonger(Reconstruct(words1, words2, Tolerance(WordTolerance)), words1);
    JoinSplitNoLonger(slide);
    RatioBounds(|Join(" ", Reconstruct(words1, words2, Tolerance(WordTolerance)))|, |slide|);
    LcsLengthBounded(slide, transcription, Equal);
    RatioBounds(LcsLength(slide, transcription, Equal), |slide|);
  }

  lemma ProductBound(w: real, r: real)
    requires 0.0 <= w && 0.0 <= r <= 1.0
    ensures 0.0 <= w * r <= w
  {
    assert w * r + w * (1.0 - r) == w;
    assert 0.0 <= w * (1.0 - r);
  }

  lemma WeightedSumBounds(w1: real, wl: real, r1: real, rl: real)
    requires 0.0 <= w1 && 0.0 <= wl && 0.0 <= r1 <= 1.0 && 0.0 <= rl <= 1.0
    ensures 0.0 <= WeightedSum(w1, r1, wl, rl) <= w1 + wl
  {
    ProductBound(w1, r1);
    ProductBound(wl, rl);
    SumBound(w1 * r1, wl * rl, w1, wl);
  }

  lemma SumBound(a: real, b: real, x: real, y: real)
    requires 0.0 <= a <= x && 0.0 <= b <= y
    ensures 0.0 <= a + b <= x + y
  {
  }

  /** With non-negative weights the score lies between 0 and the sum of the weights. */
  lemma ScoreBounds(slideText: Option<string>, transcription: Option<string>, rouge1GramWeight: real, rougeLWeight: real)
    requires 0.0 <= rouge1GramWeight && 0.0 <= rougeLWeight
    ensures 0.0 <= Slide2CamScore(slideText, transcription, rouge1GramWeight, rougeLWeight) <= rouge1GramWeight + rougeLWeight
  {
    if !(slideText.None? || transcription.None? || |slideText.value| == 0 || |transcription.value| == 0) {
      RatiosInUnitInterval(slideText.value, transcription.value);
      WeightedSumBounds(rouge1GramWeight, rougeLWeight,
                        Rouge1Gram(slideText.value, transcription.value), RougeL(slideText.value, transcription.value));
    }
  }

  /** Every word matches itself under the tolerant relation. */
  lemma ToleranceReflexive(ws: seq<string>, tolerance: nat)
    ensures forall i :: 0 <= i < |ws| ==> Tolerance(tolerance)(ws[i], ws[i])
  {
    forall i | 0 <= i < |ws|
      ensures Tolerance(tolerance)(ws[i], ws[i])
    {
      EditDistanceZeroIff(ws[i], ws[i]);
    }
  }

  /** A text compared with itself has a character LCS as long as itself. */
  lemma RougeLOfItself(slide: string)
    requires |slide| > 0
    ensures RougeL(slide, slide) == 1.0
  {
    LcsOfItself(slide, Equal);
    RatioBounds(|slide|, |slide|);
  }

  /** A single-spaced text of words compared with itself keeps every word. */
  lemma Rouge1GramOfItself(words: seq<string>)
    requires |words| > 0 && forall i :: 0 <= i < |words| ==> IsWord(words[i])
    ensures |Join(" ", words)| > 0
    ensures Rouge1Gram(Join(" ", words), Join(" ", words)) == 1.0
  {
    var slide := Join(" ", words);
    JoinLength(" ", words);
    SplitJoin(words);
    ToleranceReflexive(words, WordTolerance);
    LcsOfItself(words, Tolerance(WordTolerance));
    assert Reconstruct(Split(slide), Split(slide), Tolerance(WordTolerance)) == words;
    RatioBounds(|slide|, |slide|);
  }

  /**
   * A transcript that repeats a slide written as single-spaced words scores
   * the full sum of the weights: both ratios are 1.
   */
  lemma ScoreOfRepeatedSlide(words: seq<string>, rouge1GramWeight: real, rougeLWeight: real)
    requires |words| > 0 && forall i :: 0 <= i < |words| ==> IsWord(words[i])
    ensures Slide2CamScore(Some(Join(" ", words)), Some(Join(" ", words)), rouge1GramWeight, rougeLWeight)
         == rouge1GramWeight + rougeLWeight
  {
    var slide := Join(" ", words);
    Rouge1GramOfItself(words);
    RougeLOfItself(slide);
    assert Slide2CamScore(Some(slide), Some(slide), rouge1GramWeight, rougeLWeight)
        == WeightedSum(rouge1GramWeight, 1.0, rougeLWeight, 1.0);
  }

  // ---------------------------------------------------------------------------
  // The debounce of step
  // ---------------------------------------------------------------------------

  /** One evaluation of step: the score it computes and the clock reading. */
  datatype Sample = Sample(score: real, now: real)

  /** What one evaluation of step leaves behind: the timer, and whether CAMERA is dispatched. */
  datatype Debounce = Debounce(crossedAt: Option<real>, fire: bool)

  /**
   * step as written (mixing.py:84-91): below the threshold nothing happens
   * and the timer is kept; the first crossing starts the timer; afterwards
   * CAMERA fires whenever strictly more than `delay` has passed since the
   * timer started, and the timer is left as it is.
   */
  function StepAsWritten(crossedAt: Option<real>, s: Sample, threshold: real, delay: real): Debounce
  {
    if s.score < threshold then Debounce(crossedAt, false)
    else if crossedAt.None? then Debounce(Some(s.now), false)
    else Debounce(crossedAt, s.now - crossedAt.value > delay)
  }

  /** The timer after a run of evaluations of step as written, from a cleared timer. */
  function TimerAsWritten(samples: seq<Sample>, threshold: real, delay: real): Option<real>
  {
    if |samples| == 0 then None
    else StepAsWritten(TimerAsWritten(samples[..|samples| - 1], threshold, delay), samples[|samples| - 1], threshold, delay).crossedAt
  }

  /**
   * Once step has fired, it fires again at every later evaluation whose
   * score is at or above the threshold: the timer is never cleared
   * (mixing.py:90-91).
   */
  lemma FiresAgainAfterDispatch(crossedAt: Option<real>, s: Sample, t: Sample, threshold: real, delay: real)
    requires StepAsWritten(crossedAt, s, threshold, delay).fire
    requires t.score >= threshold && t.now >= s.now
    ensures StepAsWritten(crossedAt, s, threshold, delay).crossedAt == crossedAt
    ensures StepAsWritten(crossedAt, t, threshold, delay).fire
  {
  }

  /**
   * The corrected debounce: as written, except that a score below the
   * threshold clears the timer, as the scene manager of the earlier
   * generation does (services/scene_manager.py:106-108).
   */
  function StepIntended(crossedAt: Option<real>, s: Sample, threshold: real, delay: real): Debounce
  {
    if s.score < threshold then Debounce(None, false)
    else if crossedAt.None? then Debounce(Some(s.now), false)
    else Debounce(crossedAt, s.now - crossedAt.value > delay)
  }

  /** The timer after a run of evaluations of the corrected step, from a cleared timer. */
  function TimerIntended(samples: seq<Sample>, threshold: real, delay: real): Option<real>
  {
    if |samples| == 0 then None
    else StepIntended(TimerIntended(samples[..|samples| - 1], threshold, delay), samples[|samples| - 1], threshold, delay).crossedAt
  }

  /** The score stayed at or above the threshold from evaluation `k` to the last one. */
  predicate HeldFrom(samples: seq<Sample>, k: nat, threshold: real)
  {
    k < |samples| && forall j :: k <= j < |samples| ==> samples[j].score >= threshold
  }

  /** With the corrected step, a running timer started at an evaluation from which the score has held. */
  lemma {:induction false} TimerIntendedHeld(samples: seq<Sample>, threshold: real, delay: real)
    requires TimerIntended(samples, threshold, delay).Some?
    ensures exists k: nat :: HeldFrom(samples, k, threshold) && samples[k].now == TimerIntended(samples, threshold, delay).value
  {
    var n := |samples|;
    var init := samples[..n - 1];
    var prev := TimerIntended(init, threshold, delay);
    if prev.None? {
      assert HeldFrom(samples, n - 1, threshold);
    } else {
      TimerIntendedHeld(init, threshold, delay);
      var k: nat :| HeldFrom(init, k, threshold) && init[k].now == prev.value;
      assert HeldFrom(samples, k, threshold);
    }
  }

  /**
   * The intended property, proved of the corrected step: CAMERA fires only
   * when the score has stayed at or above the threshold, at every
   * evaluation, for strictly more than `delay`.
   */
  lemma FiresOnlyAfterHeldScore(samples: seq<Sample>, s: Sample, threshold: real, delay: real)
    requires StepIntended(TimerIntended(samples, threshold, delay), s, threshold, delay).fire
    ensures exists k: nat :: HeldFrom(samples + [s], k, threshold) && s.now - (samples + [s])[k].now > delay
  {
    var all := samples + [s];
    assert all[..|samples|] == samples;
    assert TimerIntended(all, threshold, delay) == TimerIntended(samples, threshold, delay);
    TimerIntendedHeld(all, threshold, delay);
  }

  /**
   * The code as written fires without the score having held: above, below,
   * then above again more than `delay` after the first crossing dispatches
   * CAMERA at once, although the score has held only since the last
   * evaluation.
   */
  lemma AsWrittenFiresAfterDip()
    ensures var samples := [Sample(1.0, 0.0), Sample(0.0, 1.0)];
      var s := Sample(1.0, 5.0);
      StepAsWritten(TimerAsWritten(samples, 0.5, 2.0), s, 0.5, 2.0).fire
      && !(exists k: nat :: HeldFrom(samples + [s], k, 0.5) && s.now - (samples + [s])[k].now > 2.0)
  {
    var samples := [Sample(1.0, 0.0), Sample(0.0, 1.0)];
    var s := Sample(1.0, 5.0);
    assert samples[..1] == [Sample(1.0, 0.0)];
    assert [Sample(1.0, 0.0)][..0] == [];
    assert TimerAsWritten(samples, 0.5, 2.0) == Some(0.0);
    var all := samples + [s];
    forall k: nat | HeldFrom(all, k, 0.5)
      ensures s.now - all[k].now <= 2.0
    {
      assert all[1].score < 0.5;
      assert k == 2;
    }
  }

  // ---------------------------------------------------------------------------
  // The service
  // ---------------------------------------------------------------------------

  /** The texts of the OCR detections, in order (the `elem[1]` of mixing.py:44). */
  function OcrTexts(ocrResult: seq<OcrItem>): (texts: seq<string>)
    ensures |texts| == |ocrResult|
    ensures forall i :: 0 <= i < |ocrResult| ==> texts[i] == ocrResult[i].text
  {
    seq(|ocrResult|, i requires 0 <= i < |ocrResult| => ocrResult[i].text)
  }

  /** The ROUGE-1 part of calculate_slide2cam_score (mixing.py:69-74). */
  method ComputeRouge1Gram(slide: string, spoken: string) returns (r: real)
    requires |slide| > 0
    ensures r == Rouge1Gram(slide, spoken)
    ensures 0.0 <= r <= 1.0
  {
    var _, words := Lcs1Gram(Split(slide), Split(spoken), WordTolerance);
    r := Ratio(|Join(" ", words)|, |slide|);
    RatiosInUnitInterval(slide, spoken);
  }

  /** The ROUGE-L part of calculate_slide2cam_score (mixing.py:75-76). */
  method ComputeRougeL(slide: string, spoken: string) returns (r: real)
    requires |slide| > 0
    ensures r == RougeL(slide, spoken)
    ensures 0.0 <= r <= 1.0
  {
    var length, _ := Lcs(slide, spoken);
    r := Ratio(length, |slide|);
    RatiosInUnitInterval(slide, spoken);
  }

  /** The weighted sum of calculate_slide2cam_score (mixing.py:69-80) for two present, non-empty texts. */
  method ScoreOfTexts(slide: string, spoken: string, rouge1GramWeight: real, rougeLWeight: real) returns (score: real)
    requires |slide| > 0
    ensures score == WeightedSum(rouge1GramWeight, Rouge1Gram(slide, spoken), rougeLWeight, RougeL(slide, spoken))
  {
    var rouge1Gram := ComputeRouge1Gram(slide, spoken);
    var rougeL := ComputeRougeL(slide, spoken);
    score := WeightedSum(rouge1GramWeight, rouge1Gram, rougeLWeight, rougeL);
  }

  class MixingService {
    const bus: Bus
    const rouge1GramWeight: real
    const rougeLWeight: real
    const slide2CamThreshold: real
    const slide2CamDelay: real
    var slideText: Option<string>
    var transcription: Option<string>
    var thresholdCrossedAt: Option<real>

    /** mixing.py:20-35: both texts and the timer start out missing. */
    constructor(bus: Bus, rouge1GramWeight: real, rougeLWeight: real, slide2CamThreshold: real, slide2CamDelay: real)
      ensures this.bus == bus && this.rouge1GramWeight == rouge1GramWeight && this.rougeLWeight == rougeLWeight
      ensures this.slide2CamThreshold == slide2CamThreshold && this.slide2CamDelay == slide2CamDelay
      ensures slideText.None? && transcription.None? && thresholdCrossedAt.None?
    {
      this.bus := bus;
      this.rouge1GramWeight := rouge1GramWeight;
      this.rougeLWeight := rougeLWeight;
      this.slide2CamThreshold := slide2CamThreshold;
      this.slide2CamDelay := slide2CamDelay;
      slideText := None;
      transcription := None;
      thresholdCrossedAt := None;
    }

    /** on_slide_change (mixing.py:37-39): one MixingResult(SLIDE), no field touched. */
    method OnSlideChange(slide: Frame, previousSlide: Frame)
      modifies bus
      ensures bus.dispatched == old(bus.dispatched) + [MixingResult(SceneType.Slide)]
      ensures bus.handlers == old(bus.handlers)
    {
      bus.Dispatch(MixingResult(SceneType.Slide));
    }

    /** on_slide_ocr (mixing.py:41-46): the slide text becomes the lower-cased single-space join of the OCR texts. */
    method OnSlideOcr(ocrResult: seq<OcrItem>)
      modifies this
      ensures slideText == Some(Lower(Join(" ", OcrTexts(ocrResult))))
      ensures transcription == old(transcription) && thresholdCrossedAt == old(thresholdCrossedAt)
    {
      slideText := Some(Lower(Join(" ", OcrTexts(ocrResult))));
    }

    /**
     * on_transcription (mixing.py:48-57): the first text initialises the
     * transcript; later texts are appended after one space, once every
     * trailing '.' of the transcript has been stripped.
     */
    method OnTranscription(text: string)
      modifies this
      ensures old(transcription).None? ==> transcription == Some(Lower(text))
      ensures old(transcription).Some? ==> transcription == Some(RStrip(old(transcription).value, {'.'}) + " " + Lower(text))
      ensures slideText == old(slideText) && thresholdCrossedAt == old(thresholdCrossedAt)
    {
      if transcription.None? {
        transcription := Some(Lower(text));
        return;
      }
      var stripped := RStrip(transcription.value, {'.'});
      transcription := Some(stripped + " " + Lower(text));
    }

    /** on_program_change (mixing.py:59-64): CAMERA forgets both texts and the timer. */
    method OnProgramChange(sceneType: SceneType, sceneName: string)
      modifies this
      ensures sceneType == SceneType.Camera ==> slideText.None? && transcription.None? && thresholdCrossedAt.None?
      ensures sceneType != SceneType.Camera ==>
        slideText == old(slideText) && transcription == old(transcription) && thresholdCrossedAt == old(thresholdCrossedAt)
    {
      if sceneType == SceneType.Camera {
        slideText := None;
        transcription := None;
        thresholdCrossedAt := None;
      }
    }

    /** calculate_slide2cam_score (mixing.py:66-82), running the two LCS routines. */
    method CalculateSlide2CamScore() returns (score: real)
      ensures score == Slide2CamScore(slideText, transcription, rouge1GramWeight, rougeLWeight)
    {
      if slideText.None? || transcription.None? || |slideText.value| == 0 || |transcription.value| == 0 {
        return 0.0;
      }
      score := ScoreOfTexts(slideText.value, transcription.value, rouge1GramWeight, rougeLWeight);
    }

    /** step (mixing.py:84-91), with `now` the clock reading. */
    method Step(now: real)
      modifies this, bus
      ensures var d := StepAsWritten(old(thresholdCrossedAt),
                                     Sample(Slide2CamScore(slideText, transcription, rouge1GramWeight, rougeLWeight), now),
                                     slide2CamThreshold, slide2CamDelay);
        thresholdCrossedAt == d.crossedAt
        && bus.dispatched == old(bus.dispatched) + (if d.fire then [MixingResult(SceneType.Camera)] else [])
      ensures slideText == old(slideText) && transcription == old(transcription)
      ensures bus.handlers == old(bus.handlers)
    {
      var score := CalculateSlide2CamScore();
      if score < slide2CamThreshold {
        return;
      }
      if thresholdCrossedAt.None? {
        thresholdCrossedAt := Some(now);
        return;
      }
      if now - thresholdCrossedAt.value > slide2CamDelay {
        bus.Dispatch(MixingResult(SceneType.Camera));
      }
    }
  }
}
