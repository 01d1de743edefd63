/**
 * The ROUGE service of the earlier service generation
 * (services/rouge_service.py): it keeps the latest slide text and the
 * latest transcription, and whenever both are present and non-empty it
 * scores the transcription against the slide with metric.py's algorithms
 * and publishes the score with its two parts.
 *
 * The computation runs on a thread pool in the source; here it runs at the
 * call, on the texts stored at that moment.
 */
module RougeScoring {
  import opened Wrappers
  import opened LegacyEvents
  import opened Strings
  import opened TextMetrics
  import opened Metric
  import opened Mixing

  /** The constructor defaults (rouge_service.py:8). */
  const DefaultRouge1Weight: real := 0.9
  const DefaultRougeLWeight: real := 0.1
  const DefaultRougeThreshold: real := 0.8

  /** max(1, len(s)): the denominator of both ratios. */
  function Denominator(s: string): (n: nat)
    ensures n >= 1 && (|s| > 0 ==> n == |s|) && (|s| == 0 ==> n == 1)
  {
    if |s| >= 1 then |s| else 1
  }

  /** The word-level ratio of _compute_and_publish (rouge_service.py:39-40), with metric.py's lcs_1gram. */
  function Rouge1(s: string, t: string): real
  {
    Ratio(|Join(" ", Reconstruct(Split(s), Split(t), DistanceTolerance(WordTolerance)))|, Denominator(s))
  }

  /** The character-level ratio of _compute_and_publish (rouge_service.py:41-42). */
  function RougeLOf(s: string, t: string): real
  {
    Ratio(LcsLength(s, t, Equal), Denominator(s))
  }

  /** The event _compute_and_publish publishes at clock reading `now` (rouge_service.py:43-45). */
  function ScoreEvent(s: string, t: string, w1: real, wl: real, now: real): LegacyEvent
  {
    RougeScore(WeightedSum(w1, Rouge1(s, t), wl, RougeLOf(s, t)), Rouge1(s, t), RougeLOf(s, t), now)
  }

  /** _maybe_compute's guard (rouge_service.py:28-30): both texts present and non-empty. */
  predicate Ready(slideText: Option<string>, transcription: Option<string>)
  {
    slideText.Some? && transcription.Some? && |slideText.value| > 0 && |transcription.value| > 0
  }

  /**
   * Both ratios lie between 0 and 1 for any texts, the empty slide text
   * included (the denominator is at least 1), and the score of
   * non-negative weights lies between 0 and their sum.
   */
  lemma ScoreEventBounds(s: string, t: string, w1: real, wl: real, now: real)
    ensures var e := ScoreEvent(s, t, w1, wl, now);
      0.0 <= e.rouge1 <= 1.0 && 0.0 <= e.rougel <= 1.0
      && (0.0 <= w1 && 0.0 <= wl ==> 0.0 <= e.score <= w1 + wl)
  {
    var words1, words2 := Split(s), Split(t);
    var lcs := Reconstruct(words1, words2, DistanceTolerance(WordTolerance));
    ReconstructIsCommonSubsequence(words1, words2, DistanceTolerance(WordTolerance));
    JoinOfSubsequenceNoLonger(lcs, words1);
    JoinSplitNoLonger(s);
    RatioBounds(|Join(" ", lcs)|, Denominator(s));
    LcsLengthBounded(s, t, Equal);
    RatioBounds(LcsLength(s, t, Equal), Denominator(s));
    if 0.0 <= w1 && 0.0 <= wl {
      WeightedSumBounds(w1, wl, Rouge1(s, t), RougeLOf(s, t));
    }
  }

  /**
   * For the texts the service actually scores, its ratios are the mixing
   * service's ratios (metric.py's lcs_1gram agrees with text.py's), so the
   * published score is the mixing service's slide-to-camera score.
   */
  lemma ScoreEventAgreesWithMixing(s: string, t: string, w1: real, wl: real, now: real)
    requires |s| > 0 && |t| > 0
    ensures var e := ScoreEvent(s, t, w1, wl, now);
      e.rouge1 == Rouge1Gram(s, t) && e.rougel == RougeL(s, t)
      && e.score == Slide2CamScore(Some(s), Some(t), w1, wl)
  {
    Lcs1GramAgrees(Split(s), Split(t), WordTolerance);
  }

  class RougeService {
    const bus: LegacyBus
    const rouge1Weight: real
    const rougeLWeight: real
    var slideText: Option<string>
    var transcription: Option<string>

    /** rouge_service.py:8-18: neither text yet. */
    constructor(bus: LegacyBus, rouge1Weight: real, rougeLWeight: real)
      ensures this.bus == bus && this.rouge1Weight == rouge1Weight && this.rougeLWeight == rougeLWeight
      ensures slideText.None? && transcription.None?
    {
      this.bus := bus;
      this.rouge1Weight := rouge1Weight;
      this.rougeLWeight := rougeLWeight;
      slideText := None;
      transcription := None;
    }

    /**
     * _compute_and_publish (rouge_service.py:34-47) on the stored texts at
     * clock reading `now`. No step of it raises on two strings, so the
     * handler's except branch is never taken here.
     */
    method ComputeAndPublish(now: real)
      requires slideText.Some? && transcription.Some?
      modifies bus
      ensures bus.published == old(bus.published)
        + [ScoreEvent(slideText.value, transcription.value, rouge1Weight, rougeLWeight, now)]
    {
      var s, t := slideText.value, transcription.value;
      var _, lcsResult := Metric.Lcs1Gram(Split(s), Split(t), WordTolerance);
      var rouge1 := Ratio(|Join(" ", lcsResult)|, Denominator(s));
      var lcsLength, _ := Lcs(s, t);
      var rougeL := Ratio(lcsLength, Denominator(s));
      var score := WeightedSum(rouge1Weight, rouge1, rougeLWeight, rougeL);
      bus.Publish(RougeScore(score, rouge1, rougeL, now));
    }

    /** _maybe_compute (rouge_service.py:28-32): scores only when both texts are there and non-empty. */
    method MaybeCompute(now: real)
      modifies bus
      ensures Ready(slideText, transcription) ==>
        bus.published == old(bus.published) + [ScoreEvent(slideText.value, transcription.value, rouge1Weight, rougeLWeight, now)]
      ensures !Ready(slideText, transcription) ==> bus.published == old(bus.published)
    {
      if slideText.None? || transcription.None? || |slideText.value| == 0 || |transcription.value| == 0 {
        return;
      }
      ComputeAndPublish(now);
    }

    /** _on_slide (rouge_service.py:20-22): the slide text is replaced, not extended. */
    method OnSlide(text: string, now: real)
      modifies this, bus
      ensures slideText == Some(text) && transcription == old(transcription)
      ensures Ready(slideText, transcription) ==>
        bus.published == old(bus.published) + [ScoreEvent(text, transcription.value, rouge1Weight, rougeLWeight, now)]
      ensures !Ready(slideText, transcription) ==> bus.published == old(bus.published)
    {
      slideText := Some(text);
      MaybeCompute(now);
    }

    /** _on_transcription (rouge_service.py:24-26): the transcription is replaced, not extended. */
    method OnTranscription(text: string, now: real)
      modifies this, bus
      ensures transcription == Some(text) && slideText == old(slideText)
      ensures Ready(slideText, transcription) ==>
        bus.published == old(bus.published) + [ScoreEvent(slideText.value, text, rouge1Weight, rougeLWeight, now)]
      ensures !Ready(slideText, transcription) ==> bus.published == old(bus.published)
    {
      transcription := Some(text);
      MaybeCompute(now);
    }
  }
}
