/**
 * The scene manager of the earlier service generation
 * (services/scene_manager.py): a detected slide change puts a slide scene on
 * program and starts recording; a ROUGE score that stays at or above the
 * threshold for the transition-back delay puts the camera back on program,
 * once, and stops recording.
 *
 * The audio and transcription services it starts and stops are reduced to
 * one recording flag; the settling sleep of on_change (onchange_delay,
 * 2.0 s by default) is not modelled.
 */
module Scenes {
  import opened Wrappers
  import opened MixerConsole
  import opened Mixing

  /** The constructor defaults (scene_manager.py:19-23). */
  const DefaultPptScenes: seq<string> := ["FULL PPT", "KHOTBAH MODE 1", "KHOTBAH MODE 2"]
  const DefaultCamScene: string := "UTAMA DECKLINK"
  const DefaultTransitionBackDelay: real := 1.0
  const DefaultRougeThreshold: real := 0.8

  /**
   * The timer logic of on_rouge (scene_manager.py:82-108): a score at or
   * above the threshold starts the timer when there is none, and switches
   * back (clearing the timer) once at least `delay` has passed since it
   * started; a lower score clears the timer.
   */
  function RougeStep(crossedAt: Option<real>, s: Sample, threshold: real, delay: real): Debounce
  {
    if s.score >= threshold then
      if crossedAt.None? then Debounce(Some(s.now), false)
      else if s.now - crossedAt.value >= delay then Debounce(None, true)
      else Debounce(crossedAt, false)
    else Debounce(None, false)
  }

  /** The timer after a run of scores, from a cleared timer. */
  function RougeTimer(samples: seq<Sample>, threshold: real, delay: real): Option<real>
  {
    if |samples| == 0 then None
    else RougeStep(RougeTimer(samples[..|samples| - 1], threshold, delay), samples[|samples| - 1], threshold, delay).crossedAt
  }

  /**
   * One score: a low score clears the timer and never switches; the first
   * high score only starts the timer; nothing switches before the delay has
   * passed; a switch clears the timer.
   */
  lemma RougeStepSound(crossedAt: Option<real>, s: Sample, threshold: real, delay: real)
    ensures var d := RougeStep(crossedAt, s, threshold, delay);
      (s.score < threshold ==> d == Debounce(None, false))
      && (s.score >= threshold && crossedAt.None? ==> d == Debounce(Some(s.now), false))
      && (d.fire <==> s.score >= threshold && crossedAt.Some? && s.now - crossedAt.value >= delay)
      && (d.fire ==> d.crossedAt.None?)
      && (!d.fire && s.score >= threshold ==> d.crossedAt.Some?)
  {
  }

  /** The switch back is one-shot: the score right after a switch never switches again. */
  lemma SwitchIsOneShot(crossedAt: Option<real>, s: Sample, t: Sample, threshold: real, delay: real)
    requires RougeStep(crossedAt, s, threshold, delay).fire
    ensures !RougeStep(RougeStep(crossedAt, s, threshold, delay).crossedAt, t, threshold, delay).fire
  {
  }

  /** A running timer started at a score from which every score has stayed at or above the threshold. */
  lemma {:induction false} RougeTimerHeld(samples: seq<Sample>, threshold: real, delay: real)
    requires RougeTimer(samples, threshold, delay).Some?
    ensures exists k: nat :: HeldFrom(samples, k, threshold) && samples[k].now == RougeTimer(samples, threshold, delay).value
  {
    var n := |samples|;
    var init := samples[..n - 1];
    var prev := RougeTimer(init, threshold, delay);
    if prev.None? {
      assert HeldFrom(samples, n - 1, threshold);
    } else {
      RougeTimerHeld(init, threshold, delay);
      var k: nat :| HeldFrom(init, k, threshold) && init[k].now == prev.value;
      assert HeldFrom(samples, k, threshold);
    }
  }

  /**
   * The scene manager switches back only after the score has stayed at or
   * above the threshold, at every score, for at least the delay.
   */
  lemma SwitchesOnlyAfterHeldScore(samples: seq<Sample>, s: Sample, threshold: real, delay: real)
    requires RougeStep(RougeTimer(samples, threshold, delay), s, threshold, delay).fire
    ensures exists k: nat :: HeldFrom(samples + [s], k, threshold) && s.now - (samples + [s])[k].now >= delay
  {
    var all := samples + [s];
    assert all[..|samples|] == samples;
    RougeTimerHeld(samples, threshold, delay);
    var k: nat :| HeldFrom(samples, k, threshold) && samples[k].now == RougeTimer(samples, threshold, delay).value;
    assert all[k] == samples[k];
    assert HeldFrom(all, k, threshold);
  }

  class SceneManager {
    const mixer: Mixer
    const pptScenes: seq<string>
    const camScene: string
    const rougeThreshold: real
    const transitionBackDelay: real
    /** rouge_threshold_crossed_timestamp */
    var crossedAt: Option<real>
    /** Whether the audio and transcription services were last started rather than stopped. */
    var recording: bool

    /** scene_manager.py:13-39: no timer, nothing recording. */
    constructor(mixer: Mixer, pptScenes: seq<string>, camScene: string, rougeThreshold: real, transitionBackDelay: real)
      ensures this.mixer == mixer && this.pptScenes == pptScenes && this.camScene == camScene
      ensures this.rougeThreshold == rougeThreshold && this.transitionBackDelay == transitionBackDelay
      ensures crossedAt.None? && !recording
    {
      this.mixer := mixer;
      this.pptScenes := pptScenes;
      this.camScene := camScene;
      this.rougeThreshold := rougeThreshold;
      this.transitionBackDelay := transitionBackDelay;
      crossedAt := None;
      recording := false;
    }

    /**
     * on_change (scene_manager.py:59-80): when the program is a slide scene
     * nothing happens; otherwise (a failed query included) the first slide
     * scene goes on program, the timer is cleared and recording starts. An
     * empty scene list raises, which the handler logs.
     */
    method OnChange() returns (outcome: Outcome)
      modifies this, mixer
      ensures old(mixer.reachable) && old(mixer.program) in pptScenes ==>
        outcome.Pass? && mixer.setCalls == old(mixer.setCalls) && crossedAt == old(crossedAt) && recording == old(recording)
      ensures !(old(mixer.reachable) && old(mixer.program) in pptScenes) && |pptScenes| > 0 ==>
        outcome.Pass? && mixer.setCalls == old(mixer.setCalls) + [pptScenes[0]] && mixer.program == pptScenes[0]
        && crossedAt.None? && recording
      ensures !(old(mixer.reachable) && old(mixer.program) in pptScenes) && |pptScenes| == 0 ==>
        outcome.Fail? && mixer.setCalls == old(mixer.setCalls) && crossedAt == old(crossedAt) && recording == old(recording)
      ensures mixer.setCalls == old(mixer.setCalls) ==> mixer.program == old(mixer.program)
      ensures mixer.preview == old(mixer.preview) && mixer.reachable == old(mixer.reachable)
    {
      var current := mixer.GetCurrentProgramScene();
      if current.Some? && current.value in pptScenes {
        return Pass;
      }
      if |pptScenes| == 0 {
        return Fail("list index out of range");
      }
      mixer.SetProgramScene(pptScenes[0]);
      crossedAt := None;
      recording := true;
      return Pass;
    }

    /**
     * on_rouge (scene_manager.py:82-110) at clock reading `now`: the timer
     * follows RougeStep; a switch back puts the camera on program unless it
     * already is there (a failed query counts as not there) and stops
     * recording; nothing else touches the console.
     */
    method OnRouge(score: real, now: real)
      modifies this, mixer
      ensures var d := RougeStep(old(crossedAt), Sample(score, now), rougeThreshold, transitionBackDelay);
        crossedAt == d.crossedAt
        && (!d.fire ==> mixer.setCalls == old(mixer.setCalls) && mixer.program == old(mixer.program) && recording == old(recording))
        && (d.fire ==> !recording && mixer.program == camScene)
        && (d.fire && old(mixer.reachable) && old(mixer.program) == camScene ==> mixer.setCalls == old(mixer.setCalls))
        && (d.fire && !(old(mixer.reachable) && old(mixer.program) == camScene) ==> mixer.setCalls == old(mixer.setCalls) + [camScene])
      ensures mixer.preview == old(mixer.preview) && mixer.reachable == old(mixer.reachable)
    {
      if score >= rougeThreshold {
        if crossedAt.None? {
          crossedAt := Some(now);
        } else {
          var elapsed := now - crossedAt.value;
          if elapsed >= transitionBackDelay {
            var current := mixer.GetCurrentProgramScene();
            if current != Some(camScene) {
              mixer.SetProgramScene(camScene);
            }
            recording := false;
            crossedAt := None;
          }
        }
      } else {
        crossedAt := None;
      }
    }
  }
}
