/**
 * The interaction service (src/automixer/services/interaction.py): it turns
 * mixing results into set-program calls on the console, watches the
 * console's program scene for changes, and reports each change on the bus
 * with its classification.
 */
module Interaction {
  import opened Wrappers
  import opened Events
  import opened MixerConsole
  import opened Lifecycle

  /** SERVICE_NAME (interaction.py:16). */
  const InteractionServiceName := "interaction"

  // ---------------------------------------------------------------------------
  // Decisions, as functions of the console's state
  // ---------------------------------------------------------------------------

  /**
   * The classification of step (interaction.py:78-84): a slide name or the
   * default slide name is SLIDE, checked first; then the camera name is
   * CAMERA; everything else is OTHER.
   */
  function Classify(name: string, slideNames: seq<string>, defaultSlide: string, camName: string): SceneType
  {
    if name in slideNames || name == defaultSlide then SceneType.Slide
    else if name == camName then SceneType.Camera
    else SceneType.Other
  }

  /**
   * The scene switch_to_slide puts on program (interaction.py:35-46):
   * nothing when the program already is a slide scene; else the preview
   * when it is a slide scene; else the default slide scene.
   */
  function SlideTarget(program: string, preview: string, slideNames: seq<string>, defaultSlide: string): Option<string>
  {
    if program in slideNames then None
    else if preview in slideNames then Some(preview)
    else Some(defaultSlide)
  }

  /**
   * After switch_to_slide the program is a slide scene: the target, when
   * there is one, and the untouched program otherwise both classify as SLIDE.
   * A target re-sets the scene already on program only when that scene is
   * the default slide scene and is missing from the slide names.
   */
  lemma SlideTargetIsSlide(program: string, preview: string, slideNames: seq<string>, defaultSlide: string, camName: string)
    ensures var t := SlideTarget(program, preview, slideNames, defaultSlide);
      (t.Some? ==> Classify(t.value, slideNames, defaultSlide, camName) == SceneType.Slide)
      && (t.Some? && t.value == program ==> program == defaultSlide && program !in slideNames)
      && (t.None? ==> Classify(program, slideNames, defaultSlide, camName) == SceneType.Slide)
  {
  }

  /**
   * The camera scene classifies as CAMERA exactly when it is neither a slide
   * name nor the default slide name; otherwise switching to the camera is
   * reported back as a SLIDE program change.
   */
  lemma CameraClassification(slideNames: seq<string>, defaultSlide: string, camName: string)
    ensures Classify(camName, slideNames, defaultSlide, camName) == SceneType.Camera
        <==> camName !in slideNames && camName != defaultSlide
    ensures Classify(camName, slideNames, defaultSlide, camName) != SceneType.Other
  {
  }

  /** The last scene name observed after `polls`, starting from `initial`. */
  function LastObserved(initial: string, polls: seq<string>): string
  {
    if |polls| == 0 then initial else polls[|polls| - 1]
  }

  /**
   * The names a run reads before the first read that fails: a console that
   * cannot be queried makes get_current_program_scene raise.
   */
  function Answered(polls: seq<Option<string>>): (names: seq<string>)
    ensures |names| <= |polls|
    ensures forall i :: 0 <= i < |names| ==> polls[i] == Some(names[i])
    ensures |names| < |polls| <==> None in polls
    ensures |names| < |polls| ==> polls[|names|].None?
  {
    if |polls| == 0 || polls[0].None? then []
    else
      assert polls == [polls[0]] + polls[1..];
      [polls[0].value] + Answered(polls[1..])
  }

  /**
   * The names run enqueues (interaction.py:65-73) when it reads `initial`
   * first and then `polls`: each read that differs from the previous read.
   */
  function ProgramChanges(initial: string, polls: seq<string>): seq<string>
  {
    if |polls| == 0 then []
    else
      var init := polls[..|polls| - 1];
      ProgramChanges(initial, init)
      + (if polls[|polls| - 1] != LastObserved(initial, init) then [polls[|polls| - 1]] else [])
  }

  /**
   * The change notices are a faithful account of the reads: no two
   * neighbours are equal, the first differs from the initial read, each is
   * one of the reads, there are no more notices than reads, and the last
   * notice (or the initial read, when there is none) is the last read.
   */
  lemma {:induction false} ProgramChangesSound(initial: string, polls: seq<string>)
    ensures var c := ProgramChanges(initial, polls);
      |c| <= |polls|
      && (forall i :: 0 < i < |c| ==> c[i - 1] != c[i])
      && (|c| > 0 ==> c[0] != initial)
      && (forall name :: name in c ==> name in polls)
      && LastObserved(initial, c) == LastObserved(initial, polls)
    decreases |polls|
  {
    if |polls| > 0 {
      var init := polls[..|polls| - 1];
      ProgramChangesSound(initial, init);
      var c0 := ProgramChanges(initial, init);
      forall name | name in c0
        ensures name in polls
      {
        assert name in init;
      }
    }
  }

  /** The notices step dispatches for the queued names, one per name, in order. */
  function Notices(queue: seq<string>, slideNames: seq<string>, defaultSlide: string, camName: string): (r: seq<Event>)
    ensures |r| == |queue|
    ensures forall i :: 0 <= i < |queue| ==>
      r[i] == ProgramChange(Classify(queue[i], slideNames, defaultSlide, camName), queue[i])
  {
    if |queue| == 0 then []
    else Notices(queue[..|queue| - 1], slideNames, defaultSlide, camName)
         + [ProgramChange(Classify(queue[|queue| - 1], slideNames, defaultSlide, camName), queue[|queue| - 1])]
  }

  // ---------------------------------------------------------------------------
  // The service
  // ---------------------------------------------------------------------------

  class InteractionService {
    const bus: Bus
    const mixer: Mixer
    const slideNames: seq<string>
    const defaultSlide: string
    const camName: string
    const thread: ThreadService
    /** _program_change_queue, head first. */
    var queue: seq<string>

    /** interaction.py:18-33: an empty change queue, the thread not started. */
    constructor(bus: Bus, mixer: Mixer, slideNames: seq<string>, defaultSlide: string, camName: string)
      ensures this.bus == bus && this.mixer == mixer && this.slideNames == slideNames
      ensures this.defaultSlide == defaultSlide && this.camName == camName
      ensures fresh(thread) && thread.serviceName == InteractionServiceName && thread.State() == Life(false, false, false)
      ensures queue == []
    {
      this.bus := bus;
      this.mixer := mixer;
      this.slideNames := slideNames;
      this.defaultSlide := defaultSlide;
      this.camName := camName;
      thread := new ThreadService(Some(InteractionServiceName), "InteractionService");
      queue := [];
    }

    /**
     * switch_to_slide (interaction.py:35-46): at most one set-program call,
     * to SlideTarget; a console that cannot be queried raises.
     */
    method SwitchToSlide() returns (outcome: Outcome)
      modifies mixer
      ensures !old(mixer.reachable) ==> outcome.Fail? && mixer.setCalls == old(mixer.setCalls) && mixer.program == old(mixer.program)
      ensures old(mixer.reachable) ==> outcome.Pass?
      ensures old(mixer.reachable) ==>
        (match SlideTarget(old(mixer.program), old(mixer.preview), slideNames, defaultSlide)
         case None => mixer.setCalls == old(mixer.setCalls) && mixer.program == old(mixer.program)
         case Some(name) => mixer.setCalls == old(mixer.setCalls) + [name] && mixer.program == name)
      ensures mixer.preview == old(mixer.preview) && mixer.reachable == old(mixer.reachable)
    {
      var preview := mixer.GetCurrentPreviewScene();
      var program := mixer.GetCurrentProgramScene();
      if preview.None? || program.None? {
        return Fail("the console cannot be reached");
      }
      if program.value in slideNames {
        return Pass;
      }
      var sceneName;
      if preview.value in slideNames {
        sceneName := preview.value;
      } else {
        sceneName := defaultSlide;
      }
      mixer.SetProgramScene(sceneName);
      return Pass;
    }

    /**
     * switch_to_camera (interaction.py:48-54): nothing when the camera is on
     * program, else exactly one set-program call, to the camera scene.
     */
    method SwitchToCamera() returns (outcome: Outcome)
      modifies mixer
      ensures !old(mixer.reachable) ==> outcome.Fail? && mixer.setCalls == old(mixer.setCalls) && mixer.program == old(mixer.program)
      ensures old(mixer.reachable) && old(mixer.program) == camName ==>
        outcome.Pass? && mixer.setCalls == old(mixer.setCalls) && mixer.program == old(mixer.program)
      ensures old(mixer.reachable) && old(mixer.program) != camName ==>
        outcome.Pass? && mixer.setCalls == old(mixer.setCalls) + [camName] && mixer.program == camName
      ensures mixer.preview == old(mixer.preview) && mixer.reachable == old(mixer.reachable)
    {
      var program := mixer.GetCurrentProgramScene();
      if program.None? {
        return Fail("the console cannot be reached");
      }
      if program.value == camName {
        return Pass;
      }
      mixer.SetProgramScene(camName);
      return Pass;
    }

    /**
     * on_mixing_result (interaction.py:56-63): SLIDE switches to a slide
     * scene, CAMERA to the camera scene, anything else raises ValueError.
     */
    method OnMixingResult(sceneType: SceneType) returns (outcome: Outcome)
      modifies mixer
      ensures sceneType == SceneType.Other ==> outcome.Fail? && mixer.setCalls == old(mixer.setCalls) && mixer.program == old(mixer.program)
      ensures sceneType != SceneType.Other && !old(mixer.reachable) ==>
        outcome.Fail? && mixer.setCalls == old(mixer.setCalls) && mixer.program == old(mixer.program)
      ensures sceneType == SceneType.Slide && old(mixer.reachable) ==>
        outcome.Pass? && Classify(mixer.program, slideNames, defaultSlide, camName) == SceneType.Slide
        && (match SlideTarget(old(mixer.program), old(mixer.preview), slideNames, defaultSlide)
            case None => mixer.setCalls == old(mixer.setCalls) && mixer.program == old(mixer.program)
            case Some(name) => mixer.setCalls == old(mixer.setCalls) + [name] && mixer.program == name)
      ensures sceneType == SceneType.Camera && old(mixer.reachable) ==>
        outcome.Pass? && mixer.program == camName
        && mixer.setCalls == old(mixer.setCalls) + (if old(mixer.program) == camName then [] else [camName])
      ensures mixer.preview == old(mixer.preview) && mixer.reachable == old(mixer.reachable)
    {
      SlideTargetIsSlide(mixer.program, mixer.preview, slideNames, defaultSlide, camName);
      if sceneType == SceneType.Slide {
        outcome := SwitchToSlide();
      } else if sceneType == SceneType.Camera {
        outcome := SwitchToCamera();
      } else {
        outcome := Fail("Unknown scene type: other");
      }
    }

    /**
     * run (interaction.py:65-73) over the program names it reads: `initial`
     * before the loop, then one read per pass, until the stop request that
     * follows the last read. A read that fails raises, which ends the loop
     * and the thread; the names read before it are enqueued.
     */
    method Run(initial: Option<string>, polls: seq<Option<string>>) returns (outcome: Outcome)
      modifies this, thread
      ensures initial.None? ==> queue == old(queue)
      ensures initial.Some? ==> queue == old(queue) + ProgramChanges(initial.value, Answered(polls))
      ensures outcome.Fail? <==> initial.None? || None in polls
      ensures outcome.Fail? ==> thread.State() == Ended(old(thread.State()))
      ensures outcome.Pass? ==> thread.State() == old(thread.State())
    {
      if initial.None? {
        thread.EndRun();
        return Fail("the console cannot be reached");
      }
      var names := Answered(polls);
      var previous := initial.value;
      var i := 0;
      while i < |polls|
        invariant 0 <= i <= |names|
        invariant previous == LastObserved(initial.value, names[..i])
        invariant queue == old(queue) + ProgramChanges(initial.value, names[..i])
        invariant thread.State() == old(thread.State())
      {
        if polls[i].None? {
          assert names[..i] == names;
          thread.EndRun();
          return Fail("the console cannot be reached");
        }
        var program := polls[i].value;
        assert names[i] == program;
        assert names[..i + 1][..i] == names[..i];
        if program != previous {
          queue := queue + [program];
          previous := program;
        }
        i := i + 1;
      }
      assert names[..i] == names;
      return Pass;
    }

    /**
     * step (interaction.py:75-88): drains the queue head first, dispatching
     * one ProgramChange per name with its classification.
     */
    method Step()
      modifies this, bus
      ensures queue == []
      ensures bus.dispatched == old(bus.dispatched) + Notices(old(queue), slideNames, defaultSlide, camName)
      ensures bus.handlers == old(bus.handlers)
    {
      ghost var drained := 0;
      while |queue| > 0
        invariant 0 <= drained <= |old(queue)| && queue == old(queue)[drained..]
        invariant bus.dispatched == old(bus.dispatched) + Notices(old(queue)[..drained], slideNames, defaultSlide, camName)
        invariant bus.handlers == old(bus.handlers)
        decreases |queue|
      {
        var program := queue[0];
        queue := queue[1..];
        assert old(queue)[..drained + 1][..drained] == old(queue)[..drained];
        bus.Dispatch(ProgramChange(Classify(program, slideNames, defaultSlide, camName), program));
        drained := drained + 1;
      }
      assert old(queue)[..drained] == old(queue);
    }
  }
}
