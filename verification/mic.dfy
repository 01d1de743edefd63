/**
 * The microphone service (src/automixer/services/mic.py): its thread reads
 * fixed-size segments from the input stream into a queue, and each step
 * hands the queued segments to the bus as audio segment events. It runs only
 * while a slide scene is on program.
 *
 * The input stream is a parameter: one run iteration is given the segment
 * the blocking read returned.
 */
module Microphone {
  import opened Wrappers
  import opened Events
  import opened Lifecycle

  /** SERVICE_NAME (mic.py:12). */
  const MicServiceName := "mic"

  /** What draining the segment queue leaves: the queue, the events dispatched and how it ended. */
  datatype Drain = Drain(remaining: seq<seq<int>>, dispatched: seq<Event>, outcome: Outcome)

  /**
   * step as written (mic.py:30-36): the event's segment is taken off the
   * queue before its sample rate is read from `self.samplerate`, an
   * attribute the service never assigns. On a non-empty queue the head is
   * therefore lost, nothing is dispatched and the step raises.
   */
  function DrainAsWritten(queue: seq<seq<int>>): Drain
  {
    if |queue| == 0 then Drain([], [], Pass)
    else Drain(queue[1..], [], Fail("'MicService' object has no attribute 'samplerate'"))
  }

  /** The events step evidently intends: every segment, in order, with the stream's sample rate. */
  function Segments(queue: seq<seq<int>>, samplerate: int): (es: seq<Event>)
    ensures |es| == |queue|
    ensures forall i :: 0 <= i < |es| ==> es[i] == AudioSegment(queue[i], samplerate)
  {
    if |queue| == 0 then [] else Segments(queue[..|queue| - 1], samplerate) + [AudioSegment(queue[|queue| - 1], samplerate)]
  }

  /** step with the sample rate taken from the input stream: the whole queue is dispatched, head first. */
  function DrainIntended(queue: seq<seq<int>>, samplerate: int): Drain
  {
    Drain([], Segments(queue, samplerate), Pass)
  }

  /**
   * As written, a step on a non-empty queue loses the first segment and
   * dispatches nothing, where the intended step dispatches every segment,
   * that one included; on an empty queue the two agree.
   */
  lemma AsWrittenLosesFirstSegment(queue: seq<seq<int>>, samplerate: int)
    ensures var w, c := DrainAsWritten(queue), DrainIntended(queue, samplerate);
      (|queue| == 0 ==> w == c)
      && (|queue| > 0 ==>
            w.outcome.Fail? && w.dispatched == [] && w.remaining == queue[1..]
            && c.outcome.Pass? && c.remaining == [] && |c.dispatched| == |queue|
            && c.dispatched[0] == AudioSegment(queue[0], samplerate)
            && AudioSegment(queue[0], samplerate) !in w.dispatched)
  {
  }

  class MicService {
    const bus: Bus
    const thread: ThreadService
    /** The sample rate of the input stream the service reads. */
    const streamSamplerate: int
    /** _audio_queue, head first. */
    var audioQueue: seq<seq<int>>

    /** mic.py:14-23: an empty queue, the thread not started. */
    constructor(bus: Bus, streamSamplerate: int)
      ensures this.bus == bus && this.streamSamplerate == streamSamplerate && fresh(thread)
      ensures thread.serviceName == MicServiceName && thread.State() == Life(false, false, false)
      ensures audioQueue == []
    {
      this.bus := bus;
      this.streamSamplerate := streamSamplerate;
      thread := new ThreadService(Some(MicServiceName), "MicService");
      audioQueue := [];
    }

    /** One pass of run's loop (mic.py:26-28): the segment read joins the back of the queue. */
    method RunIteration(segment: seq<int>)
      modifies this
      ensures audioQueue == old(audioQueue) + [segment]
    {
      audioQueue := audioQueue + [segment];
    }

    /** step as written (mic.py:30-36). */
    method StepAsWritten() returns (outcome: Outcome)
      modifies this
      ensures var d := DrainAsWritten(old(audioQueue));
        audioQueue == d.remaining && outcome == d.outcome && bus.dispatched == old(bus.dispatched)
    {
      if |audioQueue| > 0 {
        audioQueue := audioQueue[1..];
        return Fail("'MicService' object has no attribute 'samplerate'");
      }
      return Pass;
    }

    /** step (mic.py:30-36) with the stream's sample rate: the queue is dispatched, head first. */
    method Step()
      modifies this, bus
      ensures var d := DrainIntended(old(audioQueue), streamSamplerate);
        audioQueue == d.remaining && bus.dispatched == old(bus.dispatched) + d.dispatched
      ensures bus.handlers == old(bus.handlers)
    {
      ghost var drained := 0;
      while |audioQueue| > 0
        invariant 0 <= drained <= |old(audioQueue)| && audioQueue == old(audioQueue)[drained..]
        invariant bus.dispatched == old(bus.dispatched) + Segments(old(audioQueue)[..drained], streamSamplerate)
        invariant bus.handlers == old(bus.handlers)
        decreases |audioQueue|
      {
        var segment := audioQueue[0];
        audioQueue := audioQueue[1..];
        assert old(audioQueue)[..drained + 1][..drained] == old(audioQueue)[..drained];
        bus.Dispatch(AudioSegment(segment, streamSamplerate));
        drained := drained + 1;
      }
      assert old(audioQueue)[..drained] == old(audioQueue);
    }

    /** empty_queue (mic.py:38-40): the queued segments are dropped. */
    method EmptyQueue()
      modifies this
      ensures audioQueue == []
    {
      while |audioQueue| > 0
        decreases |audioQueue|
      {
        audioQueue := audioQueue[1..];
      }
    }

    /**
     * on_program_change (mic.py:42-48): CAMERA stops the thread and drops the
     * queue, SLIDE starts the thread, OTHER does nothing.
     */
    method OnProgramChange(sceneType: SceneType)
      modifies this, thread
      ensures sceneType == SceneType.Camera ==> thread.State() == Stop(old(thread.State())) && audioQueue == []
      ensures sceneType == SceneType.Slide ==> thread.State() == Start(old(thread.State())) && audioQueue == old(audioQueue)
      ensures sceneType == SceneType.Other ==> thread.State() == old(thread.State()) && audioQueue == old(audioQueue)
    {
      if sceneType == SceneType.Camera {
        thread.StopThread();
        EmptyQueue();
      } else if sceneType == SceneType.Slide {
        thread.StartThread();
      }
    }
  }
}
