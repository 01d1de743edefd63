/**
 * The transcription service (src/automixer/services/transcription.py): it
 * queues the audio segments of the bus, turns them into transcriptions on
 * its own thread, and hands the transcriptions to the bus at each step. It
 * runs only while a slide scene is on program.
 *
 * The speech-to-text engine is a parameter: each call of one run iteration
 * is given the engine's reply, the text or the error it raised.
 */
module Transcribing {
  import opened Wrappers
  import opened Events
  import opened Strings
  import opened Lifecycle

  /** SERVICE_NAME (transcription.py:19). */
  const TranscriptionServiceName := "transcription"

  /**
   * The truth value of the segment array (`not segment`, transcription.py:64).
   * The segment a microphone read yields is a numpy array, whose truth value
   * is ambiguous beyond one element, which raises ValueError; a one-element
   * array is its element's truth value, and an empty array is false.
   */
  function SegmentTruth(segment: seq<int>): (b: Result<bool>)
    ensures b.Failure? <==> |segment| > 1
    ensures b.Success? ==> (b.value <==> |segment| == 1 && segment[0] != 0)
  {
    if |segment| > 1 then Failure("The truth value of an array with more than one element is ambiguous")
    else Success(|segment| == 1 && segment[0] != 0)
  }

  /**
   * `result` is `text` with the whitespace at both ends removed and nothing
   * else changed, and it neither starts nor ends with whitespace.
   */
  predicate StrippedFrom(result: string, text: string)
  {
    (|result| == 0 || (!IsSpace(result[0]) && !IsSpace(result[|result| - 1])))
    && exists i, j ::
         0 <= i <= j <= |text| && result == text[i..j]
         && (forall k :: 0 <= k < i ==> IsSpace(text[k]))
         && (forall k :: j <= k < |text| ==> IsSpace(text[k]))
  }

  /**
   * process_audio_event (transcription.py:58-83), as written: the duration
   * is computed first, so a zero sample rate raises; then the truth test of
   * the segment array raises for more than one sample, and skips a segment
   * that is empty or a single zero sample; an engine error is logged and
   * yields nothing; otherwise the stripped text becomes a transcription
   * event. An event without a segment raises.
   */
  function ProcessAudioEvent(e: Event, reply: Result<string>): Result<Option<Event>>
  {
    if !e.AudioSegment? then Failure("event has no segment")
    else if e.samplerate == 0 then Failure("division by zero")
    else match SegmentTruth(e.segment)
      case Failure(err) => Failure(err)
      case Success(nonEmpty) =>
        if !nonEmpty then Success(None)
        else if reply.Failure? then Success(None)
        else Success(Some(Transcription(Strip(reply.value))))
  }

  /**
   * As written, processing raises for a zero sample rate, a non-audio event,
   * and every segment of more than one sample; it yields a transcription
   * exactly for a one-sample, non-zero segment the engine transcribed, and
   * the text is the engine's reply with the whitespace at both ends removed.
   */
  lemma ProcessAudioEventSound(e: Event, reply: Result<string>)
    ensures var r := ProcessAudioEvent(e, reply);
      (r.Failure? <==> !e.AudioSegment? || e.samplerate == 0 || |e.segment| > 1)
      && (e.AudioSegment? && e.samplerate != 0 && |e.segment| == 0 ==> r == Success(None))
      && (r.Success? && r.value.Some? <==>
            e.AudioSegment? && e.samplerate != 0 && |e.segment| == 1 && e.segment[0] != 0 && reply.Success?)
      && (r.Success? && r.value.Some? ==>
            r.value.value.Transcription? && StrippedFrom(r.value.value.text, reply.value))
  {
  }

  /**
   * process_audio_event as the comment of transcription.py:63 intends: only
   * an empty segment is skipped.
   */
  function ProcessAudioEventIntended(e: Event, reply: Result<string>): Result<Option<Event>>
  {
    if !e.AudioSegment? then Failure("event has no segment")
    else if e.samplerate == 0 then Failure("division by zero")
    else if |e.segment| == 0 then Success(None)
    else if reply.Failure? then Success(None)
    else Success(Some(Transcription(Strip(reply.value))))
  }

  /**
   * The intended processing raises only for a zero sample rate (or a
   * non-audio event), skips exactly the empty segment, and transcribes every
   * other segment the engine transcribed, into its stripped reply.
   */
  lemma ProcessAudioEventIntendedSound(e: Event, reply: Result<string>)
    ensures var r := ProcessAudioEventIntended(e, reply);
      (r.Failure? <==> !e.AudioSegment? || e.samplerate == 0)
      && (e.AudioSegment? && e.samplerate != 0 && |e.segment| == 0 ==> r == Success(None))
      && (r.Success? && r.value.Some? <==> e.AudioSegment? && e.samplerate != 0 && |e.segment| > 0 && reply.Success?)
      && (r.Success? && r.value.Some? ==>
            r.value.value.Transcription? && StrippedFrom(r.value.value.text, reply.value))
  {
  }

  /**
   * Every segment of more than one sample, which is every segment a read
   * of two or more frames yields, makes the code as written raise, where
   * the intended processing transcribes it; a raise ends the run loop.
   */
  lemma AsWrittenRaisesOnEveryRealSegment(segment: seq<int>, samplerate: int, text: string)
    requires |segment| > 1 && samplerate != 0
    ensures ProcessAudioEvent(AudioSegment(segment, samplerate), Success(text)).Failure?
    ensures ProcessAudioEventIntended(AudioSegment(segment, samplerate), Success(text))
              == Success(Some(Transcription(Strip(text))))
  {
  }

  class TranscriptionService {
    const bus: Bus
    const thread: ThreadService
    /** _audio_queue, head first. */
    var audioQueue: seq<Event>
    /** _transcription_queue, head first. */
    var transcriptionQueue: seq<Event>

    /** transcription.py:21-26: both queues empty, the thread not started. */
    constructor(bus: Bus)
      ensures this.bus == bus && fresh(thread)
      ensures thread.serviceName == TranscriptionServiceName && thread.State() == Life(false, false, false)
      ensures audioQueue == [] && transcriptionQueue == []
    {
      this.bus := bus;
      thread := new ThreadService(Some(TranscriptionServiceName), "TranscriptionService");
      audioQueue := [];
      transcriptionQueue := [];
    }

    /** on_audio_segment (transcription.py:28-30): the event joins the back of the audio queue. */
    method OnAudioSegment(segment: seq<int>, samplerate: int)
      modifies this
      ensures audioQueue == old(audioQueue) + [AudioSegment(segment, samplerate)]
      ensures transcriptionQueue == old(transcriptionQueue)
    {
      audioQueue := audioQueue + [AudioSegment(segment, samplerate)];
    }

    /** empty_queue (transcription.py:40-44): both queues are drained and dropped. */
    method EmptyQueue()
      modifies this
      ensures audioQueue == [] && transcriptionQueue == []
    {
      while |audioQueue| > 0
        decreases |audioQueue|
      {
        audioQueue := audioQueue[1..];
      }
      while |transcriptionQueue| > 0
        invariant audioQueue == []
        decreases |transcriptionQueue|
      {
        transcriptionQueue := transcriptionQueue[1..];
      }
    }

    /**
     * on_program_change (transcription.py:32-38): CAMERA stops the thread
     * and empties both queues, SLIDE starts the thread, OTHER does nothing.
     */
    method OnProgramChange(sceneType: SceneType)
      modifies this, thread
      ensures sceneType == SceneType.Camera ==>
        thread.State() == Stop(old(thread.State())) && audioQueue == [] && transcriptionQueue == []
      ensures sceneType == SceneType.Slide ==>
        thread.State() == Start(old(thread.State()))
        && audioQueue == old(audioQueue) && transcriptionQueue == old(transcriptionQueue)
      ensures sceneType == SceneType.Other ==>
        thread.State() == old(thread.State())
        && audioQueue == old(audioQueue) && transcriptionQueue == old(transcriptionQueue)
    {
      if sceneType == SceneType.Camera {
        thread.StopThread();
        EmptyQueue();
      } else if sceneType == SceneType.Slide {
        thread.StartThread();
      }
    }

    /** step (transcription.py:46-48): every queued transcription is dispatched, head first. */
    method Step()
      modifies this, bus
      ensures transcriptionQueue == [] && audioQueue == old(audioQueue)
      ensures bus.dispatched == old(bus.dispatched) + old(transcriptionQueue)
      ensures bus.handlers == old(bus.handlers)
    {
      ghost var drained := 0;
      while |transcriptionQueue| > 0
        invariant 0 <= drained <= |old(transcriptionQueue)| && transcriptionQueue == old(transcriptionQueue)[drained..]
        invariant bus.dispatched == old(bus.dispatched) + old(transcriptionQueue)[..drained]
        invariant bus.handlers == old(bus.handlers) && audioQueue == old(audioQueue)
        decreases |transcriptionQueue|
      {
        var e := transcriptionQueue[0];
        transcriptionQueue := transcriptionQueue[1..];
        assert old(transcriptionQueue)[..drained + 1] == old(transcriptionQueue)[..drained] + [e];
        bus.Dispatch(e);
        drained := drained + 1;
      }
      assert old(transcriptionQueue)[..drained] == old(transcriptionQueue);
    }

    /**
     * One pass of run's loop (transcription.py:51-56), with the engine's
     * reply for the segment it takes: at most one audio event leaves the
     * queue, and a transcription joins its queue only when processing
     * produced one. An exception ends the run loop, and with it the thread.
     */
    method RunIteration(reply: Result<string>) returns (outcome: Outcome)
      modifies this, thread
      ensures old(audioQueue) == [] ==>
        audioQueue == [] && transcriptionQueue == old(transcriptionQueue) && thread.State() == old(thread.State()) && outcome.Pass?
      ensures old(audioQueue) != [] ==>
        audioQueue == old(audioQueue)[1..]
        && match ProcessAudioEvent(old(audioQueue)[0], reply)
           case Failure(e) =>
             outcome == Fail(e) && transcriptionQueue == old(transcriptionQueue) && thread.State() == Ended(old(thread.State()))
           case Success(produced) =>
             outcome.Pass? && thread.State() == old(thread.State())
             && transcriptionQueue == old(transcriptionQueue) + (if produced.Some? then [produced.value] else [])
    {
      if |audioQueue| == 0 {
        return Pass;
      }
      var e := audioQueue[0];
      audioQueue := audioQueue[1..];
      var processed := ProcessAudioEvent(e, reply);
      if processed.Failure? {
        thread.EndRun();
        return Fail(processed.error);
      }
      if processed.value.Some? {
        transcriptionQueue := transcriptionQueue + [processed.value.value];
      }
      return Pass;
    }
  }
}
