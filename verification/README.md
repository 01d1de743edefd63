# automixer control core, in Dafny

automixer runs a live broadcast with two kinds of program scene on a mixing
console: slide scenes and camera scenes. When the slide on the slide feed
changes, it puts a slide scene on program. It transcribes the speaker and
compares the transcript with the slide text. Once enough of the slide has been
spoken, for long enough, it switches back to the camera. This project models
the part of the program that makes those decisions, and proves its properties.

- **Text correlation** (`TextMetrics`, `Metric`, `Strings`):
  - the two-row Levenshtein distance;
  - the exact longest common subsequence (LCS), with its backtracking reconstruction;
  - the tolerant word-level LCS.

  These are written as methods over arrays. They are proved against recursive
  specification functions, and optimality, symmetry and subsequence-ness are
  lemmas about those functions. `Strings` models the Python string operations
  the services use: `split()`, `join`, `lower`, `rstrip` and `strip`.
- **Mixing service** (`Mixing`). It keeps the slide text and the transcript,
  computes the weighted ROUGE score, and runs the time-debounced
  slide-to-camera decision of `step`.
- **Interaction service** (`Interaction`, over the console model
  `MixerConsole`). It turns mixing results into set-program calls, polls the
  program scene for changes, and reports each change with its classification.
- **Slide-change detection**. `Frames` holds the pixel statistics. `Slide`
  covers `slide.py`, and `ChangeDetection` covers the earlier
  `change_detector.py` with its cooldown.
- **Earlier service generation**:
  - `Scenes`, the one-shot debounce of the scene manager;
  - `RougeScoring`, the overwrite-and-score ROUGE service.
- **Service plumbing**:
  - `Transcribing` and `Microphone`, the scene-gated audio queues;
  - `Lifecycle`, handler registration and the thread life cycle of `base.py`;
  - `Collection`, the fixed service order of the service collection.

`Events` holds the event payloads and an event bus. The bus records the
events dispatched on it and the handlers registered on it. `LegacyEvents`
does the same for the earlier generation. `Wrappers` holds `Option`,
`Result` and `Outcome`. `Outcome` records whether a handler raised, and with
which message.

Wall-clock time is a `now` parameter. Weights, scores and pixel statistics are
exact `real`s. A frame is the flat sequence of its 8-bit channel values.
Services that update their fields are classes whose methods state their new
state through a pure step function, and the lemmas are about those functions.

## Model

| member | source | states |
|---|---|---|
| TextMetrics.EditDistanceBounds | src/automixer/utils/text.py:6-18 | The distance is at least the difference of the lengths and at most the longer length, so the distance to the empty string is the other string's length. |
| TextMetrics.EditDistanceSymmetric | src/automixer/utils/text.py:3-4 | Swapping the arguments does not change the edit distance, which is why the code may swap them. |
| TextMetrics.EditDistanceZeroIff | src/automixer/utils/text.py:9-15 | The distance is 0 exactly when the strings are equal. |
| TextMetrics.FillEditRow | src/automixer/utils/text.py:10-15 | Given row i-1 of the edit-distance table in `previous`, one inner pass leaves row i in `current`. |
| TextMetrics.EditDistanceByRows | src/automixer/utils/text.py:6-18 | The two-row loop with its swap returns the edit distance of the two strings. |
| TextMetrics.LevenshteinDistance | src/automixer/utils/text.py:1-18 | The result is the edit distance whichever argument is longer. It is the other length when one string is empty, and 0 exactly when the strings are equal. |
| TextMetrics.LcsLengthBounded | src/automixer/utils/text.py:24-31 | The LCS length is at most the length of either input. |
| TextMetrics.LcsLengthIsMaximal | src/automixer/utils/text.py:24-31 | No common subsequence is longer than the table value, so `dp[m][n]` is the optimum. |
| TextMetrics.FillLcsRow | src/automixer/utils/text.py:27-31 | One pass of the inner loop fills table row i+1 with the LCS lengths of the prefixes, and no other row changes. |
| TextMetrics.LcsTable | src/automixer/utils/text.py:23-31 | Every cell `dp[r][c]` holds the LCS length of the prefixes of lengths r and c. |
| TextMetrics.ReconstructIsCommonSubsequence | src/automixer/utils/text.py:33-46 | The backtracked list has exactly `dp[m][n]` elements, is a subsequence of `seq1`, and pairs in order with matching elements of `seq2`. |
| TextMetrics.LcsBacktrack | src/automixer/utils/text.py:33-46 | The backtracking while loop, with its append and final reversal, yields the reconstruction. |
| TextMetrics.Lcs | src/automixer/utils/text.py:21-46 | `lcs` returns the LCS length and a common subsequence of exactly that length. No common subsequence is longer. |
| TextMetrics.TolerantEqualSymmetric | src/automixer/utils/text.py:57-62 | Tolerant equality does not depend on the order of its arguments. |
| TextMetrics.TolerantEqualWithin | src/automixer/utils/text.py:57-62 | Two tolerant-equal words are within the tolerance both in length difference and in edit distance. |
| TextMetrics.Lcs1GramZeroIsLcs | src/automixer/utils/text.py:60-61 | With tolerance 0, `lcs_1gram` computes the same length and list as `lcs`. |
| TextMetrics.EqualWithTolerance | src/automixer/utils/text.py:57-62 | The method, with its length precheck and tolerance-0 shortcut, decides tolerant equality. |
| TextMetrics.FillTolerantRow | src/automixer/utils/text.py:66-70 | One pass of the inner loop fills row i+1 with the tolerant LCS lengths of the prefixes. |
| TextMetrics.TolerantBacktrack | src/automixer/utils/text.py:72-85 | The tolerant backtracking loop yields the reconstruction under tolerant equality. |
| TextMetrics.Lcs1Gram | src/automixer/utils/text.py:49-85 | The result is a longest subsequence of `seq1` whose words pair in order with tolerant-equal words of `seq2`, and its length is `dp[m][n]`. |
| Metric.DistanceWithinIsTolerantEqual | metric.py:57-60 | Without the tolerance-0 shortcut, metric.py's relation accepts exactly the word pairs text.py's accepts. |
| Metric.LengthCheckRedundant | metric.py:57-60 | The length precheck only saves work. The edit distance alone decides the relation. |
| Metric.Lcs1GramAgrees | metric.py:49-83 | metric.py's `lcs_1gram` has the same table value and reconstruction as text.py's for every tolerance. |
| Metric.EqualWithTolerance | metric.py:57-60 | An accepted pair is within the tolerance in length difference and in edit distance. |
| Metric.FillRow | metric.py:63-68 | One pass of the inner loop fills row i+1 with the LCS lengths under metric.py's relation. |
| Metric.Backtrack | metric.py:70-83 | The backtracking loop yields the reconstruction under metric.py's relation. |
| Metric.Lcs1Gram | metric.py:49-83 | The result is a longest tolerant common subsequence of length `dp[m][n]`, and it equals the result of text.py's `lcs_1gram`. |
| Strings.Lower | src/automixer/services/mixing.py:44 | Lower-casing keeps the length, maps each character, and leaves no upper-case ASCII letter. |
| Strings.LowerIdempotent | src/automixer/services/mixing.py:52 | Lower-casing twice is lower-casing once. |
| Strings.SplitYieldsWords | src/automixer/services/mixing.py:70-71 | Every word of `split()` is non-empty and contains no whitespace. |
| Strings.JoinSplitNoLonger | src/automixer/services/mixing.py:74 | Re-joining the words of a text with single spaces never gives a longer text. |
| Strings.SplitJoin | src/automixer/services/mixing.py:44 | Splitting the single-space join of words gives the words back. |
| Strings.RStrip | src/automixer/services/mixing.py:55 | `rstrip("...")` removes every trailing character of the set {'.'}, however many there are, and nothing else. |
| Strings.Strip | src/automixer/services/transcription.py:80 | `strip()` returns the middle of the text: what it removes at either end is all whitespace, and what is left neither starts nor ends with whitespace. |
| Mixing.RatiosInUnitInterval | src/automixer/services/mixing.py:69-76 | Both ROUGE ratios lie in [0, 1] for any non-empty slide text. |
| Mixing.JoinOfSubsequenceNoLonger | src/automixer/services/mixing.py:74 | The join of a subsequence of the slide's words is no longer than the join of all of them. |
| Mixing.ScoreBounds | src/automixer/services/mixing.py:66-82 | With non-negative weights, the score lies between 0 and the sum of the weights. |
| Mixing.ScoreOfRepeatedSlide | src/automixer/services/mixing.py:69-80 | A transcript that repeats the slide scores the full sum of the weights. |
| Mixing.FiresAgainAfterDispatch | src/automixer/services/mixing.py:90-91 | After a dispatch the timer is left unchanged, so every later score at or above the threshold dispatches CAMERA again. |
| Mixing.AsWrittenFiresAfterDip | src/automixer/services/mixing.py:85-91 | With the code as written, a high, then low, then high score dispatches CAMERA although the score never held for the delay. |
| Mixing.TimerIntendedHeld | src/automixer/services/mixing.py:84-91 | With the corrected step, a running timer started at a score from which every later score has stayed at or above the threshold. |
| Mixing.FiresOnlyAfterHeldScore | src/automixer/services/mixing.py:84-91 | The corrected step dispatches CAMERA only when the score has stayed at or above the threshold for strictly more than the delay. |
| Mixing.ComputeRouge1Gram | src/automixer/services/mixing.py:69-74 | The word-level ratio, computed through the tolerant LCS, lies in [0, 1]. |
| Mixing.ComputeRougeL | src/automixer/services/mixing.py:75-76 | The character-level ratio, computed through the exact LCS, lies in [0, 1]. |
| Mixing.ScoreOfTexts | src/automixer/services/mixing.py:69-80 | The weighted sum of the two ratios. |
| Mixing.MixingService.constructor | src/automixer/services/mixing.py:20-35 | Both texts and the timer start out missing. |
| Mixing.MixingService.OnSlideChange | src/automixer/services/mixing.py:37-39 | Dispatches exactly one MixingResult(SLIDE) and changes no field. |
| Mixing.MixingService.OnSlideOcr | src/automixer/services/mixing.py:41-46 | The slide text becomes the lower-cased single-space join of the OCR texts. Nothing else changes. |
| Mixing.MixingService.OnTranscription | src/automixer/services/mixing.py:48-57 | The first text sets the transcript to its lower-cased form. Each later text strips every trailing '.', then appends a space and the lower-cased text. |
| Mixing.MixingService.OnProgramChange | src/automixer/services/mixing.py:59-64 | CAMERA clears both texts and the timer. Other scene types change nothing. |
| Mixing.MixingService.CalculateSlide2CamScore | src/automixer/services/mixing.py:66-82 | The score is 0 when either text is missing or empty, and otherwise the weighted sum of the two ratios. |
| Mixing.MixingService.Step | src/automixer/services/mixing.py:84-91 | The timer follows the as-written debounce, and CAMERA is dispatched exactly when it fires. |
| MixerConsole.Mixer.GetCurrentProgramScene | src/automixer/interactors/base.py:19-21 | Returns the program scene of a reachable console, and nothing otherwise. |
| MixerConsole.Mixer.GetCurrentPreviewScene | src/automixer/interactors/base.py:23-25 | Returns the preview scene of a reachable console, and nothing otherwise. |
| MixerConsole.Mixer.SetProgramScene | src/automixer/interactors/base.py:15-17 | Logs the call and puts the scene on program. The preview does not change. |
| Interaction.SlideTargetIsSlide | src/automixer/services/interaction.py:35-46 | After `switch_to_slide`, the program classifies as SLIDE: either the target is set, or the program already was a slide scene. |
| Interaction.CameraClassification | src/automixer/services/interaction.py:78-84 | The camera scene classifies as CAMERA exactly when it is not a slide name or the default slide. |
| Interaction.ProgramChangesSound | src/automixer/services/interaction.py:65-73 | The enqueued names are reads that differ from the previous read. Neighbours are distinct, and the last one is the last read. |
| Interaction.Notices | src/automixer/services/interaction.py:75-88 | One ProgramChange per queued name, in order, carrying the name and its classification. |
| Interaction.InteractionService.constructor | src/automixer/services/interaction.py:15-33 | Keeps the bus, the console and the scene names, with an empty change queue and a not-yet-started thread named "interaction". |
| Interaction.InteractionService.SwitchToSlide | src/automixer/services/interaction.py:35-46 | At most one set-program call, to the slide target. An unreachable console raises and nothing is set. |
| Interaction.InteractionService.SwitchToCamera | src/automixer/services/interaction.py:48-54 | No call when the camera is on program, and otherwise exactly one call, to the camera scene. |
| Interaction.InteractionService.OnMixingResult | src/automixer/services/interaction.py:56-63 | SLIDE puts the slide target on program with one call, and makes no call when a slide scene already is on program. CAMERA puts the camera on program, and makes no call when it already is there. Either way the program then classifies as the scene type asked for. An unreachable console raises without a call. OTHER raises ValueError without touching the console. |
| Interaction.Answered | src/automixer/services/interaction.py:66-68 | The names read before the first failed read, in order. A read fails somewhere exactly when fewer names than reads are answered. |
| Interaction.InteractionService.Run | src/automixer/services/interaction.py:65-73 | The change queue grows by exactly the program changes among the reads answered before the first failure. A failed read, the initial one included, raises and ends the thread. Otherwise the thread is untouched. |
| Interaction.InteractionService.Step | src/automixer/services/interaction.py:75-88 | Drains the queue FIFO, dispatching its notices in order, and leaves the queue empty. |
| Frames.SquareComparison | src/automixer/services/slide.py:36 | For a non-negative std, comparing it with a threshold is comparing the variance with the squared threshold. |
| Frames.AbsDiffSymmetric | src/automixer/services/slide.py:53-57 | The absolute difference does not depend on the order of the frames. It is 0 exactly where they agree, so it is all zero exactly for equal frames. |
| Frames.MaskedLowersValues | src/automixer/services/slide.py:62-66 | Masking lowers a value only to 0. It keeps the whole difference when no edge reaches the threshold, and masking twice is masking once. |
| Frames.ConstantFrameIsBlack | src/automixer/services/slide.py:33-37 | A uniform frame darker than the mean threshold is full black for any positive std threshold. |
| Frames.IdenticalFramesNotDifferent | src/automixer/services/slide.py:59-67 | A non-empty frame compared with itself is never different when the diff threshold is not negative. Comparing an empty frame raises in the edge detection. |
| Frames.MaskingLowersMean | src/automixer/services/slide.py:62-66 | Masked values still count in the denominator, so masking never raises the mean. An all-edge mask gives mean 0. |
| Slide.SlideService.constructor | src/automixer/services/slide.py:15-28 | Keeps the thresholds and the edge detector, with no frame stored yet. |
| Slide.ReactSound | src/automixer/services/slide.py:69-87 | An invalid frame changes nothing, and the first valid frame is only stored. A later valid frame is stored, and SlideChange(new, old) is dispatched exactly when the frames differ. Only a shape mismatch, or an empty frame after a stored one, raises. |
| Slide.ReplayStoresLastValid | src/automixer/services/slide.py:73-87 | Over a run of frames of one shape, the stored frame is the last valid one, and there are no more events than frames. |
| Slide.LastValidHasSize | src/automixer/services/slide.py:73-78 | The last valid frame of frames of one size has that size. |
| Slide.ReplayChangesAreValid | src/automixer/services/slide.py:80-85 | Every SlideChange of a run is between two valid frames, and the stored frame is always valid. |
| Slide.SlideService.OnCameraFrame | src/automixer/services/slide.py:69-87 | The stored frame, the dispatched events and the outcome are those of one reaction. |
| ChangeDetection.SignedDiffSound | services/change_detector.py:52-55 | The signed difference is zero everywhere exactly for equal frames, and changes sign when they are swapped. Its mean is the difference of the frames' means. |
| ChangeDetection.PlaceholderIsDetected | services/change_detector.py:49-56 | A frame equal to the placeholder picture is recognised as the virtual camera's default. |
| ChangeDetection.OnFrameSound | services/change_detector.py:58-94 | A missing frame changes nothing. Any frame becomes `img_before`. An event stamped `now` is published exactly when the detector fires, and then the cooldown restarts. An identical frame never fires. |
| ChangeDetection.ReplaySpaced | services/change_detector.py:81-87 | Over a run, the change stamps are spaced by the cooldown from the last event before the run, and the last stamp is `_last_event_ts`. |
| ChangeDetection.SpacedPairwise | services/change_detector.py:83-87 | Any two published events are at least one cooldown apart. |
| ChangeDetection.ChangeDetector.constructor | services/change_detector.py:16-42 | No frame yet, and the last event at time 0. |
| ChangeDetection.ChangeDetector.HandleFrame | services/change_detector.py:58-94 | The new state and the published events are those of OnFrame. |
| Scenes.RougeStepSound | services/scene_manager.py:82-108 | A low score clears the timer and the first high score starts it. The manager switches back exactly when the delay has elapsed on a running timer, and a switch clears the timer. |
| Scenes.SwitchIsOneShot | services/scene_manager.py:101-105 | The score right after a switch back never switches again. |
| Scenes.RougeTimerHeld | services/scene_manager.py:87-108 | A running timer started at a score from which every score has stayed at or above the threshold. |
| Scenes.SwitchesOnlyAfterHeldScore | services/scene_manager.py:82-108 | A switch back happens only after the score has held for at least the delay. |
| Scenes.SceneManager.constructor | services/scene_manager.py:13-39 | No timer and no recording, with the given scenes, threshold and delay. |
| Scenes.SceneManager.OnChange | services/scene_manager.py:59-80 | On a PPT scene nothing happens. Otherwise, including a failed query, `ppt_scenes[0]` goes on program, the timer clears and recording starts. An empty list raises. |
| Scenes.SceneManager.OnRouge | services/scene_manager.py:82-110 | The timer follows RougeStep. A switch back puts the camera on program unless it is already there, and stops recording. |
| RougeScoring.Denominator | services/rouge_service.py:40-42 | `max(1, len(s))` is at least 1, so there is never a division by zero. |
| RougeScoring.ScoreEventBounds | services/rouge_service.py:39-45 | Both published sub-scores lie in [0, 1] for any texts. The score of non-negative weights lies between 0 and their sum. |
| RougeScoring.ScoreEventAgreesWithMixing | services/rouge_service.py:34-45 | For non-empty texts the published sub-scores and score are the mixing service's ratios and score. |
| RougeScoring.RougeService.constructor | services/rouge_service.py:8-18 | Both texts start out missing, with the given weights. |
| RougeScoring.RougeService.ComputeAndPublish | services/rouge_service.py:34-47 | Publishes exactly one RougeScore event carrying the score and the two sub-scores that make it up. |
| RougeScoring.RougeService.MaybeCompute | services/rouge_service.py:28-32 | Publishes a score exactly when both texts are present and non-empty. |
| RougeScoring.RougeService.OnSlide | services/rouge_service.py:20-22 | The slide text is replaced, not extended, and then a score is published when ready. |
| RougeScoring.RougeService.OnTranscription | services/rouge_service.py:24-26 | The transcription is replaced, not extended, and then a score is published when ready. |
| Transcribing.SegmentTruth | src/automixer/services/transcription.py:64 | The truth test of the segment array raises for more than one sample. Otherwise it is true exactly for a single non-zero sample. |
| Transcribing.ProcessAudioEventSound | src/automixer/services/transcription.py:58-83 | As written, a zero sample rate raises, and so does every segment of more than one sample. An empty segment yields nothing. A transcription is produced exactly for a one-sample non-zero segment the engine transcribed, and its text is the reply with the whitespace at both ends removed. |
| Transcribing.ProcessAudioEventIntendedSound | src/automixer/services/transcription.py:58-83 | With the emptiness test the comment at line 63 intends, only a zero sample rate raises. Exactly the empty segment is skipped, and every other segment the engine transcribed yields its stripped reply. |
| Transcribing.AsWrittenRaisesOnEveryRealSegment | src/automixer/services/transcription.py:59-66 | As written, every segment of two or more samples raises, where the intended processing transcribes it. |
| Transcribing.TranscriptionService.constructor | src/automixer/services/transcription.py:21-26 | Both queues empty, and a not-yet-started thread named "transcription". |
| Transcribing.TranscriptionService.OnAudioSegment | src/automixer/services/transcription.py:28-30 | The event joins the back of the audio queue. |
| Transcribing.TranscriptionService.OnProgramChange | src/automixer/services/transcription.py:32-38 | CAMERA stops the thread and empties both queues. SLIDE starts the thread. OTHER changes nothing. |
| Transcribing.TranscriptionService.EmptyQueue | src/automixer/services/transcription.py:40-44 | Both queues end up empty. |
| Transcribing.TranscriptionService.Step | src/automixer/services/transcription.py:46-48 | Every queued transcription is dispatched FIFO, and the queue ends up empty. |
| Transcribing.TranscriptionService.RunIteration | src/automixer/services/transcription.py:50-56 | At most one audio event leaves the queue. A transcription is enqueued only when processing produced one. An exception ends the thread. |
| Microphone.AsWrittenLosesFirstSegment | src/automixer/services/mic.py:30-36 | As written, a step on a non-empty queue loses the head and dispatches nothing, while the intended step dispatches every segment. |
| Microphone.Segments | src/automixer/services/mic.py:31-36 | One AudioSegment event per queued segment, in order, carrying the stream's sample rate. |
| Microphone.MicService.constructor | src/automixer/services/mic.py:14-23 | An empty queue, and a not-yet-started thread named "mic". |
| Microphone.MicService.RunIteration | src/automixer/services/mic.py:25-28 | The segment read joins the back of the queue. |
| Microphone.MicService.StepAsWritten | src/automixer/services/mic.py:30-36 | As written: the head is taken off the queue, the missing attribute raises, and nothing is dispatched. |
| Microphone.MicService.Step | src/automixer/services/mic.py:30-36 | Corrected: the whole queue is dispatched FIFO with the stream's sample rate, and the queue ends up empty. |
| Microphone.MicService.EmptyQueue | src/automixer/services/mic.py:38-40 | The audio queue ends up empty. |
| Microphone.MicService.OnProgramChange | src/automixer/services/mic.py:42-48 | CAMERA stops the thread and empties the queue. SLIDE starts the thread. OTHER changes nothing. |
| Lifecycle.Decorate | src/automixer/services/base.py:43-54 | The bare form marks the method with no configuration. A call with exactly one callable positional argument and no keywords does not mark the method, but calls that argument with it. Every other call goes through the custom wrapper. |
| Lifecycle.Custom | src/automixer/services/base.py:17-27 | The wrapper marks the method with a configuration. It raises TypeError exactly for more than two positional options, an unknown keyword, or an option given both positionally and by keyword. |
| Lifecycle.DecorateIntended | src/automixer/services/base.py:30-40 | As the overloads advertise it: an event class is never called with the method, and the bare form behaves as written. |
| Lifecycle.PositionalEventTypeAsWritten | src/automixer/services/base.py:47-49 | As written, `@autoregister(a)` means the same as `@autoregister(event_type=a)` exactly when `a` is not an event class. `@autoregister(SomeEvent)` leaves the method unmarked. |
| Lifecycle.PositionalAndKeywordAgree | src/automixer/services/base.py:30-35 | With the advertised behaviour, the positional and keyword spellings of the event type and instance name give the same mark. |
| Lifecycle.BareUsesDefaults | src/automixer/services/base.py:66-68 | A bare mark uses the instance name "self" and configures no event type. |
| Lifecycle.EventParams | src/automixer/services/base.py:72-75 | The filter keeps exactly the parameters not named after the instance or "return". |
| Lifecycle.AsWrittenKeysByParameter | src/automixer/services/base.py:82-84 | As written, `on_camera_frame(self, event: CameraFrameEvent)` is keyed by the parameter `event`, not by CameraFrameEvent. |
| Lifecycle.EventKeySound | src/automixer/services/base.py:76-84 | With the corrected key, a handler is accepted exactly when one parameter remains and an event type is known. It is then keyed by the configured type, else by the annotation. |
| Lifecycle.EventKeyAsWrittenSound | src/automixer/services/base.py:76-84 | As written, a handler is accepted exactly when one parameter remains, annotated or not. It is keyed by the configured type, else by that parameter. |
| Lifecycle.AcceptedIsWellFormed | src/automixer/services/base.py:76-84 | For either key, an accepted handler had exactly one event parameter and a configured type is its key. Otherwise, as written, the key is the parameter; with the corrected key it is the annotation. |
| Lifecycle.RegisterSound | src/automixer/services/base.py:62-84 | For the key as written and for the corrected key: registration raises exactly when some marked handler is rejected. It registers no more handlers than members, and each handler from one accepted member. When it does not raise, every marked member is registered under its key. |
| Lifecycle.RegisterComplete | src/automixer/services/base.py:63-84 | For either key, when registration does not raise, every marked member is registered under its key ("Register all event handlers in the service"). |
| Lifecycle.RegisterStopsAtFailure | src/automixer/services/base.py:76-81 | After the first ValueError, no later member is registered. |
| Lifecycle.AsWrittenRejectsOnlyArity | src/automixer/services/base.py:76-84 | As written, registration raises exactly when a marked handler does not have exactly one event parameter. Whatever registers under the corrected key also registers as written. |
| Lifecycle.AutoregisterHandlers | src/automixer/services/base.py:62-84 | Under the key chosen (`AsWritten` is the code as it stands), the loop adds exactly Register's handlers to the bus and raises exactly when Register does. |
| Lifecycle.ServiceName | src/automixer/services/base.py:98-101 | The name is SERVICE_NAME when set, and the class name otherwise. |
| Lifecycle.LifeCycleSound | src/automixer/services/base.py:110-127 | `start` leaves the service alive and not stopping, and `stop` leaves it not alive. Both are idempotent. Stopping an alive service sets the stop flag and drops the thread. |
| Lifecycle.ThreadService.constructor | src/automixer/services/base.py:94-101 | No thread and no stop request. |
| Lifecycle.ThreadService.ShouldStop | src/automixer/services/base.py:103-104 | Reports whether a stop was requested. |
| Lifecycle.ThreadService.IsAlive | src/automixer/services/base.py:110-111 | Alive means a thread exists and is running. |
| Lifecycle.ThreadService.StartThread | src/automixer/services/base.py:113-119 | The new state is Start of the old one. |
| Lifecycle.ThreadService.StopThread | src/automixer/services/base.py:121-127 | The new state is Stop of the old one. |
| Collection.KeepMembers | src/automixer/services/collection.py:40 | The filter keeps exactly the services that pass. |
| Collection.KeepIncreasing | src/automixer/services/collection.py:40 | Filtering keeps the order. |
| Collection.CollectSound | src/automixer/services/collection.py:30-40 | The services held are exactly those given, each once, in the order camera, interaction, mic, mixing, ocr, slide, transcription. There are at most 7, and all seven give the whole list. |
| Collection.ThreadedCallsOnce | src/automixer/services/collection.py:42-50 | Start and stop calls reach each threaded service of an ordered list exactly once, and nothing else. |
| Collection.StartStopReachThreadedOnce | src/automixer/services/collection.py:42-50 | Starting or stopping the collection reaches exactly its threaded services (interaction, mic, transcription), each once. |
| Collection.Calls | src/automixer/services/collection.py:52-54 | One call per service, in list order. |
| Collection.ServiceCollection.constructor | src/automixer/services/collection.py:13-40 | Holds the given services in the fixed order, and has made no calls yet. |
| Collection.ServiceCollection.Start | src/automixer/services/collection.py:42-45 | Calls `start` on the threaded services only, in list order. |
| Collection.ServiceCollection.Stop | src/automixer/services/collection.py:47-50 | Calls `stop` on the threaded services only, in list order. |
| Collection.FirstFailure | src/automixer/services/collection.py:52-54 | The position of the first service whose step raises: every service before it passes, and the one at it raises. |
| Collection.ServiceCollection.Step | src/automixer/services/collection.py:52-54 | Steps the services in list order up to and including the first one that raises, and returns that error. With no raising step, every service is stepped once and the pass succeeds. The pass raises exactly when some service's step does. |

## Left out

- Floating point: numpy's float means and standard deviations are exact reals here. The standard deviation is compared through the variance, so no square root appears. An empty frame has numpy's nan as its mean and standard deviation, so it is never full black. Comparing an empty frame raises, because OpenCV's colour conversion in the edge detection rejects an empty image.
- Frames.FramesAreDifferent: array shapes are lengths of flat frames. numpy broadcasting of unequal shapes is modelled as the error it raises for flat frames of different lengths.
- The Sobel edge detector (`sobel.py`, OpenCV `filter2D`) is a parameter that keeps the frame's shape. Its border and saturation semantics are not modelled.
- Strings.Lower: only ASCII letters are lower-cased. Python's full Unicode case mapping is not modelled.
- Threads, `time.sleep`, thread joins and the thread pool of the ROUGE service are left out. The microphone's and the transcription service's `run` loops are modelled one pass at a time. The interaction service's `run` is modelled over a whole sequence of reads, and the stop request is taken to arrive after the last one. The thread is an abstract alive flag, and an exception in `run` ends it.
- Lifecycle.ThreadService.StopThread: `join` is modelled as the run loop having ended, not as waiting.
- The mixing console is abstract state: a program scene, a preview scene, reachability, and a log of set-program calls. The OBS websocket protocol (`interactors/obs.py`, `clients/`) is not part of this model, and set-program calls never fail.
- Event delivery by the bubus bus is not modelled. The bus records what was dispatched and which handlers were registered. The earlier generation's `publish` (core/event_bus.py:20-31), which runs each handler on a background thread, is likewise reduced to a record of published events in `LegacyEvents.LegacyBus`.
- Transcribing.SegmentTruth: an empty array is taken as false, as NumPy releases before 2.2 have it with a deprecation warning. Later releases raise ValueError there too.
- Transcribing.ProcessAudioEvent: the segment is the flat sequence of the array's samples, because only the element count decides the array's truth value. Its frame count, used for the logged duration, is not modelled. The NaN clean-up and the conversion to mono feed only the engine, which is a parameter.
- Lifecycle.Decorate: what calling an event class with the method returns is not modelled, since the event classes come from the bubus library. The method's name is then not bound to a marked handler, whatever that call returns or raises. A string given as the event type is keyed by that string, like a class by its name.
- Interaction.InteractionService.Run: the program names read are parameters, so each read is independent of the console model, which stays fixed during a run.
- OCR and speech-to-text engines and WAV encoding are external. The transcriber's reply, text or error, is a parameter of the run iteration. The microphone's read is a parameter too.
- Scenes.SceneManager.OnChange: the audio and transcription services it starts and stops are one recording flag. Its settling sleep (`onchange_delay`, 2.0 s by default) is not modelled.
- metric.py:1-46 is the same code as src/automixer/utils/text.py:1-46, so those rows stand for both files.
- RougeScoring.RougeService.ComputeAndPublish: the except branch of rouge_service.py:46-47 is not modelled. No step of the computation raises on two strings.
- Collection.ServiceCollection.Start: the services are represented by their kind. Their own `start`, `stop` and `step` are recorded in a call log rather than run. Each service's own behaviour is modelled in its own module.
- Collection.ServiceCollection.Step: each service's step outcome is a parameter. The main loop that calls `step` (src/automixer/mixer.py:18-27) is not part of this model. That loop catches only KeyboardInterrupt, so a step that raises ends the application without `stop` being called.
- The inline rule at main.py:171-173, which removes exactly three characters, belongs to the top-level script and is not part of this model. The mixing service's own `rstrip` is modelled.
- Configuration, service construction by reflection (`builder.py`, `config.py`), the camera and OCR services, and the main scripts are not part of this model.

## Findings

The service classes follow the code as written. There are two exceptions. The microphone's `Step` uses the stream's sample rate; its as-written form is `StepAsWritten`. Handler registration (`Register`, `AutoregisterHandlers`) takes the key as a parameter: `AsWritten` is the code as it stands, `Corrected` the key the comment at base.py:69 intends, and `RegisterSound` and `RegisterComplete` are proved for both. Each corrected definition is proved beside its as-written one.

| source | as written | input that shows it | evidently intended | confidence | as-written member | corrected member |
|---|---|---|---|---|---|---|
| src/automixer/services/mixing.py:85-91 | A score below the threshold returns without clearing `_threshold_crossed_at`, so the delay is measured from the first crossing ever, dips included. | Threshold 0.5 and delay 2.0, with scores 1.0 at t=0, 0.0 at t=1 and 1.0 at t=5: CAMERA is dispatched at t=5, although the score has been high only since t=5. | A dip clears the timer, as the earlier scene manager does (services/scene_manager.py:106-108), so CAMERA fires only after the score has held for longer than the delay. | medium; not executed | Mixing.AsWrittenFiresAfterDip | Mixing.FiresOnlyAfterHeldScore |
| src/automixer/services/mic.py:34 | `step` reads `self.samplerate`, which no code assigns. The queue's head has already been taken by then. | Any non-empty audio queue: the step raises AttributeError, the first segment is lost, and nothing is dispatched. The error escapes the collection's `step` (collection.py:52-54) and the main loop of src/automixer/mixer.py:18-27, which catches only KeyboardInterrupt, so the application ends without stopping its services. | Each queued segment is dispatched with the input stream's sample rate. | high; not executed | Microphone.AsWrittenLosesFirstSegment | Microphone.MicService.Step |
| src/automixer/services/base.py:82-84 | With no configured event type, the handler is registered under the inspect.Parameter object of its single parameter, not under that parameter's annotation. | `on_camera_frame(self, event: CameraFrameEvent)`, decorated bare, is keyed by the parameter `event`. | As the comment at base.py:69 says, the event type is taken from the parameter's annotation. | medium; not executed | Lifecycle.AsWrittenKeysByParameter | Lifecycle.EventKeySound |
| src/automixer/services/transcription.py:64 | `if not segment` takes the truth value of the segment. Its only producer, the microphone (src/automixer/services/mic.py:27-28), queues a numpy array, whose truth value raises ValueError for more than one element. The raise is outside the try block, so it ends the transcription thread. | Any segment of a read of two or more frames: `process_audio_event` raises and `run` stops, so nothing is ever transcribed. | Skip only an empty segment, as the comment at line 63 says. | medium; not executed | Transcribing.AsWrittenRaisesOnEveryRealSegment | Transcribing.ProcessAudioEventIntendedSound |
| src/automixer/services/base.py:47 | The bare branch is taken for any single callable positional argument. An event class is callable. | `@autoregister(CameraFrameEvent)`, the positional form the overload at base.py:30-35 advertises: the class is returned and then called with the method, and the method is never marked or registered. | `@autoregister(CameraFrameEvent)` means `@autoregister(event_type=CameraFrameEvent)`. | medium; not executed | Lifecycle.PositionalEventTypeAsWritten | Lifecycle.PositionalAndKeywordAgree |
