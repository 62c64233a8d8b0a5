/**
 * SpeechRecognitionService: the segment accumulator that turns the recognizer's cumulative
 * partial results into permanent transcript segments.
 *
 * Recognizer callbacks, the 3-second silence timer and the availability delegate are explicit
 * events, each carrying the time `now` at which its main-queue block runs. A `Timer` is known
 * by its deadline. `segmentTimer` is the deadline of the timer the service still references,
 * when that timer is live; `strayTimers` holds the deadlines of live timers that no field
 * references any more because `startSegmentTimer` overwrote the reference without invalidating
 * it. Such a timer cannot be cancelled and still finalizes the pending text when it fires.
 */
module Speech {
  import opened Wrappers
  import opened Models

  /** `segmentTimeout`, in seconds. */
  const SegmentTimeout: int := 3

  /** The confidence every finalized segment gets. */
  const DefaultConfidence: real := 0.8

  datatype SpeechRecognitionError =
    | PermissionDenied
    | RecognizerUnavailable
    | RequestCreationFailed
    | RecognitionFailed(message: string)
    | AudioEngineError(message: string)
  {
    /** `errorDescription`. */
    function Description(): string {
      match this
      case PermissionDenied => "Speech recognition permission denied"
      case RecognizerUnavailable => "Speech recognizer unavailable"
      case RequestCreationFailed => "Failed to create recognition request"
      case RecognitionFailed(msg) => "Recognition failed: " + msg
      case AudioEngineError(msg) => "Audio engine error: " + msg
    }
  }

  /** What the recognition task hands to `handleRecognitionResult(_:error:)`. */
  datatype RecognitionCallback =
    | CallbackError(description: string)
    | CallbackResult(text: string, isFinal: bool)
    | CallbackEmpty

  /** Which timer fires: the one `segmentTimer` references, or an unreferenced one. */
  datatype FiringTimer = Referenced | Stray(deadline: int)

  datatype SpeechState = SpeechState(
    isTranscribing: bool,
    currentTranscript: string,
    transcriptSegments: seq<TranscriptSegment>,
    error: Option<SpeechRecognitionError>,
    currentSegmentText: string,
    segmentStartTime: int,
    segmentTimer: Option<int>,
    strayTimers: multiset<int>,
    /** The audio tap, recognition request and recognition task are in place. */
    recognitionRunning: bool)

  /** A freshly initialised service at time `now`. */
  function InitialState(now: int): SpeechState {
    SpeechState(false, "", [], None, "", now, None, multiset{}, false)
  }

  /** `startSegmentTimer()`: schedule a new timer; a live referenced one becomes unreachable. */
  function StartSegmentTimerStep(s: SpeechState, now: int): (r: SpeechState)
    ensures r.segmentTimer == Some(now + SegmentTimeout)
    ensures r.strayTimers == s.strayTimers + (if s.segmentTimer.Some? then multiset{s.segmentTimer.value} else multiset{})
    ensures r == s.(segmentTimer := r.segmentTimer, strayTimers := r.strayTimers)
  {
    var strays := if s.segmentTimer.Some? then s.strayTimers + multiset{s.segmentTimer.value} else s.strayTimers;
    s.(segmentTimer := Some(now + SegmentTimeout), strayTimers := strays)
  }

  /** `resetSegmentTimer()`: invalidate the referenced timer, then schedule a new one. */
  function ResetSegmentTimerStep(s: SpeechState, now: int): (r: SpeechState)
    ensures r == s.(segmentTimer := Some(now + SegmentTimeout))
  {
    StartSegmentTimerStep(s.(segmentTimer := None), now)
  }

  /** The segment `finalizeCurrentSegment()` creates at time `now` with fresh id `id`. */
  function PendingSegment(s: SpeechState, now: int, id: Uuid): TranscriptSegment {
    NewSegment(id, now, s.currentSegmentText, DefaultConfidence, now - s.segmentStartTime)
  }

  /**
   * `finalizeCurrentSegment()`: empty pending text changes nothing; otherwise exactly one
   * segment holding the pending text is appended, the pending state starts over at `now`, and
   * while transcribing a new silence timer is scheduled.
   */
  function FinalizeStep(s: SpeechState, now: int, id: Uuid): (r: SpeechState)
    ensures s.currentSegmentText == "" ==> r == s
    ensures s.currentSegmentText != "" ==>
              && r.transcriptSegments == s.transcriptSegments + [PendingSegment(s, now, id)]
              && r.currentSegmentText == "" && r.segmentStartTime == now
              && r.isTranscribing == s.isTranscribing && r.error == s.error
              && r.currentTranscript == s.currentTranscript && r.recognitionRunning == s.recognitionRunning
              && r.segmentTimer == (if s.isTranscribing then Some(now + SegmentTimeout) else s.segmentTimer)
    ensures var seg := PendingSegment(s, now, id);
              && seg.text == s.currentSegmentText && seg.confidence == DefaultConfidence
              && seg.speaker == None && seg.timestamp == now && seg.duration == now - s.segmentStartTime
  {
    if s.currentSegmentText == "" then s
    else
      var appended := s.(transcriptSegments := s.transcriptSegments + [PendingSegment(s, now, id)],
                         currentSegmentText := "", segmentStartTime := now);
      if appended.isTranscribing then StartSegmentTimerStep(appended, now) else appended
  }

  /**
   * `startTranscription()`: ignored while transcribing; an unavailable recognizer only sets
   * `recognizerUnavailable`; a failing engine start sets `recognitionFailed`; a successful start
   * restarts the segment clock and the silence timer and clears `error`. The clean-up call to
   * `stopTranscription()` is always a no-op here, because the first guard has already returned
   * while transcribing.
   */
  function StartTranscriptionStep(s: SpeechState, now: int, available: bool, engineFailure: Option<string>): (r: SpeechState)
    ensures s.isTranscribing ==> r == s
    ensures !s.isTranscribing && !available ==> r == s.(error := Some(RecognizerUnavailable))
    ensures !s.isTranscribing && available && engineFailure.Some? ==>
              r == s.(error := Some(RecognitionFailed(engineFailure.value)), isTranscribing := false, recognitionRunning := false)
    ensures !s.isTranscribing && available && engineFailure.None? ==>
              && r.isTranscribing && r.recognitionRunning && r.error == None
              && r.segmentStartTime == now && r.segmentTimer == Some(now + SegmentTimeout)
    ensures r.transcriptSegments == s.transcriptSegments && r.currentSegmentText == s.currentSegmentText
    ensures r.currentTranscript == s.currentTranscript
  {
    if s.isTranscribing then s
    else if !available then s.(error := Some(RecognizerUnavailable))
    else
      match engineFailure
      case Some(description) =>
        s.(recognitionRunning := false, error := Some(RecognitionFailed(description)), isTranscribing := false)
      case None =>
        var started := StartSegmentTimerStep(s.(recognitionRunning := true, segmentStartTime := now), now);
        started.(isTranscribing := true, error := None)
  }

  /**
   * `stopTranscription()`: ignored unless transcribing; otherwise recognition is torn down, the
   * referenced timer invalidated, non-empty pending text finalized, and transcribing ends.
   * Finalizing runs while `isTranscribing` still holds, so it schedules a new silence timer.
   */
  function StopTranscriptionStep(s: SpeechState, now: int, id: Uuid): (r: SpeechState)
    ensures !s.isTranscribing ==> r == s
    ensures s.isTranscribing ==>
              && !r.isTranscribing && !r.recognitionRunning && r.currentSegmentText == ""
              && r.error == s.error && r.currentTranscript == s.currentTranscript
              && r.strayTimers == s.strayTimers
    ensures s.isTranscribing && s.currentSegmentText == "" ==>
              r.transcriptSegments == s.transcriptSegments && r.segmentTimer == None
    ensures s.isTranscribing && s.currentSegmentText != "" ==>
              && r.transcriptSegments == s.transcriptSegments + [PendingSegment(s, now, id)]
              && r.segmentTimer == Some(now + SegmentTimeout)
  {
    if !s.isTranscribing then s
    else
      var torndown := s.(recognitionRunning := false, segmentTimer := None);
      var finalized := if torndown.currentSegmentText != "" then FinalizeStep(torndown, now, id) else torndown;
      finalized.(isTranscribing := false)
  }

  /**
   * `handleRecognitionResult(_:error:)`, as its main-queue block runs: an error only sets
   * `error`; a result replaces the pending text and `currentTranscript`, restarts the silence
   * timer, and is finalized when it is final.
   */
  function HandleRecognitionStep(s: SpeechState, callback: RecognitionCallback, now: int, id: Uuid): (r: SpeechState)
    ensures callback.CallbackError? ==> r == s.(error := Some(RecognitionFailed(callback.description)))
    ensures callback.CallbackEmpty? ==> r == s
    ensures callback.CallbackResult? ==>
              && r.currentTranscript == callback.text
              && r.isTranscribing == s.isTranscribing && r.error == s.error
              && r.recognitionRunning == s.recognitionRunning
    ensures callback.CallbackResult? && !callback.isFinal ==>
              r == s.(currentTranscript := callback.text, currentSegmentText := callback.text,
                      segmentTimer := Some(now + SegmentTimeout))
    ensures callback.CallbackResult? && callback.isFinal ==>
              && r.currentSegmentText == ""
              && r.transcriptSegments == s.transcriptSegments +
                   (if callback.text == "" then [] else [PendingSegment(s.(currentSegmentText := callback.text), now, id)])
  {
    match callback
    case CallbackError(description) => s.(error := Some(RecognitionFailed(description)))
    case CallbackEmpty => s
    case CallbackResult(text, isFinal) =>
      var updated := ResetSegmentTimerStep(s.(currentTranscript := text, currentSegmentText := text), now);
      if isFinal then FinalizeStep(updated, now, id) else updated
  }

  /** Whether `timer` can fire at `now`: it is live and its deadline has passed. */
  predicate CanFire(s: SpeechState, timer: FiringTimer, now: int) {
    match timer
    case Referenced => s.segmentTimer.Some? && s.segmentTimer.value <= now
    case Stray(deadline) => deadline in s.strayTimers && deadline <= now
  }

  /** A silence timer fires: it is spent, and `finalizeCurrentSegment()` runs. */
  function SegmentTimerStep(s: SpeechState, timer: FiringTimer, now: int, id: Uuid): (r: SpeechState)
    ensures !CanFire(s, timer, now) ==> r == s
    ensures CanFire(s, timer, now) ==>
              && r.currentSegmentText == "" && r.isTranscribing == s.isTranscribing
              && r.transcriptSegments == s.transcriptSegments +
                   (if s.currentSegmentText == "" then [] else [PendingSegment(s, now, id)])
  {
    if !CanFire(s, timer, now) then s
    else
      var spent := match timer
        case Referenced => s.(segmentTimer := None)
        case Stray(deadline) => s.(strayTimers := s.strayTimers - multiset{deadline});
      FinalizeStep(spent, now, id)
  }

  /** `clearTranscript()`. */
  function ClearTranscriptStep(s: SpeechState): (r: SpeechState)
    ensures r.transcriptSegments == [] && r.currentTranscript == "" && r.currentSegmentText == ""
    ensures r == s.(transcriptSegments := [], currentTranscript := "", currentSegmentText := "")
  {
    s.(currentTranscript := "", transcriptSegments := [], currentSegmentText := "")
  }

  /** The availability delegate: losing the recognizer sets `recognizerUnavailable`, nothing else. */
  function AvailabilityStep(s: SpeechState, available: bool): (r: SpeechState)
    ensures available ==> r == s
    ensures !available ==> r == s.(error := Some(RecognizerUnavailable))
  {
    if available then s else s.(error := Some(RecognizerUnavailable))
  }

  /** `exportTranscript()`: one line per segment, joined by newlines. */
  function ExportTranscript(segments: seq<TranscriptSegment>, stamp: int -> string): string {
    TranscriptText(segments, stamp)
  }

  /** The export is empty exactly when there are no segments, and otherwise opens with the first one's line. */
  lemma ExportTranscriptOpens(segments: seq<TranscriptSegment>, stamp: int -> string)
    ensures ExportTranscript(segments, stamp) == "" <==> segments == []
    ensures segments != [] ==>
              var first := SegmentLine(segments[0], stamp);
              |first| <= |ExportTranscript(segments, stamp)| && ExportTranscript(segments, stamp)[..|first|] == first
  {
    var lines := SegmentLines(segments, stamp);
    if |lines| > 1 {
      assert Text.Join(lines, "\n") == lines[0] + "\n" + Text.Join(lines[1..], "\n");
    }
  }

  // ---------------------------------------------------------------------------------------------
  // Event traces

  datatype SpeechEvent =
    | StartEvent(now: int, available: bool, engineFailure: Option<string>)
    | StopEvent(now: int, id: Uuid)
    | RecognitionEvent(callback: RecognitionCallback, now: int, id: Uuid)
    | TimerEvent(timer: FiringTimer, now: int, id: Uuid)
    | ClearEvent
    | AvailabilityEvent(available: bool)

  function Step(s: SpeechState, e: SpeechEvent): SpeechState {
    match e
    case StartEvent(now, available, failure) => StartTranscriptionStep(s, now, available, failure)
    case StopEvent(now, id) => StopTranscriptionStep(s, now, id)
    case RecognitionEvent(callback, now, id) => HandleRecognitionStep(s, callback, now, id)
    case TimerEvent(timer, now, id) => SegmentTimerStep(s, timer, now, id)
    case ClearEvent => ClearTranscriptStep(s)
    case AvailabilityEvent(available) => AvailabilityStep(s, available)
  }

  /**
   * The non-nil value `e` assigns to `error`, which is what `$error.compactMap` passes on. An
   * assignment of nil (a successful start) passes nothing on.
   */
  function ErrorRaised(s: SpeechState, e: SpeechEvent): (r: Option<SpeechRecognitionError>)
    ensures r.Some? ==> Step(s, e).error == r
    ensures r.None? ==> Step(s, e).error == s.error || Step(s, e).error == None
  {
    match e
    case StartEvent(_, available, failure) =>
      if s.isTranscribing then None
      else if !available then Some(RecognizerUnavailable)
      else if failure.Some? then Some(RecognitionFailed(failure.value))
      else None
    case RecognitionEvent(CallbackError(description), _, _) => Some(RecognitionFailed(description))
    case AvailabilityEvent(available) => if available then None else Some(RecognizerUnavailable)
    case _ => None
  }

  /** The value `e` assigns to `currentTranscript`, which `$currentTranscript` passes on. */
  function TranscriptAssigned(e: SpeechEvent): Option<string> {
    match e
    case RecognitionEvent(CallbackResult(text, _), _, _) => Some(text)
    case ClearEvent => Some("")
    case _ => None
  }

  /** What `TranscriptAssigned` passes on is the service's `currentTranscript` after the step. */
  lemma TranscriptAssignedByStep(s: SpeechState, e: SpeechEvent)
    ensures TranscriptAssigned(e).Some? ==> Step(s, e).currentTranscript == TranscriptAssigned(e).value
    ensures TranscriptAssigned(e).None? ==> Step(s, e).currentTranscript == s.currentTranscript
  {
  }

  /**
   * The arrays `$transcriptSegments` publishes while `e` is handled: the new array when a
   * segment is appended, and the emptied array on `clearTranscript()`.
   */
  function SegmentsPublished(s: SpeechState, e: SpeechEvent): seq<seq<TranscriptSegment>> {
    if e.ClearEvent? then [[]]
    else if Step(s, e).transcriptSegments == s.transcriptSegments then []
    else [Step(s, e).transcriptSegments]
  }

  /**
   * At most one array is published per event: on `clearTranscript()` the emptied one, otherwise
   * the new array exactly when the segments changed.
   */
  lemma SegmentsPublishedOnChange(s: SpeechState, e: SpeechEvent)
    ensures var r := SegmentsPublished(s, e);
      && |r| <= 1
      && (forall i :: 0 <= i < |r| ==> r[i] == Step(s, e).transcriptSegments)
      && (!e.ClearEvent? ==> (r == [] <==> Step(s, e).transcriptSegments == s.transcriptSegments))
      && (e.ClearEvent? ==> r == [[]])
  {
  }

  function Run(s: SpeechState, events: seq<SpeechEvent>): SpeechState
    decreases |events|
  {
    if events == [] then s else Run(Step(s, events[0]), events[1..])
  }

  /** The time an event happens at; events without a time of their own happen at `t`. */
  function TimeOf(e: SpeechEvent, t: int): int {
    match e
    case StartEvent(now, _, _) => now
    case StopEvent(now, _) => now
    case RecognitionEvent(_, now, _) => now
    case TimerEvent(_, now, _) => now
    case ClearEvent => t
    case AvailabilityEvent(_) => t
  }

  /** The events happen in time order, starting no earlier than `t`. */
  predicate Chronological(events: seq<SpeechEvent>, t: int)
    decreases |events|
  {
    events == [] || (TimeOf(events[0], t) >= t && Chronological(events[1..], TimeOf(events[0], t)))
  }

  /** `a` is `b` with nothing removed from its front. */
  predicate IsPrefix<T(==)>(a: seq<T>, b: seq<T>) {
    |a| <= |b| && b[..|a|] == a
  }

  /**
   * What holds of the service at time `t`: recognition runs exactly while transcribing; every
   * segment is non-empty, has the default confidence, no speaker and a non-negative duration;
   * each segment starts no earlier than the previous one ended; the pending segment starts
   * after the last one ended and not after `t`.
   */
  predicate Inv(s: SpeechState, t: int) {
    s.recognitionRunning == s.isTranscribing && TimelineInv(s, t)
  }

  /** The part of `Inv` about the segments and the pending segment's start. */
  predicate TimelineInv(s: SpeechState, t: int) {
    var segs := s.transcriptSegments;
    && (forall i :: 0 <= i < |segs| ==>
          segs[i].text != "" && segs[i].confidence == DefaultConfidence
          && segs[i].speaker == None && segs[i].duration >= 0)
    && (forall i :: 0 < i < |segs| ==> segs[i - 1].timestamp <= segs[i].timestamp - segs[i].duration)
    && (|segs| > 0 ==> segs[|segs| - 1].timestamp <= s.segmentStartTime)
    && s.segmentStartTime <= t
  }

  lemma InitialStateInv(now: int)
    ensures Inv(InitialState(now), now)
  {
  }

  /** Finalizing at a time no earlier than `t` keeps the invariant, now at the later time. */
  lemma FinalizeKeepsInv(s: SpeechState, t: int, now: int, id: Uuid)
    requires TimelineInv(s, t) && t <= now
    ensures TimelineInv(FinalizeStep(s, now, id), now)
  {
    var r := FinalizeStep(s, now, id);
    if s.currentSegmentText != "" {
      var segs := s.transcriptSegments;
      var seg := PendingSegment(s, now, id);
      assert r.transcriptSegments == segs + [seg];
      assert seg.timestamp - seg.duration == s.segmentStartTime;
      forall i | 0 < i < |r.transcriptSegments|
        ensures r.transcriptSegments[i - 1].timestamp <= r.transcriptSegments[i].timestamp - r.transcriptSegments[i].duration
      {
        if i == |segs| {
          assert r.transcriptSegments[i - 1] == segs[|segs| - 1];
        } else {
          assert r.transcriptSegments[i - 1] == segs[i - 1] && r.transcriptSegments[i] == segs[i];
        }
      }
    }
  }

  /** `TimelineInv` only looks at the segments and the pending segment's start. */
  lemma TimelineLater(s: SpeechState, r: SpeechState, t: int, later: int)
    requires TimelineInv(s, t) && t <= later
    requires r.transcriptSegments == s.transcriptSegments
    requires s.segmentStartTime <= r.segmentStartTime <= later
    ensures TimelineInv(r, later)
  {
  }

  lemma StartKeepsInv(s: SpeechState, t: int, now: int, available: bool, failure: Option<string>)
    requires Inv(s, t) && t <= now
    ensures Inv(StartTranscriptionStep(s, now, available, failure), now)
  {
    TimelineLater(s, StartTranscriptionStep(s, now, available, failure), t, now);
  }

  lemma StopKeepsInv(s: SpeechState, t: int, now: int, id: Uuid)
    requires Inv(s, t) && t <= now
    ensures Inv(StopTranscriptionStep(s, now, id), now)
  {
    var r := StopTranscriptionStep(s, now, id);
    if s.isTranscribing {
      var torndown := s.(recognitionRunning := false, segmentTimer := None);
      TimelineLater(s, torndown, t, t);
      if torndown.currentSegmentText != "" {
        FinalizeKeepsInv(torndown, t, now, id);
        TimelineLater(FinalizeStep(torndown, now, id), r, now, now);
      } else {
        TimelineLater(torndown, r, t, now);
      }
    } else {
      TimelineLater(s, r, t, now);
    }
  }

  lemma RecognitionKeepsInv(s: SpeechState, t: int, callback: RecognitionCallback, now: int, id: Uuid)
    requires Inv(s, t) && t <= now
    ensures Inv(HandleRecognitionStep(s, callback, now, id), now)
  {
    var r := HandleRecognitionStep(s, callback, now, id);
    if callback.CallbackResult? {
      var updated := ResetSegmentTimerStep(s.(currentTranscript := callback.text, currentSegmentText := callback.text), now);
      TimelineLater(s, updated, t, t);
      if callback.isFinal {
        FinalizeKeepsInv(updated, t, now, id);
      } else {
        TimelineLater(updated, r, t, now);
      }
    } else {
      TimelineLater(s, r, t, now);
    }
  }

  lemma TimerKeepsInv(s: SpeechState, t: int, timer: FiringTimer, now: int, id: Uuid)
    requires Inv(s, t) && t <= now
    ensures Inv(SegmentTimerStep(s, timer, now, id), now)
  {
    var r := SegmentTimerStep(s, timer, now, id);
    if CanFire(s, timer, now) {
      var spent := match timer
        case Referenced => s.(segmentTimer := None)
        case Stray(deadline) => s.(strayTimers := s.strayTimers - multiset{deadline});
      TimelineLater(s, spent, t, t);
      FinalizeKeepsInv(spent, t, now, id);
    } else {
      TimelineLater(s, r, t, now);
    }
  }

  /** Every event that happens no earlier than `t` keeps the invariant. */
  lemma StepKeepsInv(s: SpeechState, e: SpeechEvent, t: int)
    requires Inv(s, t) && TimeOf(e, t) >= t
    ensures Inv(Step(s, e), TimeOf(e, t))
  {
    match e
    case StartEvent(now, available, failure) => StartKeepsInv(s, t, now, available, failure);
    case StopEvent(now, id) => StopKeepsInv(s, t, now, id);
    case RecognitionEvent(callback, now, id) => RecognitionKeepsInv(s, t, callback, now, id);
    case TimerEvent(timer, now, id) => TimerKeepsInv(s, t, timer, now, id);
    case ClearEvent =>
    case AvailabilityEvent(available) => TimelineLater(s, Step(s, e), t, t);
  }

  /** The time of the last event of a trace that starts at `t`. */
  function EndTime(events: seq<SpeechEvent>, t: int): int
    decreases |events|
  {
    if events == [] then t else EndTime(events[1..], TimeOf(events[0], t))
  }

  /** A chronological trace keeps the invariant throughout, and ends no earlier than it began. */
  lemma {:induction false} RunKeepsInv(s: SpeechState, events: seq<SpeechEvent>, t: int)
    requires Inv(s, t) && Chronological(events, t)
    ensures EndTime(events, t) >= t && Inv(Run(s, events), EndTime(events, t))
    decreases |events|
  {
    if events != [] {
      var t1 := TimeOf(events[0], t);
      StepKeepsInv(s, events[0], t);
      RunKeepsInv(Step(s, events[0]), events[1..], t1);
    }
  }

  /** Every event but `clearTranscript` keeps the segments already there and adds at most one. */
  lemma StepKeepsSegments(s: SpeechState, e: SpeechEvent)
    requires !e.ClearEvent?
    ensures IsPrefix(s.transcriptSegments, Step(s, e).transcriptSegments)
    ensures |Step(s, e).transcriptSegments| <= |s.transcriptSegments| + 1
  {
    var r := Step(s, e);
    assert r.transcriptSegments[..|s.transcriptSegments|] == s.transcriptSegments;
  }

  /** Without `clearTranscript`, a trace only ever appends segments. */
  lemma {:induction false} RunKeepsSegments(s: SpeechState, events: seq<SpeechEvent>)
    requires forall i :: 0 <= i < |events| ==> !events[i].ClearEvent?
    ensures IsPrefix(s.transcriptSegments, Run(s, events).transcriptSegments)
    ensures |Run(s, events).transcriptSegments| <= |s.transcriptSegments| + |events|
    decreases |events|
  {
    if events != [] {
      var s1 := Step(s, events[0]);
      StepKeepsSegments(s, events[0]);
      RunKeepsSegments(s1, events[1..]);
      var r := Run(s1, events[1..]);
      assert r.transcriptSegments[..|s.transcriptSegments|]
          == r.transcriptSegments[..|s1.transcriptSegments|][..|s.transcriptSegments|];
    }
  }

  /** Total recorded speech time. */
  function TotalDuration(segs: seq<TranscriptSegment>): int
    decreases |segs|
  {
    if segs == [] then 0 else TotalDuration(segs[..|segs| - 1]) + segs[|segs| - 1].duration
  }

  /**
   * Under the invariant, segment timestamps never decrease and the segments' durations add up
   * to no more than the time from the start of the first segment to the end of the last.
   */
  lemma {:induction false} SegmentsFitInElapsedTime(s: SpeechState, t: int)
    requires Inv(s, t) && |s.transcriptSegments| > 0
    ensures var segs := s.transcriptSegments;
      TotalDuration(segs) <= segs[|segs| - 1].timestamp - (segs[0].timestamp - segs[0].duration)
    ensures var segs := s.transcriptSegments;
      forall i, j :: 0 <= i <= j < |segs| ==> segs[i].timestamp <= segs[j].timestamp
  {
    DurationsFit(s.transcriptSegments);
    TimestampsOrdered(s.transcriptSegments);
  }

  /** The time-ordering part of the invariant, on its own. */
  predicate Ordered(segs: seq<TranscriptSegment>) {
    && (forall i :: 0 <= i < |segs| ==> segs[i].duration >= 0)
    && (forall i :: 0 < i < |segs| ==> segs[i - 1].timestamp <= segs[i].timestamp - segs[i].duration)
  }

  lemma {:induction false} DurationsFit(segs: seq<TranscriptSegment>)
    requires Ordered(segs) && |segs| > 0
    ensures TotalDuration(segs) <= segs[|segs| - 1].timestamp - (segs[0].timestamp - segs[0].duration)
    decreases |segs|
  {
    if |segs| > 1 {
      var init := segs[..|segs| - 1];
      assert Ordered(init);
      DurationsFit(init);
    }
  }

  lemma {:induction false} TimestampsOrdered(segs: seq<TranscriptSegment>)
    requires Ordered(segs)
    ensures forall i, j :: 0 <= i <= j < |segs| ==> segs[i].timestamp <= segs[j].timestamp
    decreases |segs|
  {
    if |segs| > 1 {
      var init := segs[..|segs| - 1];
      assert Ordered(init);
      TimestampsOrdered(init);
      forall i, j | 0 <= i <= j < |segs|
        ensures segs[i].timestamp <= segs[j].timestamp
      {
        if j == |segs| - 1 && i < j {
          assert init[i].timestamp <= init[j - 1].timestamp;
        } else if i < j {
          assert init[i].timestamp <= init[j].timestamp;
        }
      }
    }
  }

  /** Finalizing twice in a row, at any times and with any ids, emits at most one segment. */
  lemma FinalizeIdempotent(s: SpeechState, now1: int, id1: Uuid, now2: int, id2: Uuid)
    ensures FinalizeStep(FinalizeStep(s, now1, id1), now2, id2) == FinalizeStep(s, now1, id1)
  {
  }

  /**
   * A final result followed by the silence timer it scheduled emits exactly one segment for a
   * non-empty text, and none for an empty one.
   */
  lemma FinalResultThenTimer(s: SpeechState, text: string, now1: int, id1: Uuid, now2: int, id2: Uuid)
    requires now1 + SegmentTimeout <= now2
    ensures var r1 := HandleRecognitionStep(s, CallbackResult(text, true), now1, id1);
      var r2 := SegmentTimerStep(r1, Referenced, now2, id2);
      r2.transcriptSegments == r1.transcriptSegments
      && |r1.transcriptSegments| == |s.transcriptSegments| + (if text == "" then 0 else 1)
  {
  }

  /** Once stopped, timer firings emit nothing: stopping leaves no pending text. */
  lemma {:induction false} NothingAfterStop(s: SpeechState, now: int, id: Uuid, timers: seq<SpeechEvent>)
    requires forall i :: 0 <= i < |timers| ==> timers[i].TimerEvent? || timers[i].AvailabilityEvent?
    ensures var stopped := StopTranscriptionStep(s, now, id);
      s.isTranscribing ==> Run(stopped, timers).transcriptSegments == stopped.transcriptSegments
    decreases |timers|
  {
    if s.isTranscribing {
      QuietTimers(StopTranscriptionStep(s, now, id), timers);
    }
  }

  /** With no pending text, timer firings and availability changes leave the segments alone. */
  lemma {:induction false} QuietTimers(s: SpeechState, events: seq<SpeechEvent>)
    requires s.currentSegmentText == ""
    requires forall i :: 0 <= i < |events| ==> events[i].TimerEvent? || events[i].AvailabilityEvent?
    ensures Run(s, events).transcriptSegments == s.transcriptSegments
    ensures Run(s, events).currentSegmentText == ""
    decreases |events|
  {
    if events != [] {
      var s1 := Step(s, events[0]);
      assert s1.transcriptSegments == s.transcriptSegments && s1.currentSegmentText == "";
      QuietTimers(s1, events[1..]);
    }
  }

  /**
   * A recognizer callback whose main-queue block runs after `stopTranscription()` is not
   * guarded by `isTranscribing`: a final result still appends a segment after the stop.
   */
  lemma LateResultAfterStop(s: SpeechState, now: int, id: Uuid, late: int, lateId: Uuid)
    requires s.isTranscribing
    ensures var stopped := StopTranscriptionStep(s, now, id);
      var after := HandleRecognitionStep(stopped, CallbackResult("late", true), late, lateId);
      !after.isTranscribing && |after.transcriptSegments| == |stopped.transcriptSegments| + 1
  {
  }

  /**
   * A final result orphans the timer that `resetSegmentTimer()` has just scheduled. Here that
   * stray timer, due at 4, cuts the next partial result ("Next item", heard at 2) into a
   * segment after 2 seconds of silence instead of 3.
   */
  lemma StrayTimerSplitsEarly(a: Uuid, b: Uuid)
    ensures var s0 := StartTranscriptionStep(InitialState(0), 0, true, None);
      var s1 := HandleRecognitionStep(s0, CallbackResult("Hello team", true), 1, a);
      var s2 := HandleRecognitionStep(s1, CallbackResult("Next item", false), 2, a);
      && s1.strayTimers == multiset{4} && s2.segmentTimer == Some(5)
      && CanFire(s2, Stray(4), 4)
      && var s3 := SegmentTimerStep(s2, Stray(4), 4, b);
         s3.transcriptSegments == s1.transcriptSegments + [NewSegment(b, 4, "Next item", DefaultConfidence, 3)]
         && 4 - 2 < SegmentTimeout
  {
  }

  /**
   * "Standup": two partial results, silence, then a final result and a stop leave exactly the
   * two segments "Hello team" and "Let's begin", in that order.
   */
  lemma StandupScenario(a: Uuid, b: Uuid, c: Uuid)
    ensures var r := Run(InitialState(0), [
        StartEvent(0, true, None),
        RecognitionEvent(CallbackResult("Hello", false), 1, a),
        RecognitionEvent(CallbackResult("Hello team", false), 2, a),
        TimerEvent(Referenced, 5, b),
        RecognitionEvent(CallbackResult("Let's begin", true), 7, c),
        StopEvent(8, a)]);
      && |r.transcriptSegments| == 2
      && r.transcriptSegments[0].text == "Hello team"
      && r.transcriptSegments[1].text == "Let's begin"
      && !r.isTranscribing
  {
    var e0 := StartEvent(0, true, None);
    var e1 := RecognitionEvent(CallbackResult("Hello", false), 1, a);
    var e2 := RecognitionEvent(CallbackResult("Hello team", false), 2, a);
    var e3 := TimerEvent(Referenced, 5, b);
    var e4 := RecognitionEvent(CallbackResult("Let's begin", true), 7, c);
    var e5 := StopEvent(8, a);
    RunSix(InitialState(0), e0, e1, e2, e3, e4, e5);
    var s1 := Step(InitialState(0), e0);
    assert s1.isTranscribing && s1.segmentTimer == Some(3);
    var s2 := Step(s1, e1);
    var s3 := Step(s2, e2);
    assert s3.currentSegmentText == "Hello team" && s3.segmentTimer == Some(5);
    var s4 := Step(s3, e3);
    assert s4.transcriptSegments == [NewSegment(b, 5, "Hello team", DefaultConfidence, 5)];
    var s5 := Step(s4, e4);
    assert |s5.transcriptSegments| == 2 && s5.transcriptSegments[1].text == "Let's begin";
    assert s5.currentSegmentText == "" && s5.isTranscribing;
  }

  /** Running six events is taking six steps. */
  lemma RunSix(s: SpeechState, e0: SpeechEvent, e1: SpeechEvent, e2: SpeechEvent,
               e3: SpeechEvent, e4: SpeechEvent, e5: SpeechEvent)
    ensures Run(s, [e0, e1, e2, e3, e4, e5]) == Step(Step(Step(Step(Step(Step(s, e0), e1), e2), e3), e4), e5)
  {
    var s1 := Step(s, e0);
    var s2 := Step(s1, e1);
    var s3 := Step(s2, e2);
    var s4 := Step(s3, e3);
    var s5 := Step(s4, e4);
    assert [e5][1..] == [];
    assert Run(s5, [e5]) == Step(s5, e5);
    assert [e4, e5][1..] == [e5];
    assert Run(s4, [e4, e5]) == Run(s5, [e5]);
    assert [e3, e4, e5][1..] == [e4, e5];
    assert Run(s3, [e3, e4, e5]) == Run(s4, [e4, e5]);
    assert [e2, e3, e4, e5][1..] == [e3, e4, e5];
    assert Run(s2, [e2, e3, e4, e5]) == Run(s3, [e3, e4, e5]);
    assert [e1, e2, e3, e4, e5][1..] == [e2, e3, e4, e5];
    assert Run(s1, [e1, e2, e3, e4, e5]) == Run(s2, [e2, e3, e4, e5]);
    assert [e0, e1, e2, e3, e4, e5][1..] == [e1, e2, e3, e4, e5];
  }

  /** The exported transcript has one line per segment, in order. */
  lemma ExportTranscriptLines(segments: seq<TranscriptSegment>, stamp: int -> string)
    requires forall i :: 0 <= i < |segments| ==> '\n' !in SegmentLine(segments[i], stamp)
    ensures segments == [] ==> ExportTranscript(segments, stamp) == ""
    ensures segments != [] ==> Text.Split(ExportTranscript(segments, stamp), '\n') == SegmentLines(segments, stamp)
  {
    TranscriptTextLines(segments, stamp);
  }

  // ---------------------------------------------------------------------------------------------
  // The service

  class SpeechRecognitionService {
    var isTranscribing: bool
    var currentTranscript: string
    var transcriptSegments: seq<TranscriptSegment>
    var error: Option<SpeechRecognitionError>
    var currentSegmentText: string
    var segmentStartTime: int
    var segmentTimer: Option<int>
    var strayTimers: multiset<int>
    var recognitionRunning: bool

    function State(): SpeechState
      reads this
    {
      SpeechState(isTranscribing, currentTranscript, transcriptSegments, error, currentSegmentText,
                  segmentStartTime, segmentTimer, strayTimers, recognitionRunning)
    }

    /** `init(locale:)` at time `now`. */
    constructor (now: int)
      ensures State() == InitialState(now)
    {
      isTranscribing := false;
      currentTranscript := "";
      transcriptSegments := [];
      error := None;
      currentSegmentText := "";
      segmentStartTime := now;
      segmentTimer := None;
      strayTimers := multiset{};
      recognitionRunning := false;
    }

    method StartTranscription(now: int, available: bool, engineFailure: Option<string>)
      modifies this
      ensures State() == StartTranscriptionStep(old(State()), now, available, engineFailure)
    {
      if isTranscribing {
        return;
      }
      if !available {
        error := Some(RecognizerUnavailable);
        return;
      }
      var thrown := StartRecognition(now, engineFailure);
      if thrown.None? {
        isTranscribing := true;
        error := None;
      } else {
        error := Some(RecognitionFailed(thrown.value));
        isTranscribing := false;
      }
    }

    /** `startRecognition()`: throws when the audio engine does not start. */
    method StartRecognition(now: int, engineFailure: Option<string>) returns (thrown: Option<string>)
      modifies this
      ensures thrown == engineFailure
      ensures engineFailure.Some? ==> State() == old(State()).(recognitionRunning := false)
      ensures engineFailure.None? ==>
                State() == StartSegmentTimerStep(old(State()).(recognitionRunning := true, segmentStartTime := now), now)
    {
      recognitionRunning := false;
      if engineFailure.Some? {
        return engineFailure;
      }
      recognitionRunning := true;
      segmentStartTime := now;
      StartSegmentTimer(now);
      thrown := None;
    }

    method StopTranscription(now: int, id: Uuid)
      modifies this
      ensures State() == StopTranscriptionStep(old(State()), now, id)
    {
      if !isTranscribing {
        return;
      }
      recognitionRunning := false;
      segmentTimer := None;
      if currentSegmentText != "" {
        FinalizeCurrentSegment(now, id);
      }
      isTranscribing := false;
    }

    method ClearTranscript()
      modifies this
      ensures State() == ClearTranscriptStep(old(State()))
    {
      currentTranscript := "";
      transcriptSegments := [];
      currentSegmentText := "";
    }

    function ExportTranscriptText(stamp: int -> string): string
      reads this
    {
      ExportTranscript(transcriptSegments, stamp)
    }

    /** The main-queue block of the recognition task's result handler. */
    method HandleRecognitionResult(callback: RecognitionCallback, now: int, id: Uuid)
      modifies this
      ensures State() == HandleRecognitionStep(old(State()), callback, now, id)
    {
      match callback
      case CallbackError(description) =>
        error := Some(RecognitionFailed(description));
      case CallbackEmpty =>
      case CallbackResult(text, isFinal) =>
        currentTranscript := text;
        currentSegmentText := text;
        ResetSegmentTimer(now);
        if isFinal {
          FinalizeCurrentSegment(now, id);
        }
    }

    method StartSegmentTimer(now: int)
      modifies this
      ensures State() == StartSegmentTimerStep(old(State()), now)
    {
      if segmentTimer.Some? {
        strayTimers := strayTimers + multiset{segmentTimer.value};
      }
      segmentTimer := Some(now + SegmentTimeout);
    }

    method ResetSegmentTimer(now: int)
      modifies this
      ensures State() == ResetSegmentTimerStep(old(State()), now)
    {
      segmentTimer := None;
      StartSegmentTimer(now);
    }

    /** A silence timer's block runs. */
    method SegmentTimerFired(timer: FiringTimer, now: int, id: Uuid)
      requires CanFire(State(), timer, now)
      modifies this
      ensures State() == SegmentTimerStep(old(State()), timer, now, id)
    {
      match timer
      case Referenced =>
        segmentTimer := None;
        FinalizeCurrentSegment(now, id);
      case Stray(deadline) =>
        strayTimers := strayTimers - multiset{deadline};
        FinalizeCurrentSegment(now, id);
    }

    method FinalizeCurrentSegment(now: int, id: Uuid)
      modifies this
      ensures State() == FinalizeStep(old(State()), now, id)
    {
      if currentSegmentText == "" {
        return;
      }
      var segment := NewSegment(id, now, currentSegmentText, DefaultConfidence, now - segmentStartTime);
      transcriptSegments := transcriptSegments + [segment];
      currentSegmentText := "";
      segmentStartTime := now;
      if isTranscribing {
        StartSegmentTimer(now);
      }
    }

    /** `speechRecognizer(_:availabilityDidChange:)`, as its main-queue block runs. */
    method AvailabilityDidChange(available: bool)
      modifies this
      ensures State() == AvailabilityStep(old(State()), available)
    {
      if !available {
        error := Some(RecognizerUnavailable);
      }
    }
  }
}
