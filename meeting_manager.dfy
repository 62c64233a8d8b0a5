/**
 * MeetingManager: the session controller that drives one recording through the audio service,
 * the speech service and the file service.
 *
 * The Combine bindings run synchronously inside the services' property setters: a non-nil
 * audio or speech `error` becomes the manager's `error`, and every assignment to the speech
 * service's `currentTranscript` is copied into the manager's. The sink on `transcriptSegments`
 * only spawns a main-actor `Task`; the model queues the published arrays in
 * `pendingSegmentTasks` and runs each task as an event of its own. The recording timer is
 * `recordingTimer` (a live timer is referenced) plus `leakedRecordingTimers`, the live timers
 * nothing references any more because `startRecordingTimer()` overwrote the reference.
 */
module Manager {
  import opened Wrappers
  import opened Text
  import opened Models
  import opened FileNaming
  import opened FileManager
  import Audio
  import Speech
  import MeetingList

  /** `handleNewTranscriptSegment` saves when the published array has this many segments ... */
  const AutosaveSegmentCount: int := 10

  /** ... or when this many seconds have passed since the last save. */
  const AutosaveInterval: int := 30

  datatype MeetingManagerError =
    | PermissionDenied
    | StartFailed(message: string)
    | StopFailed(message: string)
    | PauseFailed(message: string)
    | ResumeFailed(message: string)
    | LoadFailed(message: string)
    | DeleteFailed(message: string)
    | SearchFailed(message: string)
    | ExportFailed(message: string)
    | AudioError(message: string)
    | SpeechError(message: string)
  {
    /** `errorDescription`. */
    function Description(): string {
      match this
      case PermissionDenied => "Permission denied for audio recording or speech recognition"
      case StartFailed(msg) => "Failed to start meeting: " + msg
      case StopFailed(msg) => "Failed to stop meeting: " + msg
      case PauseFailed(msg) => "Failed to pause meeting: " + msg
      case ResumeFailed(msg) => "Failed to resume meeting: " + msg
      case LoadFailed(msg) => "Failed to load meetings: " + msg
      case DeleteFailed(msg) => "Failed to delete meeting: " + msg
      case SearchFailed(msg) => "Failed to search: " + msg
      case ExportFailed(msg) => "Failed to export transcript: " + msg
      case AudioError(msg) => "Audio error: " + msg
      case SpeechError(msg) => "Speech recognition error: " + msg
    }
  }

  datatype ManagerState = ManagerState(
    currentMeeting: Option<Meeting>,
    error: Option<MeetingManagerError>,
    currentTranscript: string,
    recordingDuration: int,
    recordingStartTime: Option<int>,
    lastTranscriptSave: int,
    recordingTimer: bool,
    leakedRecordingTimers: nat,
    /** The arrays the segment sink received whose tasks have not run yet, oldest first. */
    pendingSegmentTasks: seq<seq<TranscriptSegment>>)

  /** The manager together with the three services it owns. */
  datatype Session = Session(
    manager: ManagerState,
    audio: Audio.AudioState,
    speech: Speech.SpeechState,
    files: Catalogue)

  /**
   * A manager created at `now`: subscribing the sink delivers the speech service's current,
   * empty array at once, so one task is already queued.
   */
  function InitialManager(now: int): ManagerState {
    ManagerState(None, None, "", 0, None, now, false, 0, [[]])
  }

  /**
   * The bindings' reaction to the speech service handling `e` in state `s`: a raised error
   * becomes `speechError`, an assignment to `currentTranscript` is copied, published arrays are
   * queued; nothing else of the manager changes.
   */
  function Bindings(m: ManagerState, s: Speech.SpeechState, e: Speech.SpeechEvent): (r: ManagerState)
    ensures var raised := Speech.ErrorRaised(s, e);
      r.error == (if raised.Some? then Some(SpeechError(raised.value.Description())) else m.error)
    ensures var copied := Speech.TranscriptAssigned(e);
      r.currentTranscript == (if copied.Some? then copied.value else m.currentTranscript)
    ensures r.pendingSegmentTasks == m.pendingSegmentTasks + Speech.SegmentsPublished(s, e)
    ensures r == m.(error := r.error, currentTranscript := r.currentTranscript, pendingSegmentTasks := r.pendingSegmentTasks)
  {
    var raised := Speech.ErrorRaised(s, e);
    var m1 := if raised.Some? then m.(error := Some(SpeechError(raised.value.Description()))) else m;
    var transcript := Speech.TranscriptAssigned(e);
    var m2 := if transcript.Some? then m1.(currentTranscript := transcript.value) else m1;
    m2.(pendingSegmentTasks := m2.pendingSegmentTasks + Speech.SegmentsPublished(s, e))
  }

  /** The speech service handles `e`, and the bindings react. */
  function ApplySpeech(ss: Session, e: Speech.SpeechEvent): (r: Session)
    ensures r.speech == Speech.Step(ss.speech, e)
    ensures r.audio == ss.audio && r.files == ss.files
    ensures r.manager == Bindings(ss.manager, ss.speech, e)
  {
    ss.(speech := Speech.Step(ss.speech, e), manager := Bindings(ss.manager, ss.speech, e))
  }

  /** `startRecordingTimer()`: a new repeating timer; the one referenced before keeps running. */
  function StartRecordingTimerStep(m: ManagerState): (r: ManagerState)
    ensures r.recordingTimer
    ensures r.leakedRecordingTimers == m.leakedRecordingTimers + (if m.recordingTimer then 1 else 0)
    ensures r.recordingDuration == m.recordingDuration && r.recordingStartTime == m.recordingStartTime
  {
    m.(recordingTimer := true, leakedRecordingTimers := if m.recordingTimer then m.leakedRecordingTimers + 1 else m.leakedRecordingTimers)
  }

  /** `stopRecordingTimer()`: the referenced timer is invalidated and the duration reset. */
  function StopRecordingTimerStep(m: ManagerState): (r: ManagerState)
    ensures !r.recordingTimer && r.recordingDuration == 0
    ensures r.leakedRecordingTimers == m.leakedRecordingTimers && r.recordingStartTime == m.recordingStartTime
  {
    m.(recordingTimer := false, recordingDuration := 0)
  }

  /** Some recording timer is live: the referenced one or a leaked one. */
  predicate RecordingTimerLive(m: ManagerState) {
    m.recordingTimer || m.leakedRecordingTimers > 0
  }

  /** A recording timer tick: the duration is measured from `recordingStartTime`. */
  function RecordingTickStep(m: ManagerState, now: int): (r: ManagerState)
    ensures !RecordingTimerLive(m) || m.recordingStartTime.None? ==> r == m
    ensures RecordingTimerLive(m) && m.recordingStartTime.Some? ==>
              r.recordingDuration == now - m.recordingStartTime.value
    ensures r == m.(recordingDuration := r.recordingDuration)
  {
    if RecordingTimerLive(m) && m.recordingStartTime.Some? then
      m.(recordingDuration := now - m.recordingStartTime.value)
    else m
  }

  /**
   * `startMeeting(title:audioSource:participants:)` at `now`, with `id` the new meeting's UUID.
   * Both permissions are needed; a throwing `startRecording` ends the attempt with `startFailed`.
   * Otherwise transcription is started, the meeting becomes current, the recording clock starts
   * and `error` is cleared, hiding any error the speech service has just raised.
   */
  function StartMeetingStep(ss: Session, documents: Url, now: int, id: Uuid, title: string,
                            audioSource: AudioSource, participants: seq<string>,
                            audioPermission: bool, speechPermission: bool,
                            audioOutcome: Audio.StartOutcome,
                            speechAvailable: bool, speechEngineFailure: Option<string>): (r: Session)
    ensures !(audioPermission && speechPermission) ==>
              r == ss.(manager := ss.manager.(error := Some(PermissionDenied)))
    ensures audioPermission && speechPermission && !ss.audio.isRecording && !audioOutcome.Started? ==>
              && r.manager == ss.manager.(error := Some(StartFailed(audioOutcome.description)))
              && r.audio == Audio.StartRecordingStep(ss.audio, AudioFileUrl(documents, id), audioOutcome)
              && !r.audio.isRecording && r.speech == ss.speech && r.files == ss.files
    ensures audioPermission && speechPermission && (ss.audio.isRecording || audioOutcome.Started?) ==>
              && r.manager.currentMeeting == Some(NewMeeting(id, now, title, audioSource, participants))
              && r.manager.recordingStartTime == Some(now)
              && r.manager.error == None
              && r.manager.recordingTimer
              && r.manager.recordingDuration == ss.manager.recordingDuration
              && r.audio.isRecording
              && r.audio == Audio.StartRecordingStep(ss.audio, AudioFileUrl(documents, id), audioOutcome)
              && r.speech == Speech.StartTranscriptionStep(ss.speech, now, speechAvailable, speechEngineFailure)
              && r.files == ss.files
    ensures audioPermission && speechPermission && (ss.audio.isRecording || audioOutcome.Started?) ==>
              var start := Speech.StartEvent(now, speechAvailable, speechEngineFailure);
              r.manager == ss.manager.(currentMeeting := Some(NewMeeting(id, now, title, audioSource, participants)),
                                       recordingStartTime := Some(now), error := None, recordingTimer := true,
                                       leakedRecordingTimers := ss.manager.leakedRecordingTimers
                                                                + (if ss.manager.recordingTimer then 1 else 0),
                                       pendingSegmentTasks := ss.manager.pendingSegmentTasks
                                                              + Speech.SegmentsPublished(ss.speech, start))
  {
    if !(audioPermission && speechPermission) then ss.(manager := ss.manager.(error := Some(PermissionDenied)))
    else
      var meeting := NewMeeting(id, now, title, audioSource, participants);
      var recording := ss.(audio := Audio.StartRecordingStep(ss.audio, AudioFileUrl(documents, meeting.id), audioOutcome));
      match Audio.StartRecordingThrows(ss.audio, audioOutcome)
      case Some(description) => recording.(manager := ss.manager.(error := Some(StartFailed(description))))
      case None =>
        var transcribing := ApplySpeech(recording, Speech.StartEvent(now, speechAvailable, speechEngineFailure));
        var m := transcribing.manager.(currentMeeting := Some(meeting), recordingStartTime := Some(now));
        transcribing.(manager := StartRecordingTimerStep(m).(error := None))
  }

  /** The segments the speech service holds once `stopTranscription()` has finalized. */
  function SegmentsAtStop(ss: Session, now: int, id: Uuid): seq<TranscriptSegment> {
    Speech.StopTranscriptionStep(ss.speech, now, id).transcriptSegments
  }

  /** The meeting `stopMeeting` writes the second time: ended, and pointing at its transcript. */
  function StoppedMeeting(meeting: Meeting, documents: Url, now: int, withTranscript: bool): (m: Meeting)
    ensures m.id == meeting.id && m.endTime == Some(now) && m.startTime == meeting.startTime
    ensures withTranscript ==> m.transcriptPath == PathString(TranscriptFileUrl(documents, meeting.id))
    ensures !withTranscript ==> m.transcriptPath == meeting.transcriptPath
    ensures m.Duration() == Some(now - meeting.startTime)
  {
    var ended := meeting.(endTime := Some(now));
    if withTranscript then ended.(transcriptPath := PathString(TranscriptFileUrl(documents, meeting.id))) else ended
  }

  /**
   * The first half of `stopMeeting()`: recording and transcription stop (finalizing pending
   * text, with `id` for the new segment) and the recording timer is stopped.
   */
  function HaltStep(ss: Session, now: int, id: Uuid): (r: Session)
    ensures r.audio == Audio.StopRecordingStep(ss.audio)
    ensures r.speech == Speech.StopTranscriptionStep(ss.speech, now, id)
    ensures r.files == ss.files
    ensures r.manager.currentMeeting == ss.manager.currentMeeting && r.manager.error == ss.manager.error
    ensures r.manager.recordingDuration == 0 && !r.manager.recordingTimer
    ensures r.manager.pendingSegmentTasks == ss.manager.pendingSegmentTasks + Speech.SegmentsPublished(ss.speech, Speech.StopEvent(now, id))
  {
    var silent := ApplySpeech(ss.(audio := Audio.StopRecordingStep(ss.audio)), Speech.StopEvent(now, id));
    silent.(manager := StopRecordingTimerStep(silent.manager))
  }

  /**
   * The writes of `stopMeeting()`: the ended meeting, then its transcript when there are
   * segments, then the meeting again with the transcript's path.
   */
  function StopSaves(c: Catalogue, meeting: Meeting, documents: Url, now: int, segments: seq<TranscriptSegment>,
                     firstSave: Option<string>, transcriptSave: Option<string>, secondSave: Option<string>): (r: Catalogue)
    ensures segments == [] ==> r.transcriptFiles == c.transcriptFiles
    ensures segments != [] && transcriptSave.None? ==>
              && meeting.id in r.transcriptFiles
              && r.transcriptFiles[meeting.id] == MeetingTranscript(meeting.id, segments, now, now)
    ensures secondSave.None? ==>
              && meeting.id in r.meetingFiles
              && r.meetingFiles[meeting.id] == StoppedMeeting(meeting, documents, now, segments != [])
  {
    var files1 := SaveMeetingStep(c, meeting.(endTime := Some(now)), firstSave);
    var files2 := if segments != [] then SaveTranscriptStep(files1, MeetingTranscript(meeting.id, segments, now, now), transcriptSave) else files1;
    SaveMeetingStep(files2, StoppedMeeting(meeting, documents, now, segments != []), secondSave)
  }

  /**
   * `stopMeeting()`: with no current meeting nothing happens. Otherwise the session is halted,
   * the meeting saved as `StopSaves` says (the three writes' outcomes are `firstSave`,
   * `transcriptSave` and `secondSave`), and the session cleared.
   */
  function StopMeetingStep(ss: Session, documents: Url, now: int, id: Uuid,
                           firstSave: Option<string>, transcriptSave: Option<string>,
                           secondSave: Option<string>): (r: Session)
    ensures ss.manager.currentMeeting.None? ==> r == ss
    ensures ss.manager.currentMeeting.Some? ==>
              && r.manager.currentMeeting == None
              && r.manager.recordingDuration == 0 && !r.manager.recordingTimer
              && r.manager.currentTranscript == ""
              && !r.audio.isRecording && !r.speech.isTranscribing
              && r.speech.transcriptSegments == [] && r.speech.currentSegmentText == ""
              && r.manager.error == ss.manager.error
              && r.files == StopSaves(ss.files, ss.manager.currentMeeting.value, documents, now,
                                      SegmentsAtStop(ss, now, id), firstSave, transcriptSave, secondSave)
              && r.manager.pendingSegmentTasks == ss.manager.pendingSegmentTasks
                   + Speech.SegmentsPublished(ss.speech, Speech.StopEvent(now, id)) + [[]]
  {
    match ss.manager.currentMeeting
    case None => ss
    case Some(meeting) =>
      var stopped := HaltStep(ss, now, id);
      var files := StopSaves(stopped.files, meeting, documents, now, stopped.speech.transcriptSegments,
                             firstSave, transcriptSave, secondSave);
      ApplySpeech(stopped.(files := files, manager := stopped.manager.(currentMeeting := None)), Speech.ClearEvent)
  }

  /**
   * `pauseMeeting()`: with a current meeting, the engine pauses, transcription stops and the
   * duration goes back to 0; the meeting, its start time and `isRecording` stay.
   */
  function PauseMeetingStep(ss: Session, now: int, id: Uuid): (r: Session)
    ensures ss.manager.currentMeeting.None? ==> r == ss
    ensures ss.manager.currentMeeting.Some? ==>
              && r.manager.currentMeeting == ss.manager.currentMeeting
              && r.manager.recordingStartTime == ss.manager.recordingStartTime
              && r.manager.recordingDuration == 0 && !r.manager.recordingTimer
              && r.audio == Audio.PauseRecordingStep(ss.audio) && r.audio.isRecording == ss.audio.isRecording
              && !r.speech.isTranscribing && r.files == ss.files
              && r.speech == Speech.StopTranscriptionStep(ss.speech, now, id)
              && r.manager.error == ss.manager.error && r.manager.currentTranscript == ss.manager.currentTranscript
              && r.manager.pendingSegmentTasks
                   == ss.manager.pendingSegmentTasks + Speech.SegmentsPublished(ss.speech, Speech.StopEvent(now, id))
              && r.manager == ss.manager.(recordingDuration := 0, recordingTimer := false,
                                          pendingSegmentTasks := r.manager.pendingSegmentTasks)
  {
    if ss.manager.currentMeeting.None? then ss
    else
      var silent := ApplySpeech(ss.(audio := Audio.PauseRecordingStep(ss.audio)), Speech.StopEvent(now, id));
      silent.(manager := StopRecordingTimerStep(silent.manager))
  }

  /**
   * `resumeMeeting()`: with a current meeting, the engine resumes, transcription starts and a
   * recording timer is started; the recording start time is not touched.
   */
  function ResumeMeetingStep(ss: Session, now: int, engineStarts: bool,
                             speechAvailable: bool, speechEngineFailure: Option<string>): (r: Session)
    ensures ss.manager.currentMeeting.None? ==> r == ss
    ensures ss.manager.currentMeeting.Some? ==>
              && r.manager.currentMeeting == ss.manager.currentMeeting
              && r.manager.recordingStartTime == ss.manager.recordingStartTime
              && r.manager.recordingDuration == ss.manager.recordingDuration
              && r.manager.recordingTimer
              && r.audio == Audio.ResumeRecordingStep(ss.audio, engineStarts)
              && r.speech == Speech.StartTranscriptionStep(ss.speech, now, speechAvailable, speechEngineFailure)
              && r.files == ss.files
    ensures ss.manager.currentMeeting.Some? ==>
              var start := Speech.StartEvent(now, speechAvailable, speechEngineFailure);
              var raised := Speech.ErrorRaised(ss.speech, start);
              && r.manager.error == (if raised.Some? then Some(SpeechError(raised.value.Description())) else ss.manager.error)
              && r.manager.leakedRecordingTimers
                   == ss.manager.leakedRecordingTimers + (if ss.manager.recordingTimer then 1 else 0)
              && r.manager.currentTranscript == ss.manager.currentTranscript
              && r.manager.pendingSegmentTasks == ss.manager.pendingSegmentTasks + Speech.SegmentsPublished(ss.speech, start)
              && r.manager == ss.manager.(error := r.manager.error, recordingTimer := true,
                                          leakedRecordingTimers := r.manager.leakedRecordingTimers,
                                          pendingSegmentTasks := r.manager.pendingSegmentTasks)
  {
    if ss.manager.currentMeeting.None? then ss
    else
      var resumed := ss.(audio := Audio.ResumeRecordingStep(ss.audio, engineStarts));
      var transcribing := ApplySpeech(resumed, Speech.StartEvent(now, speechAvailable, speechEngineFailure));
      transcribing.(manager := StartRecordingTimerStep(transcribing.manager))
  }

  /** The live transcript after a task for `segments`: their lines, after a newline if needed. */
  function LiveTranscript(current: string, segments: seq<TranscriptSegment>, stamp: int -> string): string {
    if current == "" then TranscriptText(segments, stamp)
    else current + "\n" + TranscriptText(segments, stamp)
  }

  /** The periodic-save rule of `handleNewTranscriptSegment`. */
  predicate AutosaveDue(m: ManagerState, segments: seq<TranscriptSegment>, now: int) {
    |segments| >= AutosaveSegmentCount || now - m.lastTranscriptSave >= AutosaveInterval
  }

  /** The oldest queued segment task runs and saves, if one is due, the array it was given. */
  predicate SavesOnTask(ss: Session, now: int) {
    && ss.manager.pendingSegmentTasks != []
    && ss.manager.currentMeeting.Some?
    && AutosaveDue(ss.manager, ss.manager.pendingSegmentTasks[0], now)
  }

  /**
   * The `Task` that `handleNewTranscriptSegment` spawned for the oldest queued array runs at `now`: the
   * lines of the array are added to the live transcript, and the array is saved as the current
   * meeting's transcript when a save is due. `lastTranscriptSave` moves exactly when a save is
   * attempted, whether or not the write (outcome `failure`) succeeds.
   */
  function RunSegmentTaskStep(ss: Session, now: int, stamp: int -> string, failure: Option<string>): (r: Session)
    ensures ss.manager.pendingSegmentTasks == [] ==> r == ss
    ensures ss.manager.pendingSegmentTasks != [] ==>
              && r.manager.pendingSegmentTasks == ss.manager.pendingSegmentTasks[1..]
              && r.manager.currentTranscript ==
                   LiveTranscript(ss.manager.currentTranscript, ss.manager.pendingSegmentTasks[0], stamp)
    ensures r.manager.lastTranscriptSave == (if SavesOnTask(ss, now) then now else ss.manager.lastTranscriptSave)
    ensures !SavesOnTask(ss, now) ==> r.files == ss.files
    ensures SavesOnTask(ss, now) ==>
              var meeting := ss.manager.currentMeeting.value;
              r.files == SaveTranscriptStep(ss.files,
                MeetingTranscript(meeting.id, ss.manager.pendingSegmentTasks[0], meeting.startTime, now), failure)
    ensures r.audio == ss.audio && r.speech == ss.speech
    ensures r.manager.currentMeeting == ss.manager.currentMeeting && r.manager.error == ss.manager.error
  {
    if ss.manager.pendingSegmentTasks == [] then ss
    else
      var segments := ss.manager.pendingSegmentTasks[0];
      var m := ss.manager.(pendingSegmentTasks := ss.manager.pendingSegmentTasks[1..],
                           currentTranscript := LiveTranscript(ss.manager.currentTranscript, segments, stamp));
      if AutosaveDue(ss.manager, segments, now) && ss.manager.currentMeeting.Some? then
        var meeting := ss.manager.currentMeeting.value;
        ss.(manager := m.(lastTranscriptSave := now),
            files := SaveTranscriptStep(ss.files, MeetingTranscript(meeting.id, segments, meeting.startTime, now), failure))
      else ss.(manager := m)
  }

  /**
   * `exportTranscript(for:format:)`: text and Markdown come from the file service, JSON is the
   * stored transcript encoded by `encode`. Every format yields nil without a stored transcript.
   */
  function ExportTranscriptFor(c: Catalogue, m: Meeting, format: ExportFormat, stamp: int -> string,
                               encode: MeetingTranscript -> Option<string>): (r: Option<string>)
    ensures r.Some? ==> m.id in c.transcriptFiles
    ensures format != ExportFormat.Json ==> (r.Some? <==> m.id in c.transcriptFiles)
    ensures format == ExportFormat.Text ==> r == TextExport(c, m, stamp)
    ensures format == ExportFormat.Markdown ==> r == MarkdownExport(c, m, stamp)
    ensures format == ExportFormat.Json && m.id in c.transcriptFiles ==> r == encode(c.transcriptFiles[m.id])
  {
    match format
    case Text => TextExport(c, m, stamp)
    case Markdown => MarkdownExport(c, m, stamp)
    case Json =>
      match LoadTranscriptFrom(c, m.id)
      case Some(transcript) => encode(transcript)
      case None => None
  }

  // ---------------------------------------------------------------------------------------------
  // Properties of sessions

  /**
   * What was shown stays in front of the live transcript, followed by a newline when it was not
   * empty, and the segments' lines end it.
   */
  lemma LiveTranscriptKeepsShown(current: string, segments: seq<TranscriptSegment>, stamp: int -> string)
    ensures var r := LiveTranscript(current, segments, stamp);
      |current| <= |r| && r[..|current|] == current
    ensures var r := LiveTranscript(current, segments, stamp);
      current != "" ==> |current| < |r| && r[|current|] == '\n'
    ensures var r := LiveTranscript(current, segments, stamp);
      var added := TranscriptText(segments, stamp);
      |added| <= |r| && r[|r| - |added|..] == added
  {
  }

  /**
   * Each published array adds one line per segment to the live transcript, after the old lines.
   * An empty array, published on subscription and on every clear, adds a blank last line to a
   * transcript that is not empty.
   */
  lemma LiveTranscriptLines(lines: seq<string>, segments: seq<TranscriptSegment>, stamp: int -> string)
    requires forall i :: 0 <= i < |lines| ==> '\n' !in lines[i]
    requires forall i :: 0 <= i < |segments| ==> '\n' !in SegmentLine(segments[i], stamp)
    ensures segments == [] ==>
              LiveTranscript(Join(lines, "\n"), [], stamp)
                == (if Join(lines, "\n") == "" then "" else Join(lines, "\n") + "\n")
    ensures segments == [] && Join(lines, "\n") != "" ==>
              Split(LiveTranscript(Join(lines, "\n"), segments, stamp), '\n') == lines + [""]
    ensures segments != [] && Join(lines, "\n") == "" ==>
              Split(LiveTranscript(Join(lines, "\n"), segments, stamp), '\n') == SegmentLines(segments, stamp)
    ensures segments != [] && Join(lines, "\n") != "" ==>
              Split(LiveTranscript(Join(lines, "\n"), segments, stamp), '\n') == lines + SegmentLines(segments, stamp)
  {
    var current := Join(lines, "\n");
    var added := SegmentLines(segments, stamp);
    if segments == [] {
      if current != "" {
        assert lines != [];
        JoinAppend(lines, [""], "\n");
        SplitJoin(lines + [""], '\n');
      }
    } else if current == "" {
      TranscriptTextLines(segments, stamp);
    } else {
      assert lines != [];
      JoinAppend(lines, added, "\n");
      SplitJoin(lines + added, '\n');
    }
  }

  /**
   * The sink receives the whole array each time, so the live transcript repeats every earlier
   * segment: after two appended segments it holds the first one's line twice.
   */
  lemma LiveTranscriptRepeatsSegments(first: TranscriptSegment, second: TranscriptSegment, stamp: int -> string)
    ensures var once := LiveTranscript("", [first], stamp);
      LiveTranscript(once, [first, second], stamp)
        == Join([SegmentLine(first, stamp), SegmentLine(first, stamp), SegmentLine(second, stamp)], "\n")
  {
    var l1 := SegmentLine(first, stamp);
    var l2 := SegmentLine(second, stamp);
    assert SegmentLines([first], stamp) == [l1];
    assert SegmentLines([first, second], stamp) == [l1, l2];
    JoinAppend([l1], [l1, l2], "\n");
    assert [l1] + [l1, l2] == [l1, l1, l2];
  }

  /** Without both permissions, nothing is started and the current meeting stays. */
  lemma PermissionDeniedStartsNothing(ss: Session, documents: Url, now: int, id: Uuid, title: string,
                                      audioSource: AudioSource, participants: seq<string>,
                                      audioPermission: bool, speechPermission: bool,
                                      audioOutcome: Audio.StartOutcome,
                                      speechAvailable: bool, speechEngineFailure: Option<string>)
    requires !audioPermission || !speechPermission
    ensures var r := StartMeetingStep(ss, documents, now, id, title, audioSource, participants,
                                      audioPermission, speechPermission, audioOutcome, speechAvailable, speechEngineFailure);
      && r.manager.error == Some(PermissionDenied)
      && r.manager.currentMeeting == ss.manager.currentMeeting
      && r.audio == ss.audio && r.speech == ss.speech && r.files == ss.files
  {
  }

  /**
   * Recording time after a pause: pausing resets the duration to 0, and the first tick after
   * resuming measures from the original start, so the paused time is counted.
   */
  lemma PauseResumeMeasuresFromStart(ss: Session, pauseAt: int, id: Uuid, resumeAt: int, tickAt: int,
                                     engineStarts: bool, speechAvailable: bool, speechEngineFailure: Option<string>)
    requires ss.manager.currentMeeting.Some? && ss.manager.recordingStartTime.Some?
    ensures var paused := PauseMeetingStep(ss, pauseAt, id);
      var resumed := ResumeMeetingStep(paused, resumeAt, engineStarts, speechAvailable, speechEngineFailure);
      var ticked := RecordingTickStep(resumed.manager, tickAt);
      && paused.manager.recordingDuration == 0
      && ticked.recordingDuration == tickAt - ss.manager.recordingStartTime.value
  {
  }

  /**
   * Resuming a meeting that was never paused starts a second recording timer without stopping
   * the first; after `stopMeeting` the leaked one still ticks and sets a duration again.
   */
  lemma RecordingTimerLeaks(ss: Session, documents: Url, resumeAt: int, engineStarts: bool,
                            speechAvailable: bool, speechEngineFailure: Option<string>,
                            stopAt: int, id: Uuid, tickAt: int)
    requires ss.manager.currentMeeting.Some? && ss.manager.recordingTimer
    requires ss.manager.recordingStartTime.Some?
    ensures var resumed := ResumeMeetingStep(ss, resumeAt, engineStarts, speechAvailable, speechEngineFailure);
      var stopped := StopMeetingStep(resumed, documents, stopAt, id, None, None, None);
      var ticked := RecordingTickStep(stopped.manager, tickAt);
      && resumed.manager.leakedRecordingTimers == ss.manager.leakedRecordingTimers + 1
      && stopped.manager.currentMeeting.None? && stopped.manager.recordingDuration == 0
      && ticked.recordingDuration == tickAt - ss.manager.recordingStartTime.value
  {
    var resumed := ResumeMeetingStep(ss, resumeAt, engineStarts, speechAvailable, speechEngineFailure);
    StopMeetingManager(resumed, documents, stopAt, id, None, None, None);
  }

  /**
   * What `stopMeeting()` leaves of the manager's own state: the meeting, the live transcript
   * and the duration are cleared and the referenced timer is stopped; the start time, the count
   * of leaked timers and the last autosave are kept.
   */
  lemma StopMeetingManager(ss: Session, documents: Url, now: int, id: Uuid,
                           firstSave: Option<string>, transcriptSave: Option<string>, secondSave: Option<string>)
    requires ss.manager.currentMeeting.Some?
    ensures var r := StopMeetingStep(ss, documents, now, id, firstSave, transcriptSave, secondSave);
      r.manager == ss.manager.(currentMeeting := None, currentTranscript := "", recordingDuration := 0,
                               recordingTimer := false, pendingSegmentTasks := r.manager.pendingSegmentTasks)
  {
    var stopped := HaltStep(ss, now, id);
    assert stopped.manager == ss.manager.(recordingDuration := 0, recordingTimer := false,
                                          pendingSegmentTasks := stopped.manager.pendingSegmentTasks);
  }

  /**
   * A second successful `startMeeting` is not refused: the meeting in progress stops being
   * current without having been ended or saved.
   */
  lemma SecondStartDropsCurrentMeeting(ss: Session, documents: Url, now: int, id: Uuid, title: string,
                                       audioSource: AudioSource, participants: seq<string>,
                                       speechAvailable: bool, speechEngineFailure: Option<string>)
    requires ss.manager.currentMeeting.Some? && ss.audio.isRecording
    requires ss.manager.currentMeeting.value.id != id
    ensures var r := StartMeetingStep(ss, documents, now, id, title, audioSource, participants,
                                      true, true, Audio.Started, speechAvailable, speechEngineFailure);
      && r.manager.currentMeeting.Some? && r.manager.currentMeeting.value.id == id
      && r.files == ss.files
      && r.manager.recordingTimer
      && r.manager.leakedRecordingTimers == ss.manager.leakedRecordingTimers + (if ss.manager.recordingTimer then 1 else 0)
  {
  }

  /**
   * When the meeting was not yet in the list, the first save inserts the ended meeting, and the
   * second save, finding the id, only rewrites the file: the listed entry keeps the old
   * transcript path while the file points at the transcript.
   */
  lemma StopListsMeetingWithoutTranscriptPath(ss: Session, documents: Url, now: int, id: Uuid)
    requires ss.manager.currentMeeting.Some?
    requires !MeetingList.HasId(ss.files.meetings, ss.manager.currentMeeting.value.id)
    ensures var meeting := ss.manager.currentMeeting.value;
      var r := StopMeetingStep(ss, documents, now, id, None, None, None);
      && meeting.(endTime := Some(now)) in r.files.meetings
      && r.files.meetingFiles[meeting.id] == StoppedMeeting(meeting, documents, now, SegmentsAtStop(ss, now, id) != [])
  {
    var meeting := ss.manager.currentMeeting.value;
    var ended := meeting.(endTime := Some(now));
    var segments := SegmentsAtStop(ss, now, id);
    var files1 := SaveMeetingStep(ss.files, ended, None);
    assert ended in multiset(files1.meetings);
    var files2 := if segments != [] then SaveTranscriptStep(files1, MeetingTranscript(meeting.id, segments, now, now), None) else files1;
    assert files2.meetings == files1.meetings;
    var k :| 0 <= k < |files2.meetings| && files2.meetings[k] == ended;
    assert MeetingList.HasId(files2.meetings, meeting.id);
  }

  /**
   * The tasks queued by `stopMeeting` run after it has cleared the live transcript: the one for
   * the finalized segment fills it again with the whole meeting.
   */
  lemma StopThenTaskRefillsTranscript(ss: Session, documents: Url, now: int, id: Uuid,
                                      later: int, stamp: int -> string, failure: Option<string>)
    requires ss.manager.currentMeeting.Some? && ss.manager.pendingSegmentTasks == []
    requires ss.speech.isTranscribing && ss.speech.currentSegmentText != ""
    ensures var stopped := StopMeetingStep(ss, documents, now, id, None, None, None);
      var r := RunSegmentTaskStep(stopped, later, stamp, failure);
      && stopped.manager.currentTranscript == ""
      && SegmentsAtStop(ss, now, id) != []
      && stopped.manager.pendingSegmentTasks == [SegmentsAtStop(ss, now, id), []]
      && r.manager.currentTranscript == TranscriptText(SegmentsAtStop(ss, now, id), stamp)
      && r.files == stopped.files
  {
    var segments := SegmentsAtStop(ss, now, id);
    StopQueuesFinalSegments(ss, documents, now, id);
    var stopped := StopMeetingStep(ss, documents, now, id, None, None, None);
    assert !SavesOnTask(stopped, later);
    assert LiveTranscript("", segments, stamp) == TranscriptText(segments, stamp);
  }

  /**
   * Both tasks queued by `stopMeeting` run: the first refills the live transcript, and the second,
   * for the emptied array, leaves it ending in a blank line.
   */
  lemma StopThenTasksLeaveBlankLine(ss: Session, documents: Url, now: int, id: Uuid, first: int, second: int,
                                    stamp: int -> string, failure1: Option<string>, failure2: Option<string>)
    requires ss.manager.currentMeeting.Some? && ss.manager.pendingSegmentTasks == []
    requires ss.speech.isTranscribing && ss.speech.currentSegmentText != ""
    ensures var stopped := StopMeetingStep(ss, documents, now, id, None, None, None);
      var r := RunSegmentTaskStep(RunSegmentTaskStep(stopped, first, stamp, failure1), second, stamp, failure2);
      && r.manager.currentTranscript == TranscriptText(SegmentsAtStop(ss, now, id), stamp) + "\n"
      && r.manager.pendingSegmentTasks == []
      && r.files == stopped.files
  {
    var segments := SegmentsAtStop(ss, now, id);
    StopQueuesFinalSegments(ss, documents, now, id);
    var stopped := StopMeetingStep(ss, documents, now, id, None, None, None);
    assert !SavesOnTask(stopped, first);
    var r1 := RunSegmentTaskStep(stopped, first, stamp, failure1);
    assert r1.manager.currentTranscript == TranscriptText(segments, stamp);
    assert r1.manager.pendingSegmentTasks == [[]];
    assert !SavesOnTask(r1, second);
    TranscriptTextNonEmpty(segments, stamp);
  }

  /** The text of at least one segment is not empty: every line opens with the timestamp's bracket. */
  lemma TranscriptTextNonEmpty(segments: seq<TranscriptSegment>, stamp: int -> string)
    requires segments != []
    ensures TranscriptText(segments, stamp) != ""
  {
    var lines := SegmentLines(segments, stamp);
    assert lines[0] == SegmentLine(segments[0], stamp);
    assert SegmentLine(segments[0], stamp)[0] == '[';
    if |lines| > 1 {
      JoinAppend(lines[..1], lines[1..], "\n");
      assert lines == lines[..1] + lines[1..];
    }
  }

  /** Stopping while text is pending queues the finalized array, then the emptied one. */
  lemma StopQueuesFinalSegments(ss: Session, documents: Url, now: int, id: Uuid)
    requires ss.manager.currentMeeting.Some? && ss.manager.pendingSegmentTasks == []
    requires ss.speech.isTranscribing && ss.speech.currentSegmentText != ""
    ensures var stopped := StopMeetingStep(ss, documents, now, id, None, None, None);
      && SegmentsAtStop(ss, now, id) != []
      && stopped.manager.pendingSegmentTasks == [SegmentsAtStop(ss, now, id), []]
      && stopped.manager.currentTranscript == "" && stopped.manager.currentMeeting.None?
  {
    var segments := SegmentsAtStop(ss, now, id);
    var published := Speech.SegmentsPublished(ss.speech, Speech.StopEvent(now, id));
    assert segments != [] && published == [segments];
    assert [] + [segments] + [[]] == [segments, []];
  }

  // ---------------------------------------------------------------------------------------------
  // The manager

  class MeetingManager {
    var currentMeeting: Option<Meeting>
    var error: Option<MeetingManagerError>
    var currentTranscript: string
    var recordingDuration: int
    var recordingStartTime: Option<int>
    var lastTranscriptSave: int
    var recordingTimer: bool
    var leakedRecordingTimers: nat
    var pendingSegmentTasks: seq<seq<TranscriptSegment>>

    const audioService: Audio.AudioCaptureService
    const speechService: Speech.SpeechRecognitionService
    const fileService: FileManagerService

    function Manager(): ManagerState
      reads this
    {
      ManagerState(currentMeeting, error, currentTranscript, recordingDuration, recordingStartTime,
                   lastTranscriptSave, recordingTimer, leakedRecordingTimers, pendingSegmentTasks)
    }

    function Snapshot(): Session
      reads this, audioService, speechService, fileService
    {
      Session(Manager(), audioService.State(), speechService.State(), fileService.State())
    }

    /** `isRecording`, bound to the audio service's. */
    function IsRecording(): bool
      reads audioService
    {
      audioService.isRecording
    }

    /** `isTranscribing`, bound to the speech service's. */
    function IsTranscribing(): bool
      reads speechService
    {
      speechService.isTranscribing
    }

    /**
     * `init()` at `now`: the three services are created (the file service over the given disk
     * contents) and the bindings set up.
     */
    constructor (now: int, documents: Url, directoryFailures: seq<Option<string>>,
                 storedMeetings: map<Uuid, Meeting>, storedTranscripts: map<Uuid, MeetingTranscript>,
                 listing: Listing)
      requires |directoryFailures| == 3
      ensures fresh(audioService) && fresh(speechService) && fresh(fileService)
      ensures fileService.documents == documents
      ensures Snapshot() == Session(InitialManager(now), Audio.Idle, Speech.InitialState(now),
                LoadMeetingsStep(Catalogue([], DirectoryError(directoryFailures, None), storedMeetings, storedTranscripts, map[]), listing))
    {
      audioService := new Audio.AudioCaptureService();
      speechService := new Speech.SpeechRecognitionService(now);
      fileService := new FileManagerService(documents, directoryFailures, storedMeetings, storedTranscripts, listing);
      currentMeeting := None;
      error := None;
      currentTranscript := "";
      recordingDuration := 0;
      recordingStartTime := None;
      lastTranscriptSave := now;
      recordingTimer := false;
      leakedRecordingTimers := 0;
      pendingSegmentTasks := [[]];
    }

    /** The speech service method that handles `e`. */
    method DispatchToSpeechService(e: Speech.SpeechEvent)
      requires e.TimerEvent? ==> Speech.CanFire(speechService.State(), e.timer, e.now)
      modifies speechService
      ensures speechService.State() == Speech.Step(old(speechService.State()), e)
    {
      match e {
        case StartEvent(now, available, failure) => speechService.StartTranscription(now, available, failure);
        case StopEvent(now, id) => speechService.StopTranscription(now, id);
        case RecognitionEvent(callback, now, id) => speechService.HandleRecognitionResult(callback, now, id);
        case TimerEvent(timer, now, id) => speechService.SegmentTimerFired(timer, now, id);
        case ClearEvent => speechService.ClearTranscript();
        case AvailabilityEvent(available) => speechService.AvailabilityDidChange(available);
      }
    }

    /** The speech service handles `e`; the bindings then do what `ApplySpeech` says. */
    method SpeechServiceHandles(e: Speech.SpeechEvent)
      requires e.TimerEvent? ==> Speech.CanFire(speechService.State(), e.timer, e.now)
      modifies this, speechService
      ensures Snapshot() == ApplySpeech(old(Snapshot()), e)
    {
      var before := speechService.State();
      DispatchToSpeechService(e);
      Bind(before, e);
    }

    /** The Combine bindings fire after the speech service handled `e` in state `before`. */
    method Bind(before: Speech.SpeechState, e: Speech.SpeechEvent)
      modifies this
      ensures Manager() == Bindings(old(Manager()), before, e)
    {
      var raised := Speech.ErrorRaised(before, e);
      if raised.Some? {
        error := Some(SpeechError(raised.value.Description()));
      }
      var transcript := Speech.TranscriptAssigned(e);
      if transcript.Some? {
        currentTranscript := transcript.value;
      }
      pendingSegmentTasks := pendingSegmentTasks + Speech.SegmentsPublished(before, e);
    }

    method StartMeeting(now: int, id: Uuid, title: string, audioSource: AudioSource, participants: seq<string>,
                        audioPermission: bool, speechPermission: bool, audioOutcome: Audio.StartOutcome,
                        speechAvailable: bool, speechEngineFailure: Option<string>)
      modifies this, audioService, speechService
      ensures Snapshot() == StartMeetingStep(old(Snapshot()), fileService.documents, now, id, title, audioSource,
                participants, audioPermission, speechPermission, audioOutcome, speechAvailable, speechEngineFailure)
    {
      if !(audioPermission && speechPermission) {
        error := Some(PermissionDenied);
        return;
      }
      var meeting := NewMeeting(id, now, title, audioSource, participants);
      var audioUrl := fileService.AudioFileUrlFor(meeting.id);
      var thrown := audioService.StartRecording(audioUrl, audioOutcome);
      if thrown.Some? {
        // the binding on the audio service's error, then the catch block
        error := Some(AudioError(audioService.error.value.Description()));
        error := Some(StartFailed(thrown.value));
        return;
      }
      SpeechServiceHandles(Speech.StartEvent(now, speechAvailable, speechEngineFailure));
      BeginMeeting(meeting, now);
    }

    /** The end of `startMeeting`: the meeting becomes current, the clock starts, `error` is cleared. */
    method BeginMeeting(meeting: Meeting, now: int)
      modifies this
      ensures Manager() == StartRecordingTimerStep(old(Manager()).(currentMeeting := Some(meeting),
                                                   recordingStartTime := Some(now))).(error := None)
    {
      currentMeeting := Some(meeting);
      recordingStartTime := Some(now);
      StartRecordingTimer();
      error := None;
    }

    method StopMeeting(now: int, id: Uuid, firstSave: Option<string>, transcriptSave: Option<string>,
                       secondSave: Option<string>)
      modifies this, audioService, speechService, fileService
      ensures Snapshot() == StopMeetingStep(old(Snapshot()), fileService.documents, now, id,
                                            firstSave, transcriptSave, secondSave)
    {
      if currentMeeting.None? {
        return;
      }
      var meeting := currentMeeting.value;
      Halt(now, id);
      Conclude(meeting, now, firstSave, transcriptSave, secondSave);
      SpeechServiceHandles(Speech.ClearEvent);
    }

    /** The middle of `stopMeeting()`: the meeting is saved and stops being current. */
    method Conclude(meeting: Meeting, now: int, firstSave: Option<string>, transcriptSave: Option<string>,
                    secondSave: Option<string>)
      modifies this, fileService
      ensures Snapshot() == old(Snapshot()).(
                files := StopSaves(old(fileService.State()), meeting, fileService.documents, now,
                                   speechService.transcriptSegments, firstSave, transcriptSave, secondSave),
                manager := old(Manager()).(currentMeeting := None))
    {
      SaveStoppedMeeting(meeting, now, speechService.transcriptSegments, firstSave, transcriptSave, secondSave);
      currentMeeting := None;
    }

    /** The first half of `stopMeeting()`: audio, transcription and the recording timer stop. */
    method Halt(now: int, id: Uuid)
      modifies this, audioService, speechService
      ensures Snapshot() == HaltStep(old(Snapshot()), now, id)
    {
      audioService.StopRecording();
      SpeechServiceHandles(Speech.StopEvent(now, id));
      StopRecordingTimer();
    }

    /** The writes of `stopMeeting()`, given the segments the speech service holds after stopping. */
    method SaveStoppedMeeting(meeting: Meeting, now: int, segments: seq<TranscriptSegment>,
                              firstSave: Option<string>, transcriptSave: Option<string>, secondSave: Option<string>)
      modifies fileService
      ensures fileService.State() == StopSaves(old(fileService.State()), meeting, fileService.documents, now, segments,
                                               firstSave, transcriptSave, secondSave)
    {
      fileService.SaveMeeting(meeting.(endTime := Some(now)), firstSave);
      if segments != [] {
        fileService.SaveTranscript(MeetingTranscript(meeting.id, segments, now, now), transcriptSave);
      }
      fileService.SaveMeeting(StoppedMeeting(meeting, fileService.documents, now, segments != []), secondSave);
    }

    method PauseMeeting(now: int, id: Uuid)
      modifies this, audioService, speechService
      ensures Snapshot() == PauseMeetingStep(old(Snapshot()), now, id)
    {
      if currentMeeting.None? {
        return;
      }
      audioService.PauseRecording();
      SpeechServiceHandles(Speech.StopEvent(now, id));
      StopRecordingTimer();
    }

    method ResumeMeeting(now: int, engineStarts: bool, speechAvailable: bool, speechEngineFailure: Option<string>)
      modifies this, audioService, speechService
      ensures Snapshot() == ResumeMeetingStep(old(Snapshot()), now, engineStarts, speechAvailable, speechEngineFailure)
    {
      if currentMeeting.None? {
        return;
      }
      audioService.ResumeRecording(engineStarts);
      SpeechServiceHandles(Speech.StartEvent(now, speechAvailable, speechEngineFailure));
      StartRecordingTimer();
    }

    /** The `Task` spawned by `handleNewTranscriptSegment` for the oldest queued array runs. */
    method RunSegmentTask(now: int, stamp: int -> string, failure: Option<string>)
      modifies this, fileService
      ensures Snapshot() == RunSegmentTaskStep(old(Snapshot()), now, stamp, failure)
    {
      if pendingSegmentTasks == [] {
        return;
      }
      ghost var before := Snapshot();
      var segments := pendingSegmentTasks[0];
      pendingSegmentTasks := pendingSegmentTasks[1..];
      ShowSegments(segments, stamp);
      ghost var appended := before.manager.(pendingSegmentTasks := pendingSegmentTasks,
        currentTranscript := LiveTranscript(before.manager.currentTranscript, segments, stamp));
      if |segments| >= AutosaveSegmentCount || now - lastTranscriptSave >= AutosaveInterval {
        if currentMeeting.None? {
          assert !SavesOnTask(before, now);
          return;
        }
        assert SavesOnTask(before, now);
        var transcript := MeetingTranscript(currentMeeting.value.id, segments, currentMeeting.value.startTime, now);
        fileService.SaveTranscript(transcript, failure);
        lastTranscriptSave := now;
        assert Manager() == appended.(lastTranscriptSave := now);
      } else {
        assert !SavesOnTask(before, now);
      }
    }

    /** The first half of the spawned `Task`: the lines of `segments` join the live transcript. */
    method ShowSegments(segments: seq<TranscriptSegment>, stamp: int -> string)
      modifies this
      ensures Manager() == old(Manager()).(currentTranscript := LiveTranscript(old(currentTranscript), segments, stamp))
    {
      if currentTranscript == "" {
        currentTranscript := TranscriptText(segments, stamp);
      } else {
        var newSegmentText := TranscriptText(segments, stamp);
        currentTranscript := currentTranscript + "\n" + newSegmentText;
      }
    }

    method StartRecordingTimer()
      modifies this
      ensures Manager() == StartRecordingTimerStep(old(Manager()))
    {
      if recordingTimer {
        leakedRecordingTimers := leakedRecordingTimers + 1;
      }
      recordingTimer := true;
    }

    method StopRecordingTimer()
      modifies this
      ensures Manager() == StopRecordingTimerStep(old(Manager()))
    {
      recordingTimer := false;
      recordingDuration := 0;
    }

    /** A live recording timer fires and its task runs at `now`. */
    method RecordingTimerFired(now: int)
      requires RecordingTimerLive(Manager())
      modifies this
      ensures Manager() == RecordingTickStep(old(Manager()), now)
    {
      if recordingStartTime.None? {
        return;
      }
      recordingDuration := now - recordingStartTime.value;
    }

    /** A recognizer callback's main-queue block runs. */
    method RecognitionResultArrives(callback: Speech.RecognitionCallback, now: int, id: Uuid)
      modifies this, speechService
      ensures Snapshot() == ApplySpeech(old(Snapshot()), Speech.RecognitionEvent(callback, now, id))
    {
      SpeechServiceHandles(Speech.RecognitionEvent(callback, now, id));
    }

    /** A live silence timer of the speech service fires. */
    method SegmentTimerFires(timer: Speech.FiringTimer, now: int, id: Uuid)
      requires Speech.CanFire(speechService.State(), timer, now)
      modifies this, speechService
      ensures Snapshot() == ApplySpeech(old(Snapshot()), Speech.TimerEvent(timer, now, id))
    {
      SpeechServiceHandles(Speech.TimerEvent(timer, now, id));
    }

    /** The recognizer's availability changes. */
    method AvailabilityChanges(available: bool)
      modifies this, speechService
      ensures Snapshot() == ApplySpeech(old(Snapshot()), Speech.AvailabilityEvent(available))
    {
      SpeechServiceHandles(Speech.AvailabilityEvent(available));
    }

    /** `getMeetings()`. */
    function Meetings(): seq<Meeting>
      reads fileService
    {
      fileService.meetings
    }

    /** `loadMeetings()`. */
    method LoadMeetings(listing: Listing) returns (meetings: seq<Meeting>)
      modifies fileService
      ensures fileService.State() == LoadMeetingsStep(old(fileService.State()), listing)
      ensures meetings == fileService.meetings
    {
      fileService.LoadMeetings(listing);
      meetings := fileService.meetings;
    }

    /** `deleteMeeting(_:)`. */
    method DeleteMeeting(m: Meeting, removal: Removal)
      modifies fileService
      ensures fileService.State() == DeleteMeetingStep(old(fileService.State()), m, removal)
    {
      fileService.DeleteMeeting(m, removal);
    }

    /** `searchMeetings(query:)`. */
    function SearchMeetings(query: string, contains: (string, string) -> bool): (r: seq<Meeting>)
      reads fileService
      ensures query == "" ==> r == Meetings()
      ensures forall m :: m in r <==> m in Meetings() && (query == "" || MeetingList.MeetingMatches(m, query, contains))
      ensures query != "" ==>
                forall m :: multiset(r)[m] == if MeetingList.MeetingMatches(m, query, contains) then multiset(Meetings())[m] else 0
    {
      fileService.SearchMeetingsIn(query, contains)
    }

    /** `searchTranscripts(query:)`: every meeting is searched. */
    method SearchTranscripts(query: string, contains: (string, string) -> bool) returns (results: seq<TranscriptSegment>)
      ensures results == TranscriptSearch(fileService.State(), query, None, contains)
    {
      results := fileService.SearchTranscripts(query, None, contains);
    }

    /** `exportTranscript(for:format:)`. */
    method ExportTranscript(m: Meeting, format: ExportFormat, stamp: int -> string,
                            encode: MeetingTranscript -> Option<string>) returns (exported: Option<string>)
      ensures exported == ExportTranscriptFor(fileService.State(), m, format, stamp, encode)
    {
      match format {
        case Text =>
          exported := fileService.ExportTranscriptAsText(m, stamp);
        case Markdown =>
          exported := fileService.ExportTranscriptAsMarkdown(m, stamp);
        case Json =>
          var transcript := fileService.LoadTranscript(m.id);
          if transcript.Some? {
            exported := encode(transcript.value);
          } else {
            exported := None;
          }
      }
    }

    /** `saveExportedTranscript(_:for:format:)`. */
    method SaveExportedTranscript(content: string, m: Meeting, format: ExportFormat,
                                  fileStamp: int -> string, failure: Option<string>)
      modifies fileService
      ensures fileService.State() == SaveExportedStep(old(fileService.State()), fileService.documents, content,
                                                      m, format, fileStamp, failure)
    {
      fileService.SaveExportedTranscript(content, m, format, fileStamp, failure);
    }

    /** `getTranscript(for:)`. */
    function GetTranscript(meetingId: Uuid): (t: Option<MeetingTranscript>)
      reads fileService
      ensures t.Some? <==> meetingId in fileService.transcriptFiles
      ensures t.Some? ==> t.value == fileService.transcriptFiles[meetingId]
    {
      fileService.LoadTranscript(meetingId)
    }
  }
}
