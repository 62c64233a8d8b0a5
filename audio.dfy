/**
 * AudioCaptureService: the `isRecording` flag machine around an audio engine. The engine is
 * reduced to its run state and whether the input tap is installed; creating the audio file and
 * starting the engine are platform calls whose outcome is a parameter. The audio level meter
 * (floating point) is not part of this model.
 */
module Audio {
  import opened Wrappers
  import opened FileNaming

  datatype AudioCaptureError =
    | PermissionDenied
    | RecordingFailed(message: string)
    | SystemAudioNotSupported
    | AudioEngineError(message: string)
  {
    /** `errorDescription`. */
    function Description(): string {
      match this
      case PermissionDenied => "Microphone permission denied"
      case RecordingFailed(msg) => "Recording failed: " + msg
      case SystemAudioNotSupported => "System audio capture not supported"
      case AudioEngineError(msg) => "Audio engine error: " + msg
    }
  }

  /** What the `AVAudioEngine` is doing: `isRunning` holds only in `Running`. */
  datatype EngineState = Stopped | Running | Paused

  datatype AudioState = AudioState(
    isRecording: bool,
    error: Option<AudioCaptureError>,
    engine: EngineState,
    tapInstalled: bool,
    audioFile: Option<Url>,
    recordingUrl: Option<Url>)

  /** The platform's answer to `startRecording`: which step threw, with its description. */
  datatype StartOutcome = Started | FileCreationFailed(description: string) | EngineStartFailed(description: string)

  /** A service that has never recorded. */
  const Idle := AudioState(false, None, Stopped, false, None, None)

  /**
   * The service's own consistency: the engine runs or is paused only while recording, and while
   * recording it writes to the file at the recording URL through an installed tap.
   */
  predicate Inv(a: AudioState) {
    && (a.engine != Stopped ==> a.isRecording)
    && (a.isRecording ==> a.recordingUrl.Some? && a.audioFile == a.recordingUrl && a.tapInstalled)
  }

  /**
   * `startRecording(to:)`: ignored while recording; otherwise the URL is remembered, the file is
   * created and the tap installed, and the engine started. A throwing step records
   * `recordingFailed` and leaves `isRecording` false.
   */
  function StartRecordingStep(a: AudioState, url: Url, outcome: StartOutcome): (r: AudioState)
    ensures a.isRecording ==> r == a
    ensures !a.isRecording && outcome.Started? ==>
              r.isRecording && r.error == None && r.engine == Running
              && r.audioFile == Some(url) && r.recordingUrl == Some(url)
    ensures !a.isRecording && !outcome.Started? ==>
              !r.isRecording && r.error == Some(RecordingFailed(outcome.description))
              && r.engine == a.engine && r.recordingUrl == Some(url)
    ensures !a.isRecording && outcome.FileCreationFailed? ==>
              r.audioFile == a.audioFile && r.tapInstalled == a.tapInstalled
    ensures !a.isRecording && outcome.EngineStartFailed? ==> r.audioFile == Some(url) && r.tapInstalled
  {
    if a.isRecording then a
    else
      var withUrl := a.(recordingUrl := Some(url));
      match outcome
      case FileCreationFailed(d) => withUrl.(error := Some(RecordingFailed(d)))
      case EngineStartFailed(d) =>
        withUrl.(audioFile := Some(url), tapInstalled := true, error := Some(RecordingFailed(d)))
      case Started =>
        withUrl.(audioFile := Some(url), tapInstalled := true, engine := Running, isRecording := true, error := None)
  }

  /** The error `startRecording` rethrows, as its description: the platform's own error. */
  function StartRecordingThrows(a: AudioState, outcome: StartOutcome): (thrown: Option<string>)
    ensures thrown.Some? <==> !a.isRecording && !outcome.Started?
  {
    if a.isRecording || outcome.Started? then None else Some(outcome.description)
  }

  /** `stopRecording()`: ignored unless recording; otherwise everything is released. */
  function StopRecordingStep(a: AudioState): (r: AudioState)
    ensures !a.isRecording ==> r == a
    ensures a.isRecording ==>
              && !r.isRecording && r.engine == Stopped && !r.tapInstalled
              && r.audioFile == None && r.recordingUrl == None && r.error == a.error
  {
    if !a.isRecording then a
    else a.(engine := Stopped, tapInstalled := false, audioFile := None, isRecording := false, recordingUrl := None)
  }

  /** `pauseRecording()`: pauses the engine while recording; `isRecording` stays as it is. */
  function PauseRecordingStep(a: AudioState): (r: AudioState)
    ensures r.isRecording == a.isRecording
    ensures !a.isRecording ==> r == a
    ensures a.isRecording ==> r == a.(engine := Paused)
  {
    if !a.isRecording then a else a.(engine := Paused)
  }

  /**
   * `resumeRecording()`: only when the engine is not running and `isRecording` holds; a start
   * failure is swallowed (`try?`), so only the engine state can change.
   */
  function ResumeRecordingStep(a: AudioState, engineStarts: bool): (r: AudioState)
    ensures r.isRecording == a.isRecording && r.error == a.error
    ensures (a.engine == Running || !a.isRecording) ==> r == a
    ensures a.engine != Running && a.isRecording ==> r == a.(engine := if engineStarts then Running else a.engine)
  {
    if a.engine == Running || !a.isRecording then a
    else if engineStarts then a.(engine := Running)
    else a
  }

  /** Every operation keeps the service consistent, whatever the platform answers. */
  lemma InvPreserved(a: AudioState, url: Url, outcome: StartOutcome, engineStarts: bool)
    requires Inv(a)
    ensures Inv(Idle)
    ensures Inv(StartRecordingStep(a, url, outcome))
    ensures Inv(StopRecordingStep(a))
    ensures Inv(PauseRecordingStep(a))
    ensures Inv(ResumeRecordingStep(a, engineStarts))
  {
  }

  /**
   * A recording that starts, pauses, resumes and stops ends where it began as far as recording
   * goes: not recording, engine stopped, no file and no URL, and no error.
   */
  lemma RecordingRoundTrip(url: Url)
    ensures var started := StartRecordingStep(Idle, url, Started);
      var paused := PauseRecordingStep(started);
      var resumed := ResumeRecordingStep(paused, true);
      && started.isRecording && paused.isRecording && paused.engine == Paused
      && resumed.engine == Running
      && StopRecordingStep(resumed) == Idle
  {
  }

  /**
   * When only the engine fails to start, the tap stays installed although nothing is recording:
   * the next `startRecording` installs a second tap on the same bus.
   */
  lemma FailedEngineStartLeavesTap(url: Url, description: string)
    ensures var r := StartRecordingStep(Idle, url, EngineStartFailed(description));
      !r.isRecording && r.tapInstalled && StopRecordingStep(r) == r
  {
  }

  class AudioCaptureService {
    var isRecording: bool
    var error: Option<AudioCaptureError>
    var engine: EngineState
    var tapInstalled: bool
    var audioFile: Option<Url>
    var recordingUrl: Option<Url>

    function State(): AudioState
      reads this
    {
      AudioState(isRecording, error, engine, tapInstalled, audioFile, recordingUrl)
    }

    constructor ()
      ensures State() == Idle
    {
      isRecording := false;
      error := None;
      engine := Stopped;
      tapInstalled := false;
      audioFile := None;
      recordingUrl := None;
    }

    method StartRecording(url: Url, outcome: StartOutcome) returns (thrown: Option<string>)
      modifies this
      ensures State() == StartRecordingStep(old(State()), url, outcome)
      ensures thrown == StartRecordingThrows(old(State()), outcome)
    {
      if isRecording {
        return None;
      }
      recordingUrl := Some(url);
      match outcome
      case FileCreationFailed(d) =>
        error := Some(RecordingFailed(d));
        thrown := Some(d);
      case EngineStartFailed(d) =>
        audioFile := Some(url);
        tapInstalled := true;
        error := Some(RecordingFailed(d));
        thrown := Some(d);
      case Started =>
        audioFile := Some(url);
        tapInstalled := true;
        engine := Running;
        isRecording := true;
        error := None;
        thrown := None;
    }

    method StopRecording()
      modifies this
      ensures State() == StopRecordingStep(old(State()))
    {
      if !isRecording {
        return;
      }
      engine := Stopped;
      tapInstalled := false;
      audioFile := None;
      isRecording := false;
      recordingUrl := None;
    }

    method PauseRecording()
      modifies this
      ensures State() == PauseRecordingStep(old(State()))
    {
      if !isRecording {
        return;
      }
      engine := Paused;
    }

    method ResumeRecording(engineStarts: bool)
      modifies this
      ensures State() == ResumeRecordingStep(old(State()), engineStarts)
    {
      if engine == Running || !isRecording {
        return;
      }
      if engineStarts {
        engine := Running;
      }
    }

    /** `startSystemAudioCapture()` is not implemented: it always throws. */
    method StartSystemAudioCapture() returns (thrown: AudioCaptureError)
      ensures thrown == SystemAudioNotSupported
      ensures thrown.Description() == "System audio capture not supported"
    {
      thrown := SystemAudioNotSupported;
    }
  }
}
