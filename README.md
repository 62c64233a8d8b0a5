# MeetingHelper core in Dafny

MeetingHelper is a macOS meeting recorder. A `MeetingManager` drives one meeting at a time:
it asks for microphone and speech permission, starts an `AudioCaptureService` that writes the
microphone to a file, starts a `SpeechRecognitionService` that turns recognition callbacks into
`TranscriptSegment`s (a segment closes on a final result or after three seconds of silence),
keeps a recording-duration timer, autosaves the live transcript, and on stop saves the meeting
and its transcript through `FileManagerService`. `FileManagerService` keeps the list of
meetings sorted most recent first, stores meetings and transcripts as JSON files named after
the meeting id, deletes them, searches them, and exports a transcript as plain text, Markdown
or JSON.

The model follows the program's own structure:

| module | file | models |
|---|---|---|
| `Models` | `models.dfy` | `Meeting`, `TranscriptSegment`, `MeetingTranscript`, `AudioSource`, and the transcript text built from segments |
| `FileNaming` | `file_naming.dfy` | file locations under the documents directory, `ExportFormat`, export file names, `formattedDuration` |
| `MeetingList` | `meeting_list.dfy` | the in-memory meeting list: sort by start time, lookup, removal, replacement, search filter |
| `FileManager` | `file_manager.dfy` | `FileManagerService` as a class over a `Catalogue` of its published list and its files, with each operation specified by a step function |
| `Audio` | `audio.dfy` | `AudioCaptureService` as a class over its recording flag, engine state, tap and file |
| `Speech` | `speech.dfy` | `SpeechRecognitionService` as a class; its state machine of callbacks and timers as step functions and an event trace |
| `Manager` | `meeting_manager.dfy` | `MeetingManager` as a class owning the three services, with its Combine bindings and its tasks |
| `Text`, `Sequences`, `Wrappers` | `text.dfy`, `sequences.dfy`, `wrappers.dfy` | joining and splitting strings, decimal rendering, filters and subsequences, `Option` |

Every imperative class has a pure snapshot (`State()` / `Snapshot()`); each method's `ensures`
says its new snapshot is the step function applied to the old one, and the step functions carry
the properties. Inputs the program obtains from the platform are parameters:

- The clock is an integer number of seconds (`now`).
- A new UUID is an `id` argument.
- A `DateFormatter` is a function `stamp: int -> string`.
- `localizedCaseInsensitiveContains` is a function `contains`.
- JSON encoding is a function `encode`.
- Whether a file write, a directory listing, an engine start or a permission request succeeds
  is an argument (`failure: Option<string>`, `Listing`, `StartOutcome`, booleans).
- The speech service's callbacks and timers are `SpeechEvent`s delivered one at a time.
- The tasks spawned by the manager's sink on `transcriptSegments` are queued and run one at a
  time by `RunSegmentTask`.

### Behaviour of the code that the model keeps

Where the code does something its names and comments do not lead one to expect, the model follows the code:

- `pauseMeeting` leaves `isRecording` true and does not reject a second pause. It resets
  `recordingDuration` to 0. `resumeMeeting` measures from the original start time again, so
  paused time is counted (`PauseResumeMeasuresFromStart`).
- `startMeeting` does not reject a second call while recording. The first meeting is dropped
  without being saved, and the earlier recording timer keeps ticking
  (`SecondStartDropsCurrentMeeting`, `RecordingTimerLeaks`).
- A speech engine failure during `startMeeting` is masked: the manager's `error` is cleared
  after the services start.
- Stopping the speech service finalizes the pending text, and finalizing re-arms the segment
  timer while transcription is still on. A timer that was replaced without being invalidated
  still fires and closes a segment early (`StrayTimerSplitsEarly`).
- A recognition callback that arrives after `stopTranscription` still appends a segment
  (`LateResultAfterStop`).
- The manager's live transcript appends the whole published segment array on every
  publication, so earlier segments repeat (`LiveTranscriptRepeatsSegments`).
- The tasks queued by `stopMeeting` run after it and refill the live transcript it cleared
  (`StopThenTaskRefillsTranscript`).
- The emptied array that `clearTranscript` publishes is queued like any other, and its task
  appends a newline to a non-empty live transcript, so after `stopMeeting` the transcript ends
  in a blank line (`StopThenTasksLeaveBlankLine`, `LiveTranscriptLines`).
- `stopMeeting` saves the meeting twice. Only the first save changes the in-memory list, so the
  listed meeting keeps the path it was created with instead of the transcript's path
  (`StopListsMeetingWithoutTranscriptPath`).
- The autosave time `lastTranscriptSave` advances when a save is attempted, even when the write
  fails.
- A failed engine start leaves the input tap installed (`FailedEngineStartLeavesTap`).

## Model

| member | source | states |
|---|---|---|
| Models.Meeting.Duration | MeetingHelper/Models/Meeting.swift:16-19 | a meeting has a duration exactly when it has an end time, and then it is end minus start |
| Models.Meeting.UpdateDetails | MeetingHelper/Models/Meeting.swift:43-46 | the title and the description take the new values and every other field stays |
| Models.NewMeeting | MeetingHelper/Models/Meeting.swift:21-31 | a new meeting has the given id, title, start, participants, source and description, no end, no summary, and the transcript path `meetings/<id>.json` |
| Models.SameAsIsIdentity | MeetingHelper/Models/Meeting.swift:34-40 | equality by id is an equivalence, equal meetings hash alike, and updating the details keeps a meeting equal to what it was |
| Models.NewMeetingHasNoDuration | MeetingHelper/Models/Meeting.swift:16-31 | a freshly created meeting has no duration |
| Models.NewSegment | MeetingHelper/Models/Meeting.swift:57-64 | a new segment keeps the text, timestamp, duration, confidence and speaker it is given |
| Models.NewSegmentDefaultsToNoSpeaker | MeetingHelper/Models/Meeting.swift:57 | the speaker defaults to none |
| Models.NewTranscript | MeetingHelper/Models/Meeting.swift:73-78 | a new transcript belongs to the meeting, holds the given segments, and was created and updated at the same time |
| Models.NewTranscriptDefaults | MeetingHelper/Models/Meeting.swift:73 | the segments default to none |
| Models.SegmentLines | MeetingHelper/Services/SpeechRecognitionService.swift:102-105 | one `[time] <speaker or Unknown>: text` line per segment, in order |
| Models.TranscriptTextLines | MeetingHelper/Services/SpeechRecognitionService.swift:101-107 | the exported transcript is empty for no segments, and otherwise splits at newlines back into exactly the segment lines |
| Text.PaddedRoundTrip | MeetingHelper/Services/FileManagerService.swift:381-385 | a `%02d` field is all digits and reads back as its value |
| FileNaming.EntityFileNameRoundTrip | MeetingHelper/Services/FileManagerService.swift:67 | the file name `<id>.json` gives back the id, so ids and file names correspond one to one |
| FileNaming.FileUrlsAreDistinct | MeetingHelper/Services/FileManagerService.swift:113-123 | the meeting, transcript and audio files of a meeting are three different files, and files of different meetings differ |
| FileNaming.MeetingFileIsJson | MeetingHelper/Services/FileManagerService.swift:86 | a saved meeting file passes the `.json` extension filter of `loadMeetings` |
| FileNaming.ExportFormatFromRawValue | MeetingHelper/Services/FileManagerService.swift:298-301 | a format read from a raw value has exactly that raw value |
| FileNaming.ExportFormatRawValueRoundTrip | MeetingHelper/Services/FileManagerService.swift:298-313 | every format reads back from its raw value, and its extension holds no `.` or `_` |
| FileNaming.ExportFileNameNamesFormat | MeetingHelper/Services/FileManagerService.swift:246-254 | the extension of an export file name is the format's, and it reads back as the format |
| FileNaming.ExportNeverOverwritesTranscript | MeetingHelper/Services/FileManagerService.swift:245-263 | an export file is never a transcript file |
| FileNaming.DurationPartsSplit | MeetingHelper/Services/FileManagerService.swift:376-379 | for a non-negative duration, hours, minutes and seconds recompose it, with minutes and seconds below 60 |
| FileNaming.DurationPartsOfNegative | MeetingHelper/Services/FileManagerService.swift:376-379 | the parts of a negative duration are the negated parts of its magnitude (truncating division) |
| FileNaming.FormattedDurationSigns | MeetingHelper/Services/FileManagerService.swift:375-387 | the text has a colon, and no minus sign for a non-negative interval |
| FileNaming.FormattedDurationIsJoin | MeetingHelper/Services/FileManagerService.swift:381-385 | the text is the field texts joined by `:` |
| FileNaming.DurationFieldTextsDenote | MeetingHelper/Services/FileManagerService.swift:381-385 | three fields when there are hours and two otherwise, each all digits and denoting its part |
| FileNaming.FormattedDurationRoundTrip | MeetingHelper/Services/FileManagerService.swift:375-387 | reading the fields of `formattedDuration(d)` back gives `d` for every non-negative `d` |
| Sequences.Filter | MeetingHelper/Services/FileManagerService.swift:270-274 | the kept elements are exactly those satisfying the predicate, in their order |
| Sequences.FilterCounts | MeetingHelper/Services/FileManagerService.swift:270-274 | every occurrence of a kept value stays and no occurrence of a dropped one |
| MeetingList.InsertByStart | MeetingHelper/Services/FileManagerService.swift:72-73 | inserting into a sorted list keeps it sorted, adds exactly the meeting, and keeps the others' order |
| MeetingList.SortByStartDescending | MeetingHelper/Services/FileManagerService.swift:101 | the result is sorted most recent first and is a permutation of the input |
| MeetingList.SortSortedIsIdentity | MeetingHelper/Services/FileManagerService.swift:101 | sorting a sorted list changes nothing |
| MeetingList.AppendThenSort | MeetingHelper/Services/FileManagerService.swift:72-73 | appending then sorting a sorted list inserts in place and keeps the earlier order |
| MeetingList.FirstIndexOfId | MeetingHelper/Services/FileManagerService.swift:145 | finds the first index with the id, and none exactly when no entry has it |
| MeetingList.RemoveId | MeetingHelper/Services/FileManagerService.swift:129 | no entry with the id remains, every other entry stays as often as it occurred, and order is kept |
| MeetingList.ReplaceFirst | MeetingHelper/Services/FileManagerService.swift:145-147 | only the first entry with the id is replaced; without one the list is unchanged |
| MeetingList.SearchMeetings | MeetingHelper/Services/FileManagerService.swift:267-275 | an empty query returns all meetings; otherwise exactly the meetings whose title, participants or summary contain it, each as often as listed, in list order |
| FileManager.SaveMeetingStep | MeetingHelper/Services/FileManagerService.swift:64-81 | a failed write only sets `saveFailed`; otherwise the file holds the meeting and a new id is inserted into the sorted list |
| FileManager.DecodedMeetings | MeetingHelper/Services/FileManagerService.swift:90-98 | exactly the meetings some entry decodes to; an entry that fails to read or decode is skipped |
| FileManager.JsonEntries | MeetingHelper/Services/FileManagerService.swift:85-86 | only entries whose extension is `json` are read |
| FileManager.LoadMeetingsStep | MeetingHelper/Services/FileManagerService.swift:83-108 | a failed listing only sets `loadFailed`; otherwise the list is exactly the meetings decoded from the `.json` entries, sorted most recent first |
| FileManager.DeleteMeetingStep | MeetingHelper/Services/FileManagerService.swift:110-136 | the first removal that throws sets `deleteFailed` with its message, keeping the earlier removals and skipping the later ones; otherwise the meeting and transcript files are gone and so is every list entry with its id, the other entries staying |
| FileManager.UpdateMeetingStep | MeetingHelper/Services/FileManagerService.swift:138-154 | a failed write only sets `saveFailed`; otherwise the file holds the meeting and the first list entry with its id is replaced |
| FileManager.SaveTranscriptStep | MeetingHelper/Services/FileManagerService.swift:158-169 | a failed write only sets `saveFailed`; otherwise the transcript file of the meeting holds the transcript |
| FileManager.LoadTranscriptFrom | MeetingHelper/Services/FileManagerService.swift:171-181 | a transcript is found exactly when its file is stored, and the one found is the stored transcript |
| FileManager.Updated | MeetingHelper/Services/FileManagerService.swift:390-399 | the new segments follow the old ones; the meeting and the creation date stay; the update time is `now` |
| FileManager.UpdatedComposes | MeetingHelper/Services/FileManagerService.swift:390-399 | two updates equal one with both batches, stamped with the later time |
| FileManager.UpdateTranscriptStep | MeetingHelper/Services/FileManagerService.swift:183-193 | a failed write only sets `saveFailed`; on success only the meeting's transcript file changes, to the transcript with the given segment appended and the new update time |
| FileManager.SaveExportedStep | MeetingHelper/Services/FileManagerService.swift:245-263 | on success only the export file changes, and it holds the content |
| FileManager.MeetingsToSearch | MeetingHelper/Services/FileManagerService.swift:281 | the listed meetings with the given id (none when it is not listed), every listed meeting otherwise |
| FileManager.SegmentsFoundExactly | MeetingHelper/Services/FileManagerService.swift:283-290 | a segment is found exactly when it belongs to a searched meeting's stored transcript and contains the query |
| FileManager.TranscriptSearchFinds | MeetingHelper/Services/FileManagerService.swift:277-293 | an empty query finds nothing; otherwise the results are exactly the matching segments of the searched meetings |
| FileManager.TerminatedIsJoin | MeetingHelper/Services/FileManagerService.swift:218-221 | appending each line with its newline is joining the lines with newlines plus a final one |
| FileManager.TextExport | MeetingHelper/Services/FileManagerService.swift:208-224 | there is text exactly when the meeting has a stored transcript |
| FileManager.MarkdownSegmentLines | MeetingHelper/Services/FileManagerService.swift:237-240 | one `**[time] speaker:** text` line per segment |
| FileManager.MarkdownExport | MeetingHelper/Services/FileManagerService.swift:226-243 | there is text exactly when the meeting has a stored transcript |
| FileManager.TextExportLines | MeetingHelper/Services/FileManagerService.swift:208-224 | after the header, the text export splits at newlines into exactly the segment lines and a final empty piece |
| FileManager.MarkdownExportLines | MeetingHelper/Services/FileManagerService.swift:226-243 | after the header, the Markdown export is the segment lines separated by blank lines |
| FileManager.FileManagerService.constructor | MeetingHelper/Services/FileManagerService.swift:17-33 | a failed directory creation sets `directoryCreationFailed` (the last failure wins), and the list is then loaded from the directory listing as `loadMeetings` does |
| FileManager.FileManagerService.SaveMeeting | MeetingHelper/Services/FileManagerService.swift:64-81 | the new state is `SaveMeetingStep` of the old |
| FileManager.FileManagerService.LoadMeetings | MeetingHelper/Services/FileManagerService.swift:83-108 | the new state is `LoadMeetingsStep` of the old |
| FileManager.FileManagerService.DeleteMeeting | MeetingHelper/Services/FileManagerService.swift:110-136 | the new state is `DeleteMeetingStep` of the old |
| FileManager.FileManagerService.UpdateMeeting | MeetingHelper/Services/FileManagerService.swift:138-154 | the new state is `UpdateMeetingStep` of the old |
| FileManager.FileManagerService.SaveTranscript | MeetingHelper/Services/FileManagerService.swift:158-169 | the new state is `SaveTranscriptStep` of the old |
| FileManager.FileManagerService.UpdateTranscript | MeetingHelper/Services/FileManagerService.swift:183-193 | the new state is `UpdateTranscriptStep` of the old |
| FileManager.FileManagerService.SaveExportedTranscript | MeetingHelper/Services/FileManagerService.swift:245-263 | the new state is `SaveExportedStep` of the old |
| FileManager.FileManagerService.SearchTranscripts | MeetingHelper/Services/FileManagerService.swift:277-293 | the accumulated results are the transcript search of the current files |
| FileManager.FileManagerService.ExportTranscriptAsText | MeetingHelper/Services/FileManagerService.swift:208-224 | the built text is `TextExport` of the current files |
| FileManager.FileManagerService.ExportTranscriptAsMarkdown | MeetingHelper/Services/FileManagerService.swift:226-243 | the built text is `MarkdownExport` of the current files |
| FileManager.BuildTextHeader | MeetingHelper/Services/FileManagerService.swift:211-216 | the built header is the title, date, optional duration and participants lines |
| FileManager.BuildMarkdownHeader | MeetingHelper/Services/FileManagerService.swift:229-235 | the built header is the Markdown title, date, optional duration and participants lines |
| FileManager.AppendTerminated | MeetingHelper/Services/FileManagerService.swift:218-221 | the loop appends every line followed by a newline |
| FileManager.DecodeEntries | MeetingHelper/Services/FileManagerService.swift:90-98 | the loop collects the meetings that decode, in listing order |
| Audio.StartRecordingStep | MeetingHelper/Services/AudioCaptureService.swift:30-44 | ignored while recording; success starts the engine on the file at the URL; a throw sets `recordingFailed` and leaves recording off |
| Audio.StartRecordingThrows | MeetingHelper/Services/AudioCaptureService.swift:40-43 | `startRecording` rethrows exactly when it was not recording and a platform step failed |
| Audio.StopRecordingStep | MeetingHelper/Services/AudioCaptureService.swift:46-54 | ignored unless recording; otherwise engine stopped, tap removed, file and URL released |
| Audio.PauseRecordingStep | MeetingHelper/Services/AudioCaptureService.swift:56-59 | only the engine pauses; `isRecording` is unchanged |
| Audio.ResumeRecordingStep | MeetingHelper/Services/AudioCaptureService.swift:61-64 | restarts a stopped or paused engine while recording; a failure is swallowed |
| Audio.InvPreserved | MeetingHelper/Services/AudioCaptureService.swift:30-64 | every operation keeps the engine off unless recording, and a recording writes through a tap to its URL |
| Audio.RecordingRoundTrip | MeetingHelper/Services/AudioCaptureService.swift:30-64 | start, pause, resume and stop return the service to idle |
| Audio.FailedEngineStartLeavesTap | MeetingHelper/Services/AudioCaptureService.swift:36-43 | after a failed engine start the tap stays installed and `stopRecording` does not remove it |
| Audio.AudioCaptureService.constructor | MeetingHelper/Services/AudioCaptureService.swift:6-12 | the service starts idle |
| Audio.AudioCaptureService.StartRecording | MeetingHelper/Services/AudioCaptureService.swift:30-44 | the new state is `StartRecordingStep` of the old and the thrown error is `StartRecordingThrows` |
| Audio.AudioCaptureService.StopRecording | MeetingHelper/Services/AudioCaptureService.swift:46-54 | the new state is `StopRecordingStep` of the old |
| Audio.AudioCaptureService.PauseRecording | MeetingHelper/Services/AudioCaptureService.swift:56-59 | the new state is `PauseRecordingStep` of the old |
| Audio.AudioCaptureService.ResumeRecording | MeetingHelper/Services/AudioCaptureService.swift:61-64 | the new state is `ResumeRecordingStep` of the old |
| Audio.AudioCaptureService.StartSystemAudioCapture | MeetingHelper/Services/AudioCaptureService.swift:105-109 | always throws `systemAudioNotSupported` |
| Speech.StartSegmentTimerStep | MeetingHelper/Services/SpeechRecognitionService.swift:198-202 | the segment timer is due three seconds from now; a replaced timer stays live |
| Speech.ResetSegmentTimerStep | MeetingHelper/Services/SpeechRecognitionService.swift:204-207 | the old timer is cancelled and a new one is due three seconds from now |
| Speech.FinalizeStep | MeetingHelper/Services/SpeechRecognitionService.swift:209-230 | no pending text changes nothing; otherwise one segment with the text, confidence 0.8, timestamp `now` (its creation time) and duration `now` minus the segment start is appended, the text cleared, and the timer re-armed while transcribing |
| Speech.StartTranscriptionStep | MeetingHelper/Services/SpeechRecognitionService.swift:37-58 | ignored while transcribing; an unavailable recognizer only sets the error; an engine failure sets `recognitionFailed` and leaves transcription off; success starts transcribing with a timer and no error |
| Speech.StopTranscriptionStep | MeetingHelper/Services/SpeechRecognitionService.swift:60-88 | ignored unless transcribing; otherwise recognition stops, the pending text is finalized and transcription is off |
| Speech.HandleRecognitionStep | MeetingHelper/Services/SpeechRecognitionService.swift:173-196 | an error only sets `recognitionFailed`; an empty result changes nothing; a result replaces the pending and current text and resets the timer, and a final one closes the segment |
| Speech.SegmentTimerStep | MeetingHelper/Services/SpeechRecognitionService.swift:198-202 | a firing timer closes the pending segment and is no longer live |
| Speech.ClearTranscriptStep | MeetingHelper/Services/SpeechRecognitionService.swift:95-99 | the text and the segments are emptied and nothing else changes |
| Speech.AvailabilityStep | MeetingHelper/Services/SpeechRecognitionService.swift:274-280 | the recognizer becoming unavailable sets `recognizerUnavailable`; becoming available changes nothing |
| Speech.ErrorRaised | MeetingHelper/Services/MeetingManager.swift:57-61 | the non-nil error a step assigns, which the manager copies, is the service's error afterwards; otherwise the error is kept or cleared |
| Speech.TranscriptAssignedByStep | MeetingHelper/Services/MeetingManager.swift:53-55 | the text a step assigns to `currentTranscript`, which the manager copies, is the service's afterwards; other steps leave it unchanged |
| Speech.SegmentsPublishedOnChange | MeetingHelper/Services/MeetingManager.swift:64-68 | at most one array per event: the emptied one on clear, otherwise the new array exactly when the segments changed |
| Speech.InitialStateInv | MeetingHelper/Services/SpeechRecognitionService.swift:17-35 | a new service satisfies the invariant |
| Speech.FinalizeKeepsInv | MeetingHelper/Services/SpeechRecognitionService.swift:209-230 | finalizing at a later time keeps every segment non-empty, with confidence 0.8, no speaker and a non-negative duration, each starting after the previous one ended |
| Speech.StepKeepsInv | MeetingHelper/Services/SpeechRecognitionService.swift:37-230 | every callback, timer and call keeps the invariant when time does not go backwards |
| Speech.RunKeepsInv | MeetingHelper/Services/SpeechRecognitionService.swift:37-230 | any chronological sequence of events keeps the invariant |
| Speech.StepKeepsSegments | MeetingHelper/Services/SpeechRecognitionService.swift:219 | no event except a clear removes or changes a segment |
| Speech.RunKeepsSegments | MeetingHelper/Services/SpeechRecognitionService.swift:219 | without a clear, the segments before a run are a prefix of those after it |
| Speech.SegmentsFitInElapsedTime | MeetingHelper/Services/SpeechRecognitionService.swift:212-223 | the segments' durations add up to no more than the time they span, and their timestamps are ordered |
| Speech.FinalizeIdempotent | MeetingHelper/Services/SpeechRecognitionService.swift:209-210 | finalizing twice in a row is finalizing once |
| Speech.FinalResultThenTimer | MeetingHelper/Services/SpeechRecognitionService.swift:192-201 | a final result closes its segment, and the timer that follows adds nothing |
| Speech.NothingAfterStop | MeetingHelper/Services/SpeechRecognitionService.swift:60-88 | after a stop, timer firings and availability changes add no segment |
| Speech.LateResultAfterStop | MeetingHelper/Services/SpeechRecognitionService.swift:173-196 | a final result delivered after stop still appends a segment |
| Speech.StrayTimerSplitsEarly | MeetingHelper/Services/SpeechRecognitionService.swift:198-207 | a timer orphaned by a final result still fires and closes the next segment after two seconds of silence instead of three |
| Speech.StandupScenario | MeetingHelper/Services/SpeechRecognitionService.swift:173-230 | partial results, a final result and a silence timeout produce exactly the two expected segments |
| Speech.ExportTranscriptOpens | MeetingHelper/Services/SpeechRecognitionService.swift:101-107 | empty exactly when there are no segments, otherwise opening with the first segment's line |
| Speech.ExportTranscriptLines | MeetingHelper/Services/SpeechRecognitionService.swift:101-107 | the export splits at newlines into one line per segment |
| Speech.SpeechRecognitionService.constructor | MeetingHelper/Services/SpeechRecognitionService.swift:17-35 | the service starts with nothing transcribed and no timer |
| Speech.SpeechRecognitionService.StartTranscription | MeetingHelper/Services/SpeechRecognitionService.swift:37-58 | the new state is `StartTranscriptionStep` of the old |
| Speech.SpeechRecognitionService.StartRecognition | MeetingHelper/Services/SpeechRecognitionService.swift:133-171 | it throws exactly the engine failure; otherwise recognition runs, the segment clock restarts now and a silence timer is started |
| Speech.SpeechRecognitionService.StopTranscription | MeetingHelper/Services/SpeechRecognitionService.swift:60-88 | the new state is `StopTranscriptionStep` of the old |
| Speech.SpeechRecognitionService.ClearTranscript | MeetingHelper/Services/SpeechRecognitionService.swift:95-99 | the new state is `ClearTranscriptStep` of the old |
| Speech.SpeechRecognitionService.HandleRecognitionResult | MeetingHelper/Services/SpeechRecognitionService.swift:173-196 | the new state is `HandleRecognitionStep` of the old |
| Speech.SpeechRecognitionService.StartSegmentTimer | MeetingHelper/Services/SpeechRecognitionService.swift:198-202 | the new state is `StartSegmentTimerStep` of the old |
| Speech.SpeechRecognitionService.ResetSegmentTimer | MeetingHelper/Services/SpeechRecognitionService.swift:204-207 | the new state is `ResetSegmentTimerStep` of the old |
| Speech.SpeechRecognitionService.SegmentTimerFired | MeetingHelper/Services/SpeechRecognitionService.swift:199-201 | the new state is `SegmentTimerStep` of the old |
| Speech.SpeechRecognitionService.FinalizeCurrentSegment | MeetingHelper/Services/SpeechRecognitionService.swift:209-230 | the new state is `FinalizeStep` of the old |
| Speech.SpeechRecognitionService.AvailabilityDidChange | MeetingHelper/Services/SpeechRecognitionService.swift:274-280 | the new state is `AvailabilityStep` of the old |
| Manager.Bindings | MeetingHelper/Services/MeetingManager.swift:48-68 | after a speech step the manager's error is `speechError` of the raised error (else unchanged), its transcript is the one the step assigns (else unchanged), the published arrays are queued behind the pending ones, and nothing else changes |
| Manager.ApplySpeech | MeetingHelper/Services/MeetingManager.swift:48-68 | a speech step moves the speech service by `Step`, leaves audio and files alone and changes the manager exactly as `Bindings` says |
| Manager.StartRecordingTimerStep | MeetingHelper/Services/MeetingManager.swift:199-206 | a timer is live afterwards; a previous one becomes leaked |
| Manager.StopRecordingTimerStep | MeetingHelper/Services/MeetingManager.swift:208-212 | the referenced timer is cancelled; leaked ones stay |
| Manager.RecordingTickStep | MeetingHelper/Services/MeetingManager.swift:200-205 | a tick sets the duration to the time since the start, when there is a start |
| Manager.StartMeetingStep | MeetingHelper/Services/MeetingManager.swift:72-107 | a denied permission only sets `permissionDenied`; an audio failure sets `startFailed` and leaves audio as `StartRecordingStep` says; otherwise the new meeting is current from `now`, audio records as `StartRecordingStep` says, speech starts, the error is cleared, a recording timer starts (leaking the one referenced before), the speech service's publications are queued and nothing else in the manager changes |
| Manager.StoppedMeeting | MeetingHelper/Services/MeetingManager.swift:121-138 | the stopped meeting ends now and points at its transcript file when there are segments |
| Manager.HaltStep | MeetingHelper/Services/MeetingManager.swift:110-118 | stopping halts the audio, the speech and the timer |
| Manager.StopSaves | MeetingHelper/Services/MeetingManager.swift:124-138 | without segments the transcript files are untouched; with segments and a successful write the transcript of those segments is stored; after a successful final write the stored meeting is the stopped meeting |
| Manager.StopMeetingStep | MeetingHelper/Services/MeetingManager.swift:109-147 | without a meeting nothing changes; otherwise everything is saved and the session is cleared |
| Manager.PauseMeetingStep | MeetingHelper/Services/MeetingManager.swift:149-155 | audio pauses, transcription stops (finalizing pending text, whose publication is queued), the timer stops and the duration resets; error and live transcript stay |
| Manager.ResumeMeetingStep | MeetingHelper/Services/MeetingManager.swift:157-163 | audio resumes, transcription starts again, a speech start error reaches `error` unmasked, and a new timer starts, leaking a referenced one |
| Manager.RunSegmentTaskStep | MeetingHelper/Services/MeetingManager.swift:166-196 | a task appends its segments to the live transcript and autosaves exactly when ten segments or thirty seconds are reached |
| Manager.ExportTranscriptFor | MeetingHelper/Services/MeetingManager.swift:238-254 | text and Markdown use the file service's exports; JSON encodes the stored transcript; nothing without one |
| Manager.LiveTranscriptKeepsShown | MeetingHelper/Services/MeetingManager.swift:169-178 | the old transcript stays in front, followed by a newline when it was not empty, and the segments' text ends it |
| Manager.LiveTranscriptLines | MeetingHelper/Services/MeetingManager.swift:169-178 | split at newlines, the live transcript is the old lines followed by one line per segment of a non-empty array; an empty array adds a newline to a non-empty transcript, that is one blank last line |
| Manager.LiveTranscriptRepeatsSegments | MeetingHelper/Services/MeetingManager.swift:166-178 | after the arrays `[first]` and `[first, second]`, the first segment's line appears twice |
| Manager.PermissionDeniedStartsNothing | MeetingHelper/Services/MeetingManager.swift:78-81 | a denied permission leaves the audio, speech and files untouched |
| Manager.PauseResumeMeasuresFromStart | MeetingHelper/Services/MeetingManager.swift:199-211 | after pause and resume the duration is again measured from the original start |
| Manager.RecordingTimerLeaks | MeetingHelper/Services/MeetingManager.swift:199-206 | resuming a meeting that is not paused leaks a live timer, which after `stopMeeting` still sets a duration |
| Manager.StopMeetingManager | MeetingHelper/Services/MeetingManager.swift:109-147 | after stopping, the meeting, live transcript and duration are cleared and the referenced timer is stopped, while the start time, the leaked-timer count, the error and the last autosave time are kept |
| Manager.SecondStartDropsCurrentMeeting | MeetingHelper/Services/MeetingManager.swift:72-102 | a second start replaces the current meeting without saving it, and a recording timer that was referenced leaks and keeps running |
| Manager.StopListsMeetingWithoutTranscriptPath | MeetingHelper/Services/MeetingManager.swift:124-138 | for a meeting not yet listed, the list holds the ended meeting with its original path while its file holds the stopped meeting |
| Manager.StopQueuesFinalSegments | MeetingHelper/Services/MeetingManager.swift:109-147 | stopping while text is pending queues the finalized array and then the emptied one, and clears the meeting and the live transcript |
| Manager.StopThenTaskRefillsTranscript | MeetingHelper/Services/MeetingManager.swift:166-178 | a task queued before stop refills the transcript stop cleared |
| Manager.StopThenTasksLeaveBlankLine | MeetingHelper/Services/MeetingManager.swift:166-178 | after stop, the two queued tasks leave the whole meeting's lines followed by a newline, empty the queue and write nothing |
| Manager.TranscriptTextNonEmpty | MeetingHelper/Services/MeetingManager.swift:170-172 | the text of one or more segments is never empty |
| Manager.MeetingManager.constructor | MeetingHelper/Services/MeetingManager.swift:27-29 | the services are new and the bindings are set up with nothing queued but the initial publication |
| Manager.MeetingManager.DispatchToSpeechService | MeetingHelper/Services/MeetingManager.swift:48-68 | the speech service takes the event's step |
| Manager.MeetingManager.SpeechServiceHandles | MeetingHelper/Services/MeetingManager.swift:48-68 | the manager's bindings apply the event's effects |
| Manager.MeetingManager.Bind | MeetingHelper/Services/MeetingManager.swift:48-68 | the manager's new state is `Bindings` of the old one for the event the speech service has just handled |
| Manager.MeetingManager.StartMeeting | MeetingHelper/Services/MeetingManager.swift:72-107 | the new snapshot is `StartMeetingStep` of the old |
| Manager.MeetingManager.BeginMeeting | MeetingHelper/Services/MeetingManager.swift:98-102 | the new meeting becomes current, its start time is set, a recording timer is started and the error is cleared; nothing else in the manager changes |
| Manager.MeetingManager.StopMeeting | MeetingHelper/Services/MeetingManager.swift:109-147 | the new snapshot is `StopMeetingStep` of the old |
| Manager.MeetingManager.Halt | MeetingHelper/Services/MeetingManager.swift:114-118 | the new snapshot is `HaltStep` of the old: audio, speech and the timer are stopped |
| Manager.MeetingManager.SaveStoppedMeeting | MeetingHelper/Services/MeetingManager.swift:121-138 | the file service's new state is `StopSaves` of the old: the ended meeting is saved, then the transcript when there are segments, then the stopped meeting |
| Manager.MeetingManager.Conclude | MeetingHelper/Services/MeetingManager.swift:120-141 | the files become `StopSaves` of the old catalogue for the segments the speech service holds, the meeting stops being current, and audio and speech are untouched |
| Manager.MeetingManager.PauseMeeting | MeetingHelper/Services/MeetingManager.swift:149-155 | the new snapshot is `PauseMeetingStep` of the old |
| Manager.MeetingManager.ResumeMeeting | MeetingHelper/Services/MeetingManager.swift:157-163 | the new snapshot is `ResumeMeetingStep` of the old |
| Manager.MeetingManager.RunSegmentTask | MeetingHelper/Services/MeetingManager.swift:166-196 | the new snapshot is `RunSegmentTaskStep` of the old |
| Manager.MeetingManager.ShowSegments | MeetingHelper/Services/MeetingManager.swift:168-178 | the live transcript becomes `LiveTranscript` of the old one and the segments; nothing else in the manager changes |
| Manager.MeetingManager.StartRecordingTimer | MeetingHelper/Services/MeetingManager.swift:199-206 | the new manager state is `StartRecordingTimerStep` of the old |
| Manager.MeetingManager.StopRecordingTimer | MeetingHelper/Services/MeetingManager.swift:208-212 | the new manager state is `StopRecordingTimerStep` of the old |
| Manager.MeetingManager.RecordingTimerFired | MeetingHelper/Services/MeetingManager.swift:200-205 | the new manager state is `RecordingTickStep` of the old |
| Manager.MeetingManager.RecognitionResultArrives | MeetingHelper/Services/SpeechRecognitionService.swift:173-196 | the new snapshot is the recognition step followed by the bindings |
| Manager.MeetingManager.SegmentTimerFires | MeetingHelper/Services/SpeechRecognitionService.swift:198-202 | the new snapshot is the timer step followed by the bindings |
| Manager.MeetingManager.AvailabilityChanges | MeetingHelper/Services/SpeechRecognitionService.swift:274-280 | the new snapshot is the availability step followed by the bindings |
| Manager.MeetingManager.LoadMeetings | MeetingHelper/Services/MeetingManager.swift:219-222 | the files take the load step and the returned list is the service's |
| Manager.MeetingManager.DeleteMeeting | MeetingHelper/Services/MeetingManager.swift:224-226 | the files take the delete step |
| Manager.MeetingManager.SearchMeetings | MeetingHelper/Services/MeetingManager.swift:229-231 | all listed meetings for an empty query, otherwise exactly the matching ones, each as often as listed |
| Manager.MeetingManager.SearchTranscripts | MeetingHelper/Services/MeetingManager.swift:233-235 | the transcript search over every meeting |
| Manager.MeetingManager.ExportTranscript | MeetingHelper/Services/MeetingManager.swift:238-254 | the exported text is `ExportTranscriptFor` the current files |
| Manager.MeetingManager.SaveExportedTranscript | MeetingHelper/Services/MeetingManager.swift:256-258 | the files take the export save step |
| Manager.MeetingManager.GetTranscript | MeetingHelper/Services/MeetingManager.swift:260-262 | a transcript exactly when its file exists, and then the stored one |

## Left out

- File and network I/O, JSON encoding and decoding, and `DateFormatter` are parameters: a write's failure, a directory listing, an `encode` function and a `stamp` function.
- Time is whole seconds; `TimeInterval` fractions are not modelled, and `formattedDuration` is modelled on whole seconds with Swift's truncating division and remainder.
- The audio level meter and `processAudioBuffer` are not modelled: they are floating point arithmetic on sample buffers.
- Permission requests, UUID generation and the locale of `localizedCaseInsensitiveContains` are inputs, not modelled behaviour.
- `restartRecognition` is not modelled: nothing in the modelled code calls it.
- The unimplemented stubs are not modelled: `changeLanguage`, `supportedLocales`, `processAudioData`, `setAudioInputGain` and `setAudioOutputVolume` only log or do nothing.
- `requestCreationFailed` is never produced in the model: the request initializer it guards cannot return nil.
- `createDirectoriesIfNeeded` is modelled only by its error; directories are not entities of the model.
- `audioFileExists` is a parameter of the removal (`Removal.audioFileExists`).
- `FileManager.LoadTranscriptFrom`: `transcriptFiles` holds only transcripts that decode; a transcript file that exists but fails to decode reads back as nil, like a missing one, and is not represented.
- `FileManager.DeleteMeetingStep`: whether each `removeItem` throws is a parameter (`Removal`); that removing a meeting file which does not exist throws is not derived from the catalogue, so the model admits a successful removal of a missing meeting file.
- `MeetingList.SortByStartDescending`: Swift's `sort` is not documented as stable; the model sorts stably, which is one of the orders Swift may produce.
- `Manager.RecordingTickStep`: the recording timer's `Task` hop to the main actor is folded into the tick, so a tick queued just before `pauseMeeting` or `stopMeeting` and run after it, setting the duration back to now minus the start, is reachable only through a leaked timer.
- `Manager.RunSegmentTaskStep`: the main-actor `Task` hop is a queue of pending tasks that run one at a time; interleavings with other events are whatever order the caller chooses.
- A meeting title containing `/` would name a file in a sub-directory; the model treats a title as one path component.
- The manager's `isRecording`, `isTranscribing` and `audioLevel` mirrors are functions reading the services, not stored copies.
- The views, the app entry point and the LLM types are not part of this model.
