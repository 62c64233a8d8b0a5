/**
 * The value types of MeetingHelper/Models/Meeting.swift: a meeting, a transcript segment and a
 * meeting's transcript. Times are whole seconds on an abstract clock; `Date()` is the `now`
 * parameter of the initialisers and `UUID()` is a fresh `id` parameter.
 */
module Models {
  import opened Wrappers
  import Text

  predicate IsHexDigit(ch: char) {
    '0' <= ch <= '9' || 'A' <= ch <= 'F'
  }

  /** The shape of `UUID().uuidString`: groups of 8-4-4-4-12 upper-case hex digits joined by hyphens. */
  predicate IsUuidString(s: string) {
    && |s| == 36
    && forall i :: 0 <= i < |s| ==>
         if i == 8 || i == 13 || i == 18 || i == 23 then s[i] == '-' else IsHexDigit(s[i])
  }

  /** A UUID, identified with its `uuidString`. */
  type Uuid = s: string | IsUuidString(s) witness "00000000-0000-0000-0000-000000000000"

  /** A UUID string contains neither a path separator nor a dot. */
  lemma UuidHasNoSeparators(id: Uuid)
    ensures '/' !in id && '.' !in id && '\n' !in id
  {
  }

  datatype AudioSource = SystemAudio | Microphone | Zoom | Teams | GoogleMeet | Webex | Other

  /** `struct Meeting`. Swift's `==` and `hash(into:)` look at `id` only: see `SameAs`. */
  datatype Meeting = Meeting(
    id: Uuid,
    title: string,
    startTime: int,
    endTime: Option<int>,
    participants: seq<string>,
    transcriptPath: string,
    audioSource: AudioSource,
    summary: Option<string>,
    description: Option<string>)
  {
    /** The computed property `duration`: known exactly when the meeting has ended. */
    function Duration(): (d: Option<int>)
      ensures d.None? <==> endTime.None?
      ensures endTime.Some? ==> d.value == endTime.value - startTime
    {
      match endTime
      case None => None
      case Some(e) => Some(e - startTime)
    }

    /** Swift's `==` on meetings: equal ids, whatever the other fields hold. */
    predicate SameAs(other: Meeting) {
      id == other.id
    }

    /** What `hash(into:)` feeds the hasher. */
    function HashKey(): Uuid {
      id
    }

    /** `updateDetails(title:description:)`: the only fields it touches are title and description. */
    function UpdateDetails(newTitle: string, newDescription: Option<string>): (m: Meeting)
      ensures m.title == newTitle && m.description == newDescription
      ensures m.id == id && m.startTime == startTime && m.endTime == endTime
      ensures m.participants == participants && m.transcriptPath == transcriptPath
      ensures m.audioSource == audioSource && m.summary == summary
    {
      this.(title := newTitle, description := newDescription)
    }
  }

  /** `Meeting.init(title:audioSource:participants:description:)` called at time `now` with fresh `id`. */
  function NewMeeting(id: Uuid, now: int, title: string, audioSource: AudioSource,
                      participants: seq<string> := [], description: Option<string> := None): (m: Meeting)
    ensures m.id == id && m.title == title && m.startTime == now
    ensures m.endTime == None && m.summary == None
    ensures m.transcriptPath == "meetings/" + id + ".json"
    ensures m.participants == participants && m.audioSource == audioSource
    ensures m.description == description
  {
    Meeting(id, title, now, None, participants, "meetings/" + id + ".json", audioSource, None, description)
  }

  /** Swift's meeting equality is an equivalence that agrees with the hash, and ignores every field but `id`. */
  lemma SameAsIsIdentity(a: Meeting, b: Meeting, c: Meeting)
    ensures a.SameAs(a)
    ensures a.SameAs(b) ==> b.SameAs(a)
    ensures a.SameAs(b) && b.SameAs(c) ==> a.SameAs(c)
    ensures a.SameAs(b) ==> a.HashKey() == b.HashKey()
    ensures a.SameAs(a.UpdateDetails(b.title, b.description))
  {
  }

  /** A new meeting has not ended yet, so it has no duration. */
  lemma NewMeetingHasNoDuration(id: Uuid, now: int, title: string, audioSource: AudioSource)
    ensures NewMeeting(id, now, title, audioSource).Duration() == None
  {
  }

  /** `struct TranscriptSegment`: immutable once created. */
  datatype TranscriptSegment = TranscriptSegment(
    id: Uuid,
    timestamp: int,
    speaker: Option<string>,
    text: string,
    confidence: real,
    duration: int)

  /** `TranscriptSegment.init(text:confidence:duration:speaker:)` called at time `now` with fresh `id`. */
  function NewSegment(id: Uuid, now: int, text: string, confidence: real, duration: int,
                      speaker: Option<string> := None): (s: TranscriptSegment)
    ensures s.id == id && s.timestamp == now
    ensures s.text == text && s.confidence == confidence && s.duration == duration
    ensures s.speaker == speaker
  {
    TranscriptSegment(id, now, speaker, text, confidence, duration)
  }

  /** Leaving out the speaker gives a segment with no speaker. */
  lemma NewSegmentDefaultsToNoSpeaker(id: Uuid, now: int, text: string, confidence: real, duration: int)
    ensures NewSegment(id, now, text, confidence, duration).speaker == None
  {
  }

  /** `struct MeetingTranscript`. */
  datatype MeetingTranscript = MeetingTranscript(
    meetingId: Uuid,
    segments: seq<TranscriptSegment>,
    createdAt: int,
    lastUpdated: int)

  /** `MeetingTranscript.init(meetingId:segments:createdAt:lastUpdated:)`; both dates default to `now`. */
  function NewTranscript(meetingId: Uuid, now: int, segments: seq<TranscriptSegment> := [],
                         createdAt: int := now, lastUpdated: int := now): (t: MeetingTranscript)
    ensures t.meetingId == meetingId && t.segments == segments
    ensures t.createdAt == createdAt && t.lastUpdated == lastUpdated
  {
    MeetingTranscript(meetingId, segments, createdAt, lastUpdated)
  }

  /** With the defaults, a transcript starts empty and was created and updated at `now`. */
  lemma NewTranscriptDefaults(meetingId: Uuid, now: int)
    ensures NewTranscript(meetingId, now) == MeetingTranscript(meetingId, [], now, now)
  {
  }

  /**
   * The line every view of a transcript prints for one segment:
   * `"[<timestamp>] <speaker or Unknown>: <text>"`, with the date formatter `stamp` left abstract.
   */
  function SegmentLine(seg: TranscriptSegment, stamp: int -> string): string
  {
    "[" + stamp(seg.timestamp) + "] " + seg.speaker.GetOr("Unknown") + ": " + seg.text
  }

  /** One line per segment, in order. */
  function SegmentLines(segs: seq<TranscriptSegment>, stamp: int -> string): (lines: seq<string>)
    ensures |lines| == |segs|
    ensures forall i :: 0 <= i < |segs| ==> lines[i] == SegmentLine(segs[i], stamp)
  {
    seq(|segs|, i requires 0 <= i < |segs| => SegmentLine(segs[i], stamp))
  }

  /** Lines of concatenated segment lists are the concatenated lines. */
  lemma SegmentLinesAppend(a: seq<TranscriptSegment>, b: seq<TranscriptSegment>, stamp: int -> string)
    ensures SegmentLines(a + b, stamp) == SegmentLines(a, stamp) + SegmentLines(b, stamp)
  {
  }

  /** No newline in the formatted time, the speaker or the text means no newline in the line. */
  lemma SegmentLineHasNoNewline(seg: TranscriptSegment, stamp: int -> string)
    requires '\n' !in stamp(seg.timestamp) && '\n' !in seg.text
    requires seg.speaker.Some? ==> '\n' !in seg.speaker.value
    ensures '\n' !in SegmentLine(seg, stamp)
  {
    var line := SegmentLine(seg, stamp);
    var speaker := seg.speaker.GetOr("Unknown");
    assert '\n' !in speaker;
    assert line == "[" + stamp(seg.timestamp) + "] " + speaker + ": " + seg.text;
  }

  /**
   * The segment lines joined by newlines: what `exportTranscript()` returns and what the live
   * transcript gains for each published segment array.
   */
  function TranscriptText(segs: seq<TranscriptSegment>, stamp: int -> string): string {
    Text.Join(SegmentLines(segs, stamp), "\n")
  }

  /**
   * The transcript text has exactly one line per segment, in order, when no segment line
   * contains a newline of its own; with no segments it is empty.
   */
  lemma TranscriptTextLines(segs: seq<TranscriptSegment>, stamp: int -> string)
    requires forall i :: 0 <= i < |segs| ==> '\n' !in SegmentLine(segs[i], stamp)
    ensures segs == [] ==> TranscriptText(segs, stamp) == ""
    ensures segs != [] ==> Text.Split(TranscriptText(segs, stamp), '\n') == SegmentLines(segs, stamp)
  {
    if segs != [] {
      Text.SplitJoin(SegmentLines(segs, stamp), '\n');
    }
  }
}
