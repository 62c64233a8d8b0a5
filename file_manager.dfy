/**
 * FileManagerService: the in-memory meeting list together with the files it writes under
 * `Documents/MeetingHelper`. The files are modelled by what they hold: the meeting files and
 * transcript files by id, and the exported transcripts by URL. Every disk operation that can
 * throw receives its outcome as a parameter (`None` for success, `Some(description)` for the
 * error's `localizedDescription`).
 */
module FileManager {
  import opened Wrappers
  import opened Text
  import opened Models
  import opened FileNaming
  import opened Sequences
  import opened MeetingList

  datatype FileManagerError =
    | DirectoryCreationFailed(message: string)
    | SaveFailed(message: string)
    | LoadFailed(message: string)
    | DeleteFailed(message: string)
    | ExportFailed(message: string)
  {
    /** `errorDescription`. */
    function Description(): string {
      match this
      case DirectoryCreationFailed(msg) => "Directory creation failed: " + msg
      case SaveFailed(msg) => "Save failed: " + msg
      case LoadFailed(msg) => "Load failed: " + msg
      case DeleteFailed(msg) => "Delete failed: " + msg
      case ExportFailed(msg) => "Export failed: " + msg
    }
  }

  /** Everything FileManagerService holds: the published properties and the files it manages. */
  datatype Catalogue = Catalogue(
    meetings: seq<Meeting>,
    error: Option<FileManagerError>,
    meetingFiles: map<Uuid, Meeting>,
    transcriptFiles: map<Uuid, MeetingTranscript>,
    exportedFiles: map<Url, string>)

  /** One entry of the meetings directory: its file name and, when it reads and decodes, its meeting. */
  datatype DirectoryEntry = DirectoryEntry(name: string, decoded: Option<Meeting>)

  /** What `contentsOfDirectory` produced: the entries in listing order, or the error it threw. */
  datatype Listing = Listed(entries: seq<DirectoryEntry>) | ListingFailed(description: string)

  /** The outcome of each `removeItem` in `deleteMeeting`, and whether an audio file exists. */
  datatype Removal = Removal(
    meetingFile: Option<string>,
    transcriptFile: Option<string>,
    audioFileExists: bool,
    audioFile: Option<string>)

  // ---------------------------------------------------------------------------------------------
  // Meeting list

  /** `saveMeeting`: write the file, then insert into the list if the id is new, and sort. */
  function SaveMeetingStep(c: Catalogue, m: Meeting, failure: Option<string>): (r: Catalogue)
    ensures failure.Some? ==> r == c.(error := Some(SaveFailed(failure.value)))
    ensures failure.None? ==> r.error == c.error && r.meetingFiles == c.meetingFiles[m.id := m]
    ensures failure.None? && HasId(c.meetings, m.id) ==> r.meetings == c.meetings
    ensures failure.None? && !HasId(c.meetings, m.id) ==>
              && SortedByStartDescending(r.meetings)
              && multiset(r.meetings) == multiset(c.meetings) + multiset{m}
              && (SortedByStartDescending(c.meetings) ==> IsSubsequence(c.meetings, r.meetings))
    ensures r.transcriptFiles == c.transcriptFiles && r.exportedFiles == c.exportedFiles
  {
    match failure
    case Some(description) => c.(error := Some(SaveFailed(description)))
    case None =>
      var files := c.meetingFiles[m.id := m];
      if HasId(c.meetings, m.id) then c.(meetingFiles := files)
      else
        AppendThenSort(c.meetings, m);
        c.(meetingFiles := files, meetings := SortByStartDescending(c.meetings + [m]))
  }

  /** The listed `.json` files whose contents decode, in listing order. */
  function DecodedMeetings(entries: seq<DirectoryEntry>): (r: seq<Meeting>)
    ensures forall m :: m in r <==> exists e :: e in entries && e.decoded == Some(m)
    decreases |entries|
  {
    if entries == [] then []
    else
      var init := entries[..|entries| - 1];
      var last := entries[|entries| - 1];
      assert entries == init + [last];
      DecodedMeetings(init) + (match last.decoded case Some(m) => [m] case None => [])
  }

  /** Decoding one more entry appends its meeting, if it has one. */
  lemma DecodedMeetingsSnoc(entries: seq<DirectoryEntry>, i: nat)
    requires i < |entries|
    ensures DecodedMeetings(entries[..i + 1]) ==
      DecodedMeetings(entries[..i]) + (match entries[i].decoded case Some(m) => [m] case None => [])
  {
    assert entries[..i + 1][..i] == entries[..i];
  }

  /** The listing entries with extension `json`. */
  function JsonEntries(entries: seq<DirectoryEntry>): (r: seq<DirectoryEntry>)
    ensures forall e :: e in r <==> e in entries && PathExtension(e.name) == "json"
  {
    Filter(entries, (e: DirectoryEntry) => PathExtension(e.name) == "json")
  }

  /** `loadMeetings`: replace the list with the decodable `.json` files, most recent first. */
  function LoadMeetingsStep(c: Catalogue, listing: Listing): (r: Catalogue)
    ensures listing.ListingFailed? ==> r == c.(error := Some(LoadFailed(listing.description)))
    ensures listing.Listed? ==>
              && r.error == c.error
              && SortedByStartDescending(r.meetings)
              && multiset(r.meetings) == multiset(DecodedMeetings(JsonEntries(listing.entries)))
    ensures listing.Listed? ==> forall m :: m in r.meetings <==>
              exists e :: e in listing.entries && PathExtension(e.name) == "json" && e.decoded == Some(m)
    ensures r.meetingFiles == c.meetingFiles && r.transcriptFiles == c.transcriptFiles
    ensures r.exportedFiles == c.exportedFiles
  {
    match listing
    case ListingFailed(description) => c.(error := Some(LoadFailed(description)))
    case Listed(entries) =>
      var loaded := DecodedMeetings(JsonEntries(entries));
      var sorted := SortByStartDescending(loaded);
      assert forall m :: m in sorted <==> m in loaded by {
        forall m ensures m in sorted <==> m in loaded {
          assert m in sorted <==> m in multiset(sorted);
        }
      }
      c.(meetings := sorted)
  }

  /** Whether every `removeItem` that `deleteMeeting` attempts for `m` succeeds. */
  predicate RemovalSucceeds(c: Catalogue, m: Meeting, removal: Removal) {
    && removal.meetingFile.None?
    && (m.id in c.transcriptFiles ==> removal.transcriptFile.None?)
    && (removal.audioFileExists ==> removal.audioFile.None?)
  }

  /**
   * `deleteMeeting`: remove the meeting file, then the transcript file if it exists, then the
   * audio file if it exists; only when all three succeed is the id removed from the list. The
   * first removal that throws ends the operation with `deleteFailed`; what was removed before
   * it stays removed.
   */
  function DeleteMeetingStep(c: Catalogue, m: Meeting, removal: Removal): (r: Catalogue)
    ensures removal.meetingFile.Some? ==> r == c.(error := Some(DeleteFailed(removal.meetingFile.value)))
    ensures removal.meetingFile.None? && m.id in c.transcriptFiles && removal.transcriptFile.Some? ==>
              r == c.(meetingFiles := c.meetingFiles - {m.id}, error := Some(DeleteFailed(removal.transcriptFile.value)))
    ensures && removal.meetingFile.None? && (m.id in c.transcriptFiles ==> removal.transcriptFile.None?)
            && removal.audioFileExists && removal.audioFile.Some? ==>
              r == c.(meetingFiles := c.meetingFiles - {m.id}, transcriptFiles := c.transcriptFiles - {m.id},
                      error := Some(DeleteFailed(removal.audioFile.value)))
    ensures RemovalSucceeds(c, m, removal) ==>
              && r.error == c.error && r.exportedFiles == c.exportedFiles
              && r.meetingFiles == c.meetingFiles - {m.id} && r.transcriptFiles == c.transcriptFiles - {m.id}
              && !HasId(r.meetings, m.id)
              && IsSubsequence(r.meetings, c.meetings)
              && (forall x :: multiset(r.meetings)[x] == if x.id != m.id then multiset(c.meetings)[x] else 0)
    ensures !RemovalSucceeds(c, m, removal) ==>
              r.meetings == c.meetings && r.error.Some? && r.error.value.DeleteFailed?
  {
    if removal.meetingFile.Some? then
      c.(error := Some(DeleteFailed(removal.meetingFile.value)))
    else
      var c1 := c.(meetingFiles := c.meetingFiles - {m.id});
      if m.id in c.transcriptFiles && removal.transcriptFile.Some? then
        c1.(error := Some(DeleteFailed(removal.transcriptFile.value)))
      else
        var c2 := if m.id in c.transcriptFiles then c1.(transcriptFiles := c.transcriptFiles - {m.id}) else c1;
        assert c2.transcriptFiles == c.transcriptFiles - {m.id};
        if removal.audioFileExists && removal.audioFile.Some? then
          c2.(error := Some(DeleteFailed(removal.audioFile.value)))
        else
          c2.(meetings := RemoveId(c.meetings, m.id))
  }

  /** `updateMeeting`: write the file, then replace the first entry with the same id, if any. */
  function UpdateMeetingStep(c: Catalogue, m: Meeting, failure: Option<string>): (r: Catalogue)
    ensures failure.Some? ==> r == c.(error := Some(SaveFailed(failure.value)))
    ensures failure.None? ==>
              && r.error == c.error
              && r.meetingFiles == c.meetingFiles[m.id := m]
              && |r.meetings| == |c.meetings|
              && (forall i :: 0 <= i < |c.meetings| ==>
                    r.meetings[i] == (if IsFirstWithId(c.meetings, i, m.id) then m else c.meetings[i]))
    ensures !HasId(c.meetings, m.id) ==> r.meetings == c.meetings
    ensures r.transcriptFiles == c.transcriptFiles && r.exportedFiles == c.exportedFiles
  {
    match failure
    case Some(description) => c.(error := Some(SaveFailed(description)))
    case None => c.(meetingFiles := c.meetingFiles[m.id := m], meetings := ReplaceFirst(c.meetings, m))
  }

  // ---------------------------------------------------------------------------------------------
  // Transcripts

  /** `saveTranscript`: the file named after the meeting id now holds the transcript. */
  function SaveTranscriptStep(c: Catalogue, t: MeetingTranscript, failure: Option<string>): (r: Catalogue)
    ensures failure.Some? ==> r == c.(error := Some(SaveFailed(failure.value)))
    ensures failure.None? ==> r == c.(transcriptFiles := c.transcriptFiles[t.meetingId := t])
  {
    match failure
    case Some(description) => c.(error := Some(SaveFailed(description)))
    case None => c.(transcriptFiles := c.transcriptFiles[t.meetingId := t])
  }

  /** `loadTranscript(for:)`: the stored transcript of a meeting, or nil when there is none. */
  function LoadTranscriptFrom(c: Catalogue, id: Uuid): (t: Option<MeetingTranscript>)
    ensures t.Some? <==> id in c.transcriptFiles
    ensures t.Some? ==> t.value == c.transcriptFiles[id]
  {
    if id in c.transcriptFiles then Some(c.transcriptFiles[id]) else None
  }

  /**
   * `MeetingTranscript.updated(with:)` at time `now`: the new segments follow the old ones, and
   * the meeting and the creation date stay.
   */
  function Updated(t: MeetingTranscript, newSegments: seq<TranscriptSegment>, now: int): (u: MeetingTranscript)
    ensures u.meetingId == t.meetingId && u.createdAt == t.createdAt && u.lastUpdated == now
    ensures |u.segments| == |t.segments| + |newSegments|
    ensures u.segments[..|t.segments|] == t.segments && u.segments[|t.segments|..] == newSegments
  {
    MeetingTranscript(t.meetingId, t.segments + newSegments, t.createdAt, now)
  }

  /** Appending in two steps is appending the concatenation in one, stamped with the later time. */
  lemma UpdatedComposes(t: MeetingTranscript, a: seq<TranscriptSegment>, b: seq<TranscriptSegment>,
                        now1: int, now2: int)
    ensures Updated(Updated(t, a, now1), b, now2) == Updated(t, a + b, now2)
  {
    assert t.segments + a + b == t.segments + (a + b);
  }

  /** `updateTranscript(_:with:)`: save the transcript with one more segment, stamped `now`. */
  function UpdateTranscriptStep(c: Catalogue, t: MeetingTranscript, segment: TranscriptSegment,
                                now: int, failure: Option<string>): (r: Catalogue)
    ensures failure.None? ==>
              && t.meetingId in r.transcriptFiles
              && r.transcriptFiles[t.meetingId].segments == t.segments + [segment]
              && |r.transcriptFiles[t.meetingId].segments| == |t.segments| + 1
              && r.transcriptFiles[t.meetingId].createdAt == t.createdAt
              && r.transcriptFiles[t.meetingId].lastUpdated == now
    ensures failure.None? ==> r == c.(transcriptFiles := c.transcriptFiles[t.meetingId := Updated(t, [segment], now)])
    ensures failure.Some? ==> r == c.(error := Some(SaveFailed(failure.value)))
  {
    SaveTranscriptStep(c, Updated(t, [segment], now), failure)
  }

  /** `saveExportedTranscript`: a failed write is only logged, so `error` never changes. */
  function SaveExportedStep(c: Catalogue, documents: Url, content: string, m: Meeting,
                            format: ExportFormat, fileStamp: int -> string,
                            failure: Option<string>): (r: Catalogue)
    ensures r.error == c.error && r.meetings == c.meetings
    ensures r.meetingFiles == c.meetingFiles && r.transcriptFiles == c.transcriptFiles
    ensures failure.None? ==> r.exportedFiles == c.exportedFiles[ExportFileUrl(documents, m, fileStamp, format) := content]
    ensures failure.Some? ==> r.exportedFiles == c.exportedFiles
  {
    if failure.None? then
      c.(exportedFiles := c.exportedFiles[ExportFileUrl(documents, m, fileStamp, format) := content])
    else c
  }

  // ---------------------------------------------------------------------------------------------
  // Transcript search

  /** The meetings `searchTranscripts` looks at: all of them, or those with the given id. */
  function MeetingsToSearch(meetings: seq<Meeting>, meetingId: Option<Uuid>): (r: seq<Meeting>)
    ensures meetingId.None? ==> r == meetings
    ensures meetingId.Some? ==> forall m :: m in r <==> m in meetings && m.id == meetingId.value
  {
    match meetingId
    case None => meetings
    case Some(id) => Filter(meetings, (m: Meeting) => m.id == id)
  }

  /** The segments of one transcript whose text contains the query. */
  function MatchingSegments(segments: seq<TranscriptSegment>, query: string,
                            contains: (string, string) -> bool): seq<TranscriptSegment>
  {
    Filter(segments, (seg: TranscriptSegment) => contains(seg.text, query))
  }

  /** The matching segments of the stored transcripts of `ms`, meeting after meeting. */
  function SegmentsFound(ms: seq<Meeting>, files: map<Uuid, MeetingTranscript>, query: string,
                         contains: (string, string) -> bool): seq<TranscriptSegment>
    decreases |ms|
  {
    if ms == [] then []
    else
      var last := ms[|ms| - 1];
      SegmentsFound(ms[..|ms| - 1], files, query, contains)
        + (if last.id in files then MatchingSegments(files[last.id].segments, query, contains) else [])
  }

  /** One more meeting searched adds the matches of its stored transcript at the end. */
  lemma SegmentsFoundStep(ms: seq<Meeting>, i: nat, files: map<Uuid, MeetingTranscript>, query: string,
                          contains: (string, string) -> bool)
    requires i < |ms|
    ensures SegmentsFound(ms[..i + 1], files, query, contains)
            == SegmentsFound(ms[..i], files, query, contains)
               + (if ms[i].id in files then MatchingSegments(files[ms[i].id].segments, query, contains) else [])
  {
    assert ms[..i + 1][..i] == ms[..i];
  }

  /** What `searchTranscripts(query:in:)` returns. */
  function TranscriptSearch(c: Catalogue, query: string, meetingId: Option<Uuid>,
                            contains: (string, string) -> bool): seq<TranscriptSegment>
  {
    if query == "" then []
    else SegmentsFound(MeetingsToSearch(c.meetings, meetingId), c.transcriptFiles, query, contains)
  }

  /**
   * A segment is found exactly when its text contains the query and it belongs to the stored
   * transcript of one of the searched meetings.
   */
  lemma {:induction false} SegmentsFoundExactly(ms: seq<Meeting>, files: map<Uuid, MeetingTranscript>,
                                                query: string, contains: (string, string) -> bool)
    ensures forall seg :: seg in SegmentsFound(ms, files, query, contains) <==>
              && contains(seg.text, query)
              && exists m :: m in ms && m.id in files && seg in files[m.id].segments
    decreases |ms|
  {
    if ms != [] {
      var init := ms[..|ms| - 1];
      var last := ms[|ms| - 1];
      SegmentsFoundExactly(init, files, query, contains);
      assert ms == init + [last];
      forall seg
        ensures seg in SegmentsFound(ms, files, query, contains) <==>
                && contains(seg.text, query)
                && exists m :: m in ms && m.id in files && seg in files[m.id].segments
      {
        if contains(seg.text, query) && last.id in files && seg in files[last.id].segments {
          assert last in ms;
        }
        if exists m :: m in ms && m.id in files && seg in files[m.id].segments {
          var m :| m in ms && m.id in files && seg in files[m.id].segments;
          assert m in init || m == last;
        }
      }
    }
  }

  /**
   * `searchTranscripts` finds nothing for an empty query; otherwise it finds exactly the
   * matching segments of the searched meetings, and with an id only those of that meeting.
   */
  lemma TranscriptSearchFinds(c: Catalogue, query: string, meetingId: Option<Uuid>,
                              contains: (string, string) -> bool)
    ensures query == "" ==> TranscriptSearch(c, query, meetingId, contains) == []
    ensures query != "" ==> forall seg :: seg in TranscriptSearch(c, query, meetingId, contains) <==>
              && contains(seg.text, query)
              && exists m :: && m in c.meetings && (meetingId.Some? ==> m.id == meetingId.value)
                             && m.id in c.transcriptFiles && seg in c.transcriptFiles[m.id].segments
    ensures meetingId.Some? ==> forall seg :: seg in TranscriptSearch(c, query, meetingId, contains) ==>
              meetingId.value in c.transcriptFiles && seg in c.transcriptFiles[meetingId.value].segments
  {
    if query != "" {
      SegmentsFoundExactly(MeetingsToSearch(c.meetings, meetingId), c.transcriptFiles, query, contains);
    }
  }

  // ---------------------------------------------------------------------------------------------
  // Exports

  /** Each line followed by `terminator`, as the export loops' `+=` produce them. */
  function Terminated(lines: seq<string>, terminator: string): string
    decreases |lines|
  {
    if lines == [] then ""
    else Terminated(lines[..|lines| - 1], terminator) + lines[|lines| - 1] + terminator
  }

  lemma TerminatedSnoc(lines: seq<string>, line: string, terminator: string)
    ensures Terminated(lines + [line], terminator) == Terminated(lines, terminator) + line + terminator
  {
    assert (lines + [line])[..|lines|] == lines;
  }

  /** Terminating every line is joining the lines and a final empty line. */
  lemma {:induction false} TerminatedIsJoin(lines: seq<string>, terminator: string)
    ensures Terminated(lines, terminator) == Join(lines + [""], terminator)
    decreases |lines|
  {
    if lines != [] {
      var init := lines[..|lines| - 1];
      var last := lines[|lines| - 1];
      TerminatedIsJoin(init, terminator);
      assert lines == init + [last];
      JoinAppend(lines, [""], terminator);
      if init != [] {
        JoinAppend(init, [last], terminator);
        JoinAppend(init, [""], terminator);
      }
    }
  }

  /** A `caption h:mm:ss` line for `total` seconds, as both exports print the duration. */
  function DurationLine(caption: string, total: int): string {
    caption + FormattedDuration(total) + "\n"
  }

  /**
   * The `Meeting:`/`Date:` lines, the `Duration:` line for a meeting that has ended, and the
   * `Participants:` line of the plain-text export.
   */
  function TextHeader(m: Meeting, stamp: int -> string): string {
    var dated := "Meeting: " + m.title + "\n" + ("Date: " + stamp(m.startTime) + "\n");
    var timed := if m.endTime.Some? then dated + DurationLine("Duration: ", m.endTime.value - m.startTime)
                 else dated;
    timed + ("Participants: " + Join(m.participants, ", ") + "\n\n")
  }

  /** `exportTranscriptAsText(for:)`: nil without a stored transcript. */
  function TextExport(c: Catalogue, m: Meeting, stamp: int -> string): (r: Option<string>)
    ensures r.None? <==> m.id !in c.transcriptFiles
  {
    match LoadTranscriptFrom(c, m.id)
    case None => None
    case Some(t) => Some(TextHeader(m, stamp) + Terminated(SegmentLines(t.segments, stamp), "\n"))
  }

  /** One segment of the Markdown export: `**[time] speaker:** text`. */
  function MarkdownSegmentLine(seg: TranscriptSegment, stamp: int -> string): string {
    "**[" + stamp(seg.timestamp) + "] " + seg.speaker.GetOr("Unknown") + ":** " + seg.text
  }

  function MarkdownSegmentLines(segs: seq<TranscriptSegment>, stamp: int -> string): (lines: seq<string>)
    ensures |lines| == |segs|
    ensures forall i :: 0 <= i < |segs| ==> lines[i] == MarkdownSegmentLine(segs[i], stamp)
  {
    seq(|segs|, i requires 0 <= i < |segs| => MarkdownSegmentLine(segs[i], stamp))
  }

  /**
   * The title and date, the duration of a meeting that has ended, the participants and the
   * `## Transcript` heading of the Markdown export.
   */
  function MarkdownHeader(m: Meeting, stamp: int -> string): string {
    var dated := "# " + m.title + "\n\n" + ("**Date:** " + stamp(m.startTime) + "\n");
    var timed := if m.endTime.Some? then dated + DurationLine("**Duration:** ", m.endTime.value - m.startTime)
                 else dated;
    timed + ("**Participants:** " + Join(m.participants, ", ") + "\n\n") + "## Transcript\n\n"
  }

  /** `exportTranscriptAsMarkdown(for:)`: nil without a stored transcript. */
  function MarkdownExport(c: Catalogue, m: Meeting, stamp: int -> string): (r: Option<string>)
    ensures r.None? <==> m.id !in c.transcriptFiles
  {
    match LoadTranscriptFrom(c, m.id)
    case None => None
    case Some(t) => Some(MarkdownHeader(m, stamp) + Terminated(MarkdownSegmentLines(t.segments, stamp), "\n\n"))
  }

  /**
   * After its header, the plain-text export has one line per stored segment, in order, and
   * ends with a newline, provided no segment line contains a newline of its own.
   */
  lemma TextExportLines(c: Catalogue, m: Meeting, stamp: int -> string)
    requires m.id in c.transcriptFiles
    requires var segs := c.transcriptFiles[m.id].segments;
      forall i :: 0 <= i < |segs| ==> '\n' !in SegmentLine(segs[i], stamp)
    ensures var r := TextExport(c, m, stamp).value;
      var h := TextHeader(m, stamp);
      && |h| <= |r| && r[..|h|] == h
      && Split(r[|h|..], '\n') == SegmentLines(c.transcriptFiles[m.id].segments, stamp) + [""]
  {
    var lines := SegmentLines(c.transcriptFiles[m.id].segments, stamp);
    var h := TextHeader(m, stamp);
    var body := Terminated(lines, "\n");
    var r := h + body;
    assert r[..|h|] == h && r[|h|..] == body;
    TerminatedIsJoin(lines, "\n");
    SplitJoin(lines + [""], '\n');
  }

  /** After its header, the Markdown export is the segment lines separated by blank lines. */
  lemma MarkdownExportLines(c: Catalogue, m: Meeting, stamp: int -> string)
    requires m.id in c.transcriptFiles
    ensures var r := MarkdownExport(c, m, stamp).value;
      var h := MarkdownHeader(m, stamp);
      && |h| <= |r| && r[..|h|] == h
      && r[|h|..] == Join(MarkdownSegmentLines(c.transcriptFiles[m.id].segments, stamp) + [""], "\n\n")
  {
    var lines := MarkdownSegmentLines(c.transcriptFiles[m.id].segments, stamp);
    var h := MarkdownHeader(m, stamp);
    var r := h + Terminated(lines, "\n\n");
    assert r[..|h|] == h && r[|h|..] == Terminated(lines, "\n\n");
    TerminatedIsJoin(lines, "\n\n");
  }

  // ---------------------------------------------------------------------------------------------
  // The service

  /** The error left by `createDirectoriesIfNeeded`: that of the last directory that failed. */
  function DirectoryError(failures: seq<Option<string>>, initial: Option<FileManagerError>): Option<FileManagerError>
    decreases |failures|
  {
    if failures == [] then initial
    else
      var last := failures[|failures| - 1];
      if last.Some? then Some(DirectoryCreationFailed(last.value))
      else DirectoryError(failures[..|failures| - 1], initial)
  }

  class FileManagerService {
    var meetings: seq<Meeting>
    var error: Option<FileManagerError>
    var meetingFiles: map<Uuid, Meeting>
    var transcriptFiles: map<Uuid, MeetingTranscript>
    var exportedFiles: map<Url, string>
    /** The user's Documents directory. */
    const documents: Url

    function State(): Catalogue
      reads this
    {
      Catalogue(meetings, error, meetingFiles, transcriptFiles, exportedFiles)
    }

    /**
     * `init()`: create the three directories (`directoryFailures` holds the outcome for the
     * meetings, transcripts and audio directories), then `loadMeetings()`. The files already
     * on disk are `storedMeetings` and `storedTranscripts`; `listing` is what the meetings
     * directory lists.
     */
    constructor (documents: Url, directoryFailures: seq<Option<string>>,
                 storedMeetings: map<Uuid, Meeting>, storedTranscripts: map<Uuid, MeetingTranscript>,
                 listing: Listing)
      requires |directoryFailures| == 3
      ensures this.documents == documents
      ensures State() == LoadMeetingsStep(
                Catalogue([], DirectoryError(directoryFailures, None), storedMeetings, storedTranscripts, map[]),
                listing)
    {
      this.documents := documents;
      meetings := [];
      error := None;
      meetingFiles := storedMeetings;
      transcriptFiles := storedTranscripts;
      exportedFiles := map[];
      new;
      for i := 0 to |directoryFailures|
        invariant meetings == [] && meetingFiles == storedMeetings
        invariant transcriptFiles == storedTranscripts && exportedFiles == map[]
        invariant error == DirectoryError(directoryFailures[..i], None)
      {
        assert directoryFailures[..i + 1][..i] == directoryFailures[..i];
        if directoryFailures[i].Some? {
          error := Some(DirectoryCreationFailed(directoryFailures[i].value));
        }
      }
      assert directoryFailures[..|directoryFailures|] == directoryFailures;
      LoadMeetings(listing);
    }

    /** `getAudioFileURL(for:)`. */
    function AudioFileUrlFor(id: Uuid): Url {
      AudioFileUrl(documents, id)
    }

    /** The path a transcript file for `id` has: what `stopMeeting` records in the meeting. */
    function TranscriptPathFor(id: Uuid): string {
      PathString(TranscriptFileUrl(documents, id))
    }

    method SaveMeeting(m: Meeting, failure: Option<string>)
      modifies this
      ensures State() == SaveMeetingStep(old(State()), m, failure)
    {
      if failure.Some? {
        error := Some(SaveFailed(failure.value));
        return;
      }
      meetingFiles := meetingFiles[m.id := m];
      if !HasId(meetings, m.id) {
        meetings := meetings + [m];
        meetings := SortByStartDescending(meetings);
      }
    }

    method LoadMeetings(listing: Listing)
      modifies this
      ensures State() == LoadMeetingsStep(old(State()), listing)
    {
      match listing
      case ListingFailed(description) =>
        error := Some(LoadFailed(description));
      case Listed(entries) =>
        var files := JsonEntries(entries);
        meetings := DecodeEntries(files);
        meetings := SortByStartDescending(meetings);
    }

    method DeleteMeeting(m: Meeting, removal: Removal)
      modifies this
      ensures State() == DeleteMeetingStep(old(State()), m, removal)
    {
      if removal.meetingFile.Some? {
        error := Some(DeleteFailed(removal.meetingFile.value));
        return;
      }
      meetingFiles := meetingFiles - {m.id};
      if m.id in transcriptFiles {
        if removal.transcriptFile.Some? {
          error := Some(DeleteFailed(removal.transcriptFile.value));
          return;
        }
        transcriptFiles := transcriptFiles - {m.id};
      }
      if removal.audioFileExists && removal.audioFile.Some? {
        error := Some(DeleteFailed(removal.audioFile.value));
        return;
      }
      meetings := RemoveId(meetings, m.id);
    }

    method UpdateMeeting(m: Meeting, failure: Option<string>)
      modifies this
      ensures State() == UpdateMeetingStep(old(State()), m, failure)
    {
      if failure.Some? {
        error := Some(SaveFailed(failure.value));
        return;
      }
      meetingFiles := meetingFiles[m.id := m];
      var index := FirstIndexOfId(meetings, m.id);
      if index.Some? {
        meetings := meetings[index.value := m];
      }
    }

    method SaveTranscript(t: MeetingTranscript, failure: Option<string>)
      modifies this
      ensures State() == SaveTranscriptStep(old(State()), t, failure)
    {
      if failure.Some? {
        error := Some(SaveFailed(failure.value));
        return;
      }
      transcriptFiles := transcriptFiles[t.meetingId := t];
    }

    function LoadTranscript(id: Uuid): Option<MeetingTranscript>
      reads this
    {
      LoadTranscriptFrom(State(), id)
    }

    method UpdateTranscript(t: MeetingTranscript, segment: TranscriptSegment, now: int, failure: Option<string>)
      modifies this
      ensures State() == UpdateTranscriptStep(old(State()), t, segment, now, failure)
    {
      var updated := MeetingTranscript(t.meetingId, t.segments + [segment], t.createdAt, now);
      SaveTranscript(updated, failure);
    }

    method SaveExportedTranscript(content: string, m: Meeting, format: ExportFormat,
                                  fileStamp: int -> string, failure: Option<string>)
      modifies this
      ensures State() == SaveExportedStep(old(State()), documents, content, m, format, fileStamp, failure)
    {
      var url := ExportFileUrl(documents, m, fileStamp, format);
      if failure.None? {
        exportedFiles := exportedFiles[url := content];
      }
    }

    function SearchMeetingsIn(query: string, contains: (string, string) -> bool): seq<Meeting>
      reads this
    {
      SearchMeetings(meetings, query, contains)
    }

    /** `searchTranscripts(query:in:)`, accumulating the matches meeting by meeting. */
    method SearchTranscripts(query: string, meetingId: Option<Uuid>, contains: (string, string) -> bool)
      returns (results: seq<TranscriptSegment>)
      ensures results == TranscriptSearch(State(), query, meetingId, contains)
    {
      if query == "" {
        return [];
      }
      results := [];
      var toSearch := MeetingsToSearch(meetings, meetingId);
      for i := 0 to |toSearch|
        invariant results == SegmentsFound(toSearch[..i], transcriptFiles, query, contains)
      {
        SegmentsFoundStep(toSearch, i, transcriptFiles, query, contains);
        var transcript := LoadTranscript(toSearch[i].id);
        if transcript.Some? {
          results := results + MatchingSegments(transcript.value.segments, query, contains);
        }
      }
      assert toSearch[..|toSearch|] == toSearch;
    }

    /** `exportTranscriptAsText(for:)`. */
    method ExportTranscriptAsText(m: Meeting, stamp: int -> string) returns (text: Option<string>)
      ensures text == TextExport(State(), m, stamp)
    {
      var transcript := LoadTranscript(m.id);
      if transcript.None? {
        return None;
      }
      var header := BuildTextHeader(m, stamp);
      var s := AppendTerminated(header, SegmentLines(transcript.value.segments, stamp), "\n");
      return Some(s);
    }

    /** `exportTranscriptAsMarkdown(for:)`. */
    method ExportTranscriptAsMarkdown(m: Meeting, stamp: int -> string) returns (markdown: Option<string>)
      ensures markdown == MarkdownExport(State(), m, stamp)
    {
      var transcript := LoadTranscript(m.id);
      if transcript.None? {
        return None;
      }
      var header := BuildMarkdownHeader(m, stamp);
      var s := AppendTerminated(header, MarkdownSegmentLines(transcript.value.segments, stamp), "\n\n");
      return Some(s);
    }
  }

  /** The header of the plain-text export, appended piece by piece as the source does. */
  method BuildTextHeader(m: Meeting, stamp: int -> string) returns (s: string)
    ensures s == TextHeader(m, stamp)
  {
    s := "Meeting: " + m.title + "\n";
    s := s + ("Date: " + stamp(m.startTime) + "\n");
    ghost var dated := s;
    if m.endTime.Some? {
      s := s + DurationLine("Duration: ", m.endTime.value - m.startTime);
    }
    assert s == if m.endTime.Some? then dated + DurationLine("Duration: ", m.endTime.value - m.startTime) else dated;
    s := s + ("Participants: " + Join(m.participants, ", ") + "\n\n");
  }

  /** The header of the Markdown export, appended piece by piece as the source does. */
  method BuildMarkdownHeader(m: Meeting, stamp: int -> string) returns (s: string)
    ensures s == MarkdownHeader(m, stamp)
  {
    s := "# " + m.title + "\n\n";
    s := s + ("**Date:** " + stamp(m.startTime) + "\n");
    if m.endTime.Some? {
      s := s + DurationLine("**Duration:** ", m.endTime.value - m.startTime);
    }
    s := s + ("**Participants:** " + Join(m.participants, ", ") + "\n\n");
    s := s + "## Transcript\n\n";
  }

  /** The export loops: each line appended to `prefix` with its terminator. */
  method AppendTerminated(prefix: string, lines: seq<string>, terminator: string) returns (s: string)
    ensures s == prefix + Terminated(lines, terminator)
  {
    s := prefix;
    for i := 0 to |lines|
      invariant s == prefix + Terminated(lines[..i], terminator)
    {
      assert lines[..i + 1] == lines[..i] + [lines[i]];
      TerminatedSnoc(lines[..i], lines[i], terminator);
      s := s + lines[i] + terminator;
    }
    assert lines[..|lines|] == lines;
  }

  /** The decoding loop of `loadMeetings`: every entry that decodes is appended, in order. */
  method DecodeEntries(files: seq<DirectoryEntry>) returns (loaded: seq<Meeting>)
    ensures loaded == DecodedMeetings(files)
  {
    loaded := [];
    for i := 0 to |files|
      invariant loaded == DecodedMeetings(files[..i])
    {
      DecodedMeetingsSnoc(files, i);
      match files[i].decoded
      case Some(m) => loaded := loaded + [m];
      case None =>
    }
    assert files[..|files|] == files;
  }
}
