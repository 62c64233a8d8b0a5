/**
 * The naming conventions of MeetingHelper/Services/FileManagerService.swift: where meetings,
 * transcripts, audio and exported transcripts live, the `ExportFormat` enumeration, and the
 * `formattedDuration` rendering of a number of seconds.
 *
 * A URL is its list of path components; `documents` is the user's Documents directory.
 */
module FileNaming {
  import opened Wrappers
  import opened Text
  import opened Models

  type Url = seq<string>

  function MeetingsDirectory(documents: Url): Url {
    documents + ["MeetingHelper"]
  }

  function TranscriptsDirectory(documents: Url): Url {
    MeetingsDirectory(documents) + ["Transcripts"]
  }

  function AudioDirectory(documents: Url): Url {
    MeetingsDirectory(documents) + ["Audio"]
  }

  /** `"<uuidString>.<ext>"`: the per-entity file-name convention. */
  function EntityFileName(id: Uuid, ext: string): string {
    id + "." + ext
  }

  /** Where `saveMeeting` writes a meeting. */
  function MeetingFileUrl(documents: Url, id: Uuid): Url
  {
    MeetingsDirectory(documents) + [EntityFileName(id, "json")]
  }

  /** Where `saveTranscript` writes a meeting's transcript. */
  function TranscriptFileUrl(documents: Url, id: Uuid): Url
  {
    TranscriptsDirectory(documents) + [EntityFileName(id, "json")]
  }

  /** `getAudioFileURL(for:)`. */
  function AudioFileUrl(documents: Url, id: Uuid): Url
  {
    AudioDirectory(documents) + [EntityFileName(id, "m4a")]
  }

  /** The `.path` of a URL: each component preceded by a slash. */
  function PathString(u: Url): string {
    if u == [] then "" else PathString(u[..|u| - 1]) + "/" + u[|u| - 1]
  }

  /** `pathExtension`: what follows the last dot of a file name, or "" when there is no dot. */
  function PathExtension(name: string): string
    decreases |name|
  {
    if '.' !in name then ""
    else if name[|name| - 1] == '.' then ""
    else PathExtension(name[..|name| - 1]) + [name[|name| - 1]]
  }

  /** Whatever precedes it, a name ending in `"." + ext` has extension `ext` when `ext` has no dot. */
  lemma {:induction false} PathExtensionOfSuffix(prefix: string, ext: string)
    requires '.' !in ext
    ensures PathExtension(prefix + "." + ext) == ext
    decreases |ext|
  {
    var name := prefix + "." + ext;
    assert name[|prefix|] == '.';
    if ext != [] {
      var last := ext[|ext| - 1];
      assert name[|name| - 1] == last;
      assert name[..|name| - 1] == prefix + "." + ext[..|ext| - 1];
      PathExtensionOfSuffix(prefix, ext[..|ext| - 1]);
      assert ext == ext[..|ext| - 1] + [last];
    }
  }

  /** The id a per-entity file name was built from, if `name` is `"<uuid>.<ext>"`. */
  function IdFromFileName(name: string, ext: string): Option<Uuid> {
    var n := |name| - |ext| - 1;
    if n >= 0 && name[n..] == "." + ext && IsUuidString(name[..n]) then Some(name[..n]) else None
  }

  /** The id can be read back from its file name: the naming convention loses nothing. */
  lemma EntityFileNameRoundTrip(id: Uuid, ext: string)
    ensures IdFromFileName(EntityFileName(id, ext), ext) == Some(id)
  {
    var name := EntityFileName(id, ext);
    assert name[..|id|] == id;
    assert name[|id|..] == "." + ext;
  }

  /** Distinct meetings get distinct files, and the three kinds of file never share a location. */
  lemma FileUrlsAreDistinct(documents: Url, a: Uuid, b: Uuid)
    ensures MeetingFileUrl(documents, a) == MeetingFileUrl(documents, b) ==> a == b
    ensures TranscriptFileUrl(documents, a) == TranscriptFileUrl(documents, b) ==> a == b
    ensures AudioFileUrl(documents, a) == AudioFileUrl(documents, b) ==> a == b
    ensures MeetingFileUrl(documents, a) != TranscriptFileUrl(documents, b)
    ensures MeetingFileUrl(documents, a) != AudioFileUrl(documents, b)
    ensures TranscriptFileUrl(documents, a) != AudioFileUrl(documents, b)
  {
    var n := |documents|;
    if MeetingFileUrl(documents, a) == MeetingFileUrl(documents, b) {
      assert EntityFileName(a, "json") == MeetingFileUrl(documents, a)[n + 1];
      EntityFileNameRoundTrip(a, "json");
      EntityFileNameRoundTrip(b, "json");
    }
    if TranscriptFileUrl(documents, a) == TranscriptFileUrl(documents, b) {
      assert EntityFileName(a, "json") == TranscriptFileUrl(documents, a)[n + 2];
      EntityFileNameRoundTrip(a, "json");
      EntityFileNameRoundTrip(b, "json");
    }
    if AudioFileUrl(documents, a) == AudioFileUrl(documents, b) {
      assert EntityFileName(a, "m4a") == AudioFileUrl(documents, a)[n + 2];
      EntityFileNameRoundTrip(a, "m4a");
      EntityFileNameRoundTrip(b, "m4a");
    }
    assert TranscriptFileUrl(documents, a)[n + 1] != AudioFileUrl(documents, b)[n + 1];
  }

  /** A meeting file is recognised by `loadMeetings`' `.json` filter. */
  lemma MeetingFileIsJson(id: Uuid)
    ensures PathExtension(EntityFileName(id, "json")) == "json"
  {
    PathExtensionOfSuffix(id, "json");
  }

  /** `enum ExportFormat: String`; the raw value is also the `fileExtension`. */
  datatype ExportFormat = Text | Markdown | Json {
    function RawValue(): string {
      match this
      case Text => "txt"
      case Markdown => "md"
      case Json => "json"
    }

    function FileExtension(): string {
      RawValue()
    }

    function DisplayName(): string {
      match this
      case Text => "Plain Text"
      case Markdown => "Markdown"
      case Json => "JSON"
    }
  }

  /** `CaseIterable.allCases`. */
  const AllExportFormats: seq<ExportFormat> := [Text, Markdown, Json]

  /** `ExportFormat(rawValue:)`. */
  function ExportFormatFromRawValue(raw: string): (f: Option<ExportFormat>)
    ensures f.Some? ==> f.value.RawValue() == raw
  {
    if raw == "txt" then Some(Text)
    else if raw == "md" then Some(Markdown)
    else if raw == "json" then Some(Json)
    else None
  }

  /** The raw values name the formats one to one, and every format is listed once. */
  lemma ExportFormatRawValueRoundTrip(f: ExportFormat)
    ensures ExportFormatFromRawValue(f.RawValue()) == Some(f)
    ensures f in AllExportFormats
    ensures '.' !in f.FileExtension() && '_' !in f.FileExtension()
  {
  }

  /**
   * The file name `saveExportedTranscript` uses: title, an underscore, the start time through
   * the file-name date formatter (abstract here), and an extension written out per format.
   */
  function ExportFileName(title: string, formattedStart: string, format: ExportFormat): string {
    match format
    case Text => title + "_" + formattedStart + ".txt"
    case Markdown => title + "_" + formattedStart + ".md"
    case Json => title + "_" + formattedStart + ".json"
  }

  /** Where `saveExportedTranscript` writes. */
  function ExportFileUrl(documents: Url, meeting: Meeting, fileStamp: int -> string, format: ExportFormat): Url {
    TranscriptsDirectory(documents) + [ExportFileName(meeting.title, fileStamp(meeting.startTime), format)]
  }

  /** The extension written out per case agrees with the format's `fileExtension`, so it names the format. */
  lemma ExportFileNameNamesFormat(title: string, formattedStart: string, format: ExportFormat)
    ensures PathExtension(ExportFileName(title, formattedStart, format)) == format.FileExtension()
    ensures ExportFormatFromRawValue(PathExtension(ExportFileName(title, formattedStart, format))) == Some(format)
  {
    PathExtensionOfSuffix(title + "_" + formattedStart, format.FileExtension());
    assert ExportFileName(title, formattedStart, format) == title + "_" + formattedStart + "." + format.FileExtension();
  }

  /** An export shares the Transcripts directory but never overwrites a transcript file. */
  lemma ExportNeverOverwritesTranscript(documents: Url, meeting: Meeting, fileStamp: int -> string,
                                        format: ExportFormat, id: Uuid)
    ensures ExportFileUrl(documents, meeting, fileStamp, format) != TranscriptFileUrl(documents, id)
  {
    var n := |documents| + 2;
    var exported := ExportFileName(meeting.title, fileStamp(meeting.startTime), format);
    assert exported[|meeting.title|] == '_';
    assert ExportFileUrl(documents, meeting, fileStamp, format)[n] == exported;
    assert TranscriptFileUrl(documents, id)[n] == EntityFileName(id, "json");
    assert '_' !in EntityFileName(id, "json") by {
      assert '_' !in id;
      assert EntityFileName(id, "json") == id + ".json";
    }
  }

  // ---------------------------------------------------------------------------------------
  // `TimeInterval.formattedDuration`
  // ---------------------------------------------------------------------------------------

  /** Swift's `/` on `Int`: truncates toward zero. */
  function TruncDiv(a: int, b: int): int
    requires b > 0
  {
    if a >= 0 then a / b else -((-a) / b)
  }

  /** Swift's `%` on `Int`: the remainder takes the sign of the dividend. */
  function TruncRem(a: int, b: int): int
    requires b > 0
  {
    a - TruncDiv(a, b) * b
  }

  datatype DurationFields = DurationFields(hours: int, minutes: int, seconds: int)

  /** `Int(self) / 3600`, `Int(self) % 3600 / 60` and `Int(self) % 60`, for `total == Int(self)`. */
  function DurationParts(total: int): DurationFields {
    DurationFields(TruncDiv(total, 3600), TruncDiv(TruncRem(total, 3600), 60), TruncRem(total, 60))
  }

  /** `formattedDuration` of a time interval whose whole seconds are `total`. */
  function FormattedDuration(total: int): string {
    var p := DurationParts(total);
    if p.hours > 0 then FormatInt(p.hours) + ":" + FormatInt02(p.minutes) + ":" + FormatInt02(p.seconds)
    else FormatInt(p.minutes) + ":" + FormatInt02(p.seconds)
  }

  /** The fields are separated by colons, and a non-negative interval prints no minus sign. */
  lemma FormattedDurationSigns(total: int)
    ensures ':' in FormattedDuration(total)
    ensures total >= 0 ==> '-' !in FormattedDuration(total)
  {
    var p := DurationParts(total);
    if total >= 0 {
      DurationPartsFacts(total);
      assert '-' !in FormatInt(p.hours) && '-' !in FormatInt(p.minutes);
      assert '-' !in FormatInt02(p.minutes) && '-' !in FormatInt02(p.seconds);
    }
  }

  /** For whole seconds `s >= 0` the fields are hours, minutes below 60 and seconds below 60 adding up to `s`. */
  lemma DurationPartsSplit(s: nat)
    ensures DurationParts(s).hours == s / 3600
    ensures DurationParts(s).minutes == (s % 3600) / 60
    ensures DurationParts(s).seconds == s % 60
    ensures 0 <= DurationParts(s).minutes < 60 && 0 <= DurationParts(s).seconds < 60
    ensures DurationParts(s).hours * 3600 + DurationParts(s).minutes * 60 + DurationParts(s).seconds == s
  {
    var h, r := s / 3600, s % 3600;
    assert TruncRem(s, 3600) == r;
    var m, sec := r / 60, r % 60;
    assert s == h * 3600 + m * 60 + sec;
    assert s % 60 == sec;
  }

  /** What the renderings below need of the fields of a non-negative duration. */
  lemma DurationPartsFacts(s: nat)
    ensures var p := DurationParts(s);
      && p.hours >= 0 && 0 <= p.minutes < 60 && 0 <= p.seconds < 60
      && p.hours * 3600 + p.minutes * 60 + p.seconds == s
      && (p.hours > 0 <==> s >= 3600)
  {
    DurationPartsSplit(s);
  }

  /** A negative duration renders the fields of its magnitude, each negated (Swift truncation). */
  lemma DurationPartsOfNegative(t: int)
    requires t >= 0
    ensures DurationParts(-t) == DurationFields(-DurationParts(t).hours, -DurationParts(t).minutes, -DurationParts(t).seconds)
  {
    TruncNegated(t, 3600);
    TruncNegated(t, 60);
    TruncNegated(TruncRem(t, 3600), 60);
  }

  /** Truncating division and remainder of a negated dividend are the negated ones. */
  lemma TruncNegated(a: int, b: int)
    requires a >= 0 && b > 0
    ensures TruncDiv(-a, b) == -TruncDiv(a, b) && TruncRem(-a, b) == -TruncRem(a, b)
    ensures TruncRem(a, b) == a % b >= 0
  {
    if a > 0 {
      assert TruncDiv(-a, b) == -(a / b);
    }
  }

  /** Reads `"h:mm:ss"` or `"m:ss"` back into seconds. */
  function ParseDuration(text: string): Option<nat> {
    ParseDurationFields(Split(text, ':'))
  }

  /** Reads the colon-separated fields `[h, mm, ss]` or `[m, ss]` back into seconds. */
  function ParseDurationFields(fields: seq<string>): Option<nat> {
    if |fields| == 3 && AllDigits(fields[0]) && AllDigits(fields[1]) && AllDigits(fields[2]) then
      Some(ParseDecimal(fields[0]) * 3600 + ParseDecimal(fields[1]) * 60 + ParseDecimal(fields[2]))
    else if |fields| == 2 && AllDigits(fields[0]) && AllDigits(fields[1]) then
      Some(ParseDecimal(fields[0]) * 60 + ParseDecimal(fields[1]))
    else None
  }

  /** The colon-separated fields `formattedDuration` prints. */
  function DurationFieldTexts(total: int): seq<string> {
    var p := DurationParts(total);
    if p.hours > 0 then [FormatInt(p.hours), FormatInt02(p.minutes), FormatInt02(p.seconds)]
    else [FormatInt(p.minutes), FormatInt02(p.seconds)]
  }

  lemma FormattedDurationIsJoin(total: int)
    ensures FormattedDuration(total) == Join(DurationFieldTexts(total), ":")
  {
    var f := DurationFieldTexts(total);
    if |f| == 3 {
      assert f[1..][1..] == [f[2]];
      assert Join(f[1..], ":") == f[1] + ":" + f[2];
    } else {
      assert f[1..] == [f[1]];
    }
  }

  /** Each field of a non-negative duration is a string of digits denoting that field. */
  lemma DurationFieldTextsDenote(s: nat)
    ensures var f := DurationFieldTexts(s); var p := DurationParts(s);
      && (forall i :: 0 <= i < |f| ==> AllDigits(f[i]))
      && (p.hours > 0 ==> |f| == 3 && ParseDecimal(f[0]) == p.hours && ParseDecimal(f[1]) == p.minutes && ParseDecimal(f[2]) == p.seconds)
      && (p.hours <= 0 ==> |f| == 2 && ParseDecimal(f[0]) == p.minutes && ParseDecimal(f[1]) == p.seconds)
  {
    DurationPartsFacts(s);
    var p := DurationParts(s);
    PaddedRoundTrip(p.seconds);
    if p.hours > 0 {
      DecimalRoundTrip(p.hours);
      PaddedRoundTrip(p.minutes);
    } else {
      DecimalRoundTrip(p.minutes);
    }
  }

  /** The fields of a non-negative duration read back as that duration. */
  lemma ParseDurationFromFields(s: nat)
    ensures |DurationFieldTexts(s)| == if s >= 3600 then 3 else 2
    ensures ParseDurationFields(DurationFieldTexts(s)) == Some(s)
  {
    DurationPartsFacts(s);
    DurationFieldTextsDenote(s);
  }

  /**
   * For `s >= 0` the rendering has an hours field exactly when there is at least an hour, and
   * reading it back gives `s`: no information is lost.
   */
  lemma FormattedDurationRoundTrip(s: nat)
    ensures |Split(FormattedDuration(s), ':')| == if s >= 3600 then 3 else 2
    ensures ParseDuration(FormattedDuration(s)) == Some(s)
  {
    FormattedDurationIsJoin(s);
    SplitJoin(DurationFieldTexts(s), ':');
    ParseDurationFromFields(s);
  }
}
