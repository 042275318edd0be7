/**
 * The checks `transcribe_audio` applies to an upload before transcribing it, the
 * temporary file's suffix chosen from the content type, and the assembly of the
 * transcript from the recogniser's segments.
 */
module Upload {
  import opened Wrappers
  import opened Text

  const MaxFileSize: nat := 25 * 1024 * 1024

  const AllowedTypes: seq<string> :=
    ["audio/webm", "audio/mp4", "audio/mpeg", "audio/wav", "audio/x-wav", "audio/ogg", "video/webm"]

  const Extensions: set<string> := {".webm", ".mp4", ".mp3", ".wav", ".ogg"}

  const TooLarge := HttpError(413, "Audio file too large. Maximum size is 25MB.")

  /** The f-string rendering of the content type, which is `None` when the client sent none. */
  function ShowContentType(contentType: Option<string>): string {
    match contentType
    case None => "None"
    case Some(t) => t
  }

  function UnsupportedFormat(contentType: Option<string>): HttpError {
    HttpError(400, "Unsupported audio format: " + ShowContentType(contentType))
  }

  /** The suffix of the temporary audio file: the first of mp4, mpeg, wav, ogg the type mentions. */
  function ExtensionFor(contentType: string): (r: string)
    ensures r in Extensions
    ensures (!Contains(contentType, "mp4") && !Contains(contentType, "mpeg") &&
             !Contains(contentType, "wav") && !Contains(contentType, "ogg")) ==> r == ".webm"
  {
    if Contains(contentType, "mp4") then ".mp4"
    else if Contains(contentType, "mpeg") then ".mp3"
    else if Contains(contentType, "wav") then ".wav"
    else if Contains(contentType, "ogg") then ".ogg"
    else ".webm"
  }

  lemma Occurs(s: string, pat: string, k: nat)
    requires k + |pat| <= |s| && s[k..k + |pat|] == pat
    ensures Contains(s, pat)
  {
    assert OccursAt(s, pat, k);
  }

  /** `pat` is not in `s` when one of its characters is nowhere in `s`. */
  lemma Absent(s: string, pat: string, j: nat)
    requires j < |pat|
    requires pat[j] !in s
    ensures !Contains(s, pat)
  {
    forall k | 0 <= k ensures !OccursAt(s, pat, k) {
      if k + |pat| <= |s| { assert s[k..k + |pat|][j] == s[k + j]; assert s[k + j] in s; }
    }
  }

  // In the three lemmas below "mp4" is ruled out by its '4', "mpeg" by its 'p',
  // "ogg" by its 'g' and "wav" by its 'v' or its 'a'.

  lemma WebmExtensions()
    ensures ExtensionFor("audio/webm") == ".webm"
    ensures ExtensionFor("video/webm") == ".webm"
  {
    Absent("audio/webm", "mp4", 2); Absent("audio/webm", "mpeg", 1);
    Absent("audio/webm", "wav", 2); Absent("audio/webm", "ogg", 1);
    Absent("video/webm", "mp4", 2); Absent("video/webm", "mpeg", 1);
    Absent("video/webm", "wav", 1); Absent("video/webm", "ogg", 1);
  }

  lemma Mp4MpegExtensions()
    ensures ExtensionFor("audio/mp4") == ".mp4"
    ensures ExtensionFor("audio/mpeg") == ".mp3"
  {
    Occurs("audio/mp4", "mp4", 6);
    Absent("audio/mpeg", "mp4", 2); Occurs("audio/mpeg", "mpeg", 6);
  }

  lemma WavOggExtensions()
    ensures ExtensionFor("audio/wav") == ".wav"
    ensures ExtensionFor("audio/x-wav") == ".wav"
    ensures ExtensionFor("audio/ogg") == ".ogg"
  {
    Absent("audio/wav", "mp4", 2); Absent("audio/wav", "mpeg", 1); Occurs("audio/wav", "wav", 6);
    Absent("audio/x-wav", "mp4", 2); Absent("audio/x-wav", "mpeg", 1); Occurs("audio/x-wav", "wav", 8);
    Absent("audio/ogg", "mp4", 2); Absent("audio/ogg", "mpeg", 1); Absent("audio/ogg", "wav", 0);
    Occurs("audio/ogg", "ogg", 6);
  }

  /** The suffix chosen for each of the seven accepted content types. */
  lemma ExtensionTable()
    ensures ExtensionFor("audio/webm") == ".webm"
    ensures ExtensionFor("audio/mp4") == ".mp4"
    ensures ExtensionFor("audio/mpeg") == ".mp3"
    ensures ExtensionFor("audio/wav") == ".wav"
    ensures ExtensionFor("audio/x-wav") == ".wav"
    ensures ExtensionFor("audio/ogg") == ".ogg"
    ensures ExtensionFor("video/webm") == ".webm"
  {
    WebmExtensions();
    Mp4MpegExtensions();
    WavOggExtensions();
  }

  /** Every accepted content type gets one of the five suffixes. */
  lemma AllowedTypeExtension(contentType: string)
    requires contentType in AllowedTypes
    ensures ExtensionFor(contentType) in Extensions
  {
    ExtensionTable();
  }

  /**
   * The size check, then the content-type check; on success the suffix of the
   * temporary file.
   */
  function CheckUpload(size: nat, contentType: Option<string>): (r: Result<string, HttpError>)
    ensures size > MaxFileSize ==> r == Err(TooLarge)
    ensures size <= MaxFileSize && (contentType.None? || contentType.value !in AllowedTypes) ==>
              r == Err(UnsupportedFormat(contentType))
    ensures r.Ok? <==> size <= MaxFileSize && contentType.Some? && contentType.value in AllowedTypes
    ensures r.Ok? ==> r.value in Extensions
  {
    if size > MaxFileSize then Err(TooLarge)
    else if contentType.None? || contentType.value !in AllowedTypes then Err(UnsupportedFormat(contentType))
    else
      AllowedTypeExtension(contentType.value);
      Ok(ExtensionFor(contentType.value))
  }

  /** An upload of exactly 25 MiB passes the size check. */
  lemma BoundaryPassesSizeCheck(contentType: Option<string>)
    ensures CheckUpload(26214400, contentType) != Err(TooLarge)
    ensures CheckUpload(26214401, contentType) == Err(TooLarge)
  {
  }

  /** The transcript: the segments joined with spaces, then stripped. */
  function AssembleTranscript(segments: seq<string>): (r: string)
    ensures r != [] ==> !IsSpace(r[0]) && !IsSpace(r[|r| - 1])
  {
    Strip(Join(segments, " "))
  }

  /** The transcript is empty exactly when every segment is whitespace only. */
  lemma TranscriptEmptyIff(segments: seq<string>)
    ensures AssembleTranscript(segments) == [] <==> forall i :: 0 <= i < |segments| ==> AllSpace(segments[i])
  {
    JoinAllSpace(segments);
  }
}
