/** The request schemas of src/lib/validations.ts as predicates over the
    parsed request records, and the content-type normalisation the upload
    routes apply before validating. Numbers are JavaScript numbers, modelled
    as reals: nothing here requires an integer unless the schema does. An
    optional field that is absent is `None`; a field of the wrong JSON type
    makes the whole request fail to parse and is not represented. */
module Validations {
  import opened Common
  import opened Text

  const MaxUploadBytes: real := 200.0 * 1024.0 * 1024.0

  /** The `contentType` enum of the account upload schema. */
  const AudioTypes: seq<string> :=
    ["audio/mpeg", "audio/mp3", "audio/wav", "audio/x-wav", "audio/m4a", "audio/x-m4a", "audio/mp4"]

  /** The event upload schema accepts WebM recordings too. */
  const EventAudioTypes: seq<string> := AudioTypes + ["audio/webm"]

  /** `if (contentType) contentType = contentType.split(';')[0]`: the codec
      parameters are cut off; an absent or empty value is left as it is. */
  function NormalizeContentType(contentType: Option<string>): (r: Option<string>)
    ensures contentType.None? ==> r.None?
    ensures contentType.Some? ==> r.Some? && StartsWith(contentType.value, r.value)
    ensures r.Some? ==> ';' !in r.value
  {
    match contentType
    case None => None
    case Some(s) =>
      if s == "" then Some(s)
      else
        var parts := Split(s, ";");
        SplitFirstPiece(s, ";");
        Some(parts[0])
  }

  /** The first piece of a split is a prefix of the string and contains no
      separator character when the separator has one character. */
  lemma SplitFirstPiece(s: string, sep: string)
    requires |sep| == 1
    ensures StartsWith(s, Split(s, sep)[0])
    ensures sep[0] !in Split(s, sep)[0]
  {
    var p := Split(s, sep)[0];
    match FindFirst(s, sep)
    case None =>
      forall k | 0 <= k < |s| ensures s[k] != sep[0] {
        if s[k] == sep[0] {
          assert s[k..k + 1] == sep;
          assert OccursAt(s, sep, k);
        }
      }
    case Some(i) =>
      assert p == s[..i];
      forall k | 0 <= k < i ensures s[k] != sep[0] {
        if s[k] == sep[0] {
          assert s[k..k + 1] == sep;
          assert OccursAt(s, sep, k);
        }
      }
  }

  /** Normalising an already normalised value changes nothing. */
  lemma NormalizeIdempotent(contentType: Option<string>)
    ensures NormalizeContentType(NormalizeContentType(contentType)) == NormalizeContentType(contentType)
  {
    match NormalizeContentType(contentType)
    case None =>
    case Some(s) =>
      if s != "" {
        NoSeparatorSplit(s, ";");
      }
  }

  /** A string without the separator splits into itself alone. */
  lemma NoSeparatorSplit(s: string, sep: string)
    requires |sep| == 1 && sep[0] !in s
    ensures Split(s, sep) == [s]
  {
    if FindFirst(s, sep).Some? {
      assert false;
    }
  }

  // ---------------------------------------------------------------------
  // Schemas

  datatype AudioUpload = AudioUpload(filename: Option<string>, contentType: Option<string>, size: Option<real>, clipIndex: Option<real>)

  /** `audioUploadSchema`: a non-empty filename, one of the listed audio
      types, at most 200 MiB, and a clip index between 1 and 3 inclusive
      (any number in that range, integer or not). */
  predicate AudioUploadValid(u: AudioUpload) {
    && u.filename.Some? && |u.filename.value| >= 1
    && u.contentType.Some? && u.contentType.value in AudioTypes
    && u.size.Some? && u.size.value <= MaxUploadBytes
    && u.clipIndex.Some? && 1.0 <= u.clipIndex.value <= 3.0
  }

  datatype EventAudioUpload = EventAudioUpload(
    filename: Option<string>, contentType: Option<string>, size: Option<real>, clipIndex: Option<real>, sessionId: Option<string>)

  /** `eventAudioUploadSchema`: as above with WebM allowed, any positive clip
      index (the client sends a timestamp) and a non-empty session id. */
  predicate EventAudioUploadValid(u: EventAudioUpload) {
    && u.filename.Some? && |u.filename.value| >= 1
    && u.contentType.Some? && u.contentType.value in EventAudioTypes
    && u.size.Some? && u.size.value <= MaxUploadBytes
    && u.clipIndex.Some? && u.clipIndex.value > 0.0
    && u.sessionId.Some? && |u.sessionId.value| >= 1
  }

  /** Every upload the account schema accepts is accepted by the event
      schema once a session id is added. */
  lemma AccountUploadIsEventUpload(u: AudioUpload, sessionId: string)
    requires AudioUploadValid(u) && |sessionId| >= 1
    ensures EventAudioUploadValid(EventAudioUpload(u.filename, u.contentType, u.size, u.clipIndex, Some(sessionId)))
  {
    assert u.contentType.value in EventAudioTypes by {
      var k :| 0 <= k < |AudioTypes| && AudioTypes[k] == u.contentType.value;
      assert EventAudioTypes[k] == AudioTypes[k];
    }
  }

  /** A title of 1 to 100 characters, when present. */
  predicate TitleValid(title: Option<string>, maxLength: nat) {
    title.None? || 1 <= |title.value| <= maxLength
  }

  /** `createProjectSchema`. */
  predicate CreateProjectValid(title: Option<string>) {
    TitleValid(title, 100)
  }

  const ProjectStatusNames: seq<string> := ["DRAFT", "UPLOADING", "PROCESSING", "COMPLETED", "FAILED"]

  /** `updateProjectSchema`. */
  predicate UpdateProjectValid(title: Option<string>, status: Option<string>) {
    TitleValid(title, 100) && (status.None? || status.value in ProjectStatusNames)
  }

  /** `updateDraftSchema`: only the title is constrained (1 to 200
      characters); the chapter list's shape is carried by its type. */
  predicate UpdateDraftValid(title: Option<string>) {
    TitleValid(title, 200)
  }

  /** `z.string().cuid()` is a check this model does not restate; the
      schemas that use it take it as a parameter. */
  predicate SubmitProjectValid(isCuid: string -> bool, projectId: Option<string>) {
    projectId.Some? && isCuid(projectId.value)
  }

  datatype RegenerateRequest = RegenerateRequest(draftId: Option<string>, chapterIndex: Option<real>, feedback: Option<string>)

  /** `regenerateSectionSchema`: a cuid, a chapter index of at least 0 (not
      required to be an integer) and feedback of 1 to 1000 characters. */
  predicate RegenerateValid(isCuid: string -> bool, r: RegenerateRequest) {
    && r.draftId.Some? && isCuid(r.draftId.value)
    && r.chapterIndex.Some? && r.chapterIndex.value >= 0.0
    && r.feedback.Some? && 1 <= |r.feedback.value| <= 1000
  }

  /** `exportRequestSchema`: a cuid and a format that is exactly "pdf" or "docx". */
  predicate ExportRequestValid(isCuid: string -> bool, projectId: Option<string>, format: Option<string>) {
    projectId.Some? && isCuid(projectId.value) && format.Some? && (format.value == "pdf" || format.value == "docx")
  }

  /** `createPaymentSchema`. */
  predicate CreatePaymentValid(isCuid: string -> bool, projectId: Option<string>) {
    projectId.Some? && isCuid(projectId.value)
  }

  const JobStatusNames: seq<string> := ["PENDING", "PROCESSING", "COMPLETED", "FAILED", "CANCELLED"]
  const JobTypeNames: seq<string> := ["STT", "EXTRACT", "WRITE", "EXPORT_PDF", "EXPORT_DOCX"]

  datatype JobQuery = JobQuery(status: Option<string>, jobType: Option<string>, projectId: Option<string>, limit: Option<real>, offset: Option<real>)
  datatype JobQueryValues = JobQueryValues(status: Option<string>, jobType: Option<string>, projectId: Option<string>, limit: real, offset: real)

  /** `jobQuerySchema.safeParse`: the parsed query with `limit` defaulting to
      20 and `offset` to 0, or `None` when a field is out of range. */
  function ParseJobQuery(isCuid: string -> bool, q: JobQuery): (r: Option<JobQueryValues>)
    ensures r.Some? ==> 1.0 <= r.value.limit <= 100.0 && r.value.offset >= 0.0
    ensures r.Some? ==> (q.limit.None? ==> r.value.limit == 20.0) && (q.limit.Some? ==> r.value.limit == q.limit.value)
    ensures r.Some? ==> (q.offset.None? ==> r.value.offset == 0.0) && (q.offset.Some? ==> r.value.offset == q.offset.value)
    ensures r.None? <==>
      || (q.status.Some? && q.status.value !in JobStatusNames)
      || (q.jobType.Some? && q.jobType.value !in JobTypeNames)
      || (q.projectId.Some? && !isCuid(q.projectId.value))
      || (q.limit.Some? && !(1.0 <= q.limit.value <= 100.0))
      || (q.offset.Some? && q.offset.value < 0.0)
  {
    var limit := if q.limit.Some? then q.limit.value else 20.0;
    var offset := if q.offset.Some? then q.offset.value else 0.0;
    if (q.status.Some? && q.status.value !in JobStatusNames)
      || (q.jobType.Some? && q.jobType.value !in JobTypeNames)
      || (q.projectId.Some? && !isCuid(q.projectId.value))
      || !(1.0 <= limit <= 100.0) || offset < 0.0
    then None
    else Some(JobQueryValues(q.status, q.jobType, q.projectId, limit, offset))
  }

  // ---------------------------------------------------------------------
  // Event submissions

  /** `^01[0-9]{8,9}$`: "01" followed by eight or nine ASCII digits. */
  predicate IsMobileNumber(s: string) {
    (|s| == 10 || |s| == 11) && s[0] == '0' && s[1] == '1' && AllDigits(s)
  }

  const SubjectTypes: seq<string> := ["본인", "부모님", "형제자매", "친구", "기타"]

  datatype AudioFileEntry = AudioFileEntry(s3Key: string, filename: string, duration: real, mimeType: string, size: real, clipIndex: real)

  datatype SubmissionInput = SubmissionInput(
    name: Option<string>, birthDate: Option<string>, phone: Option<string>,
    subjectType: Option<string>, subjectOther: Option<string>, audioFiles: Option<seq<AudioFileEntry>>)

  datatype Submission = Submission(
    name: string, birthDate: string, phone: string, subjectType: string,
    subjectOther: Option<string>, audioFiles: seq<AudioFileEntry>)

  /** `submissionSchema.safeParse`: the defaults are subject "본인" and an
      empty file list. */
  function ParseSubmission(s: SubmissionInput): (r: Option<Submission>)
    ensures r.Some? <==>
      && s.name.Some? && |s.name.value| >= 1
      && s.birthDate.Some? && |s.birthDate.value| >= 1
      && s.phone.Some? && IsMobileNumber(s.phone.value)
      && (s.subjectType.None? || s.subjectType.value in SubjectTypes)
    ensures r.Some? ==> r.value.phone == s.phone.value && r.value.name == s.name.value && r.value.birthDate == s.birthDate.value
    ensures r.Some? ==> r.value.subjectType == (if s.subjectType.Some? then s.subjectType.value else "본인")
    ensures r.Some? ==> r.value.audioFiles == (if s.audioFiles.Some? then s.audioFiles.value else [])
    ensures r.Some? ==> r.value.subjectOther == s.subjectOther
  {
    if s.name.Some? && |s.name.value| >= 1
      && s.birthDate.Some? && |s.birthDate.value| >= 1
      && s.phone.Some? && IsMobileNumber(s.phone.value)
      && (s.subjectType.None? || s.subjectType.value in SubjectTypes)
    then
      Some(Submission(s.name.value, s.birthDate.value, s.phone.value,
                      if s.subjectType.Some? then s.subjectType.value else "본인",
                      s.subjectOther,
                      if s.audioFiles.Some? then s.audioFiles.value else []))
    else None
  }

  const SubmissionStatusNames: seq<string> := ["PENDING", "CONTACTED", "PROCESSING", "COMPLETED"]

  /** `updateSubmissionSchema`. */
  predicate UpdateSubmissionValid(status: Option<string>) {
    status.None? || status.value in SubmissionStatusNames
  }

  // ---------------------------------------------------------------------
  // The cases of src/__tests__/validations.test.ts

  lemma ValidationExamples(isCuid: string -> bool)
    requires isCuid("clj1234567890abcdefghij")
    ensures AudioUploadValid(AudioUpload(Some("recording.mp3"), Some("audio/mpeg"), Some(1024.0 * 1024.0), Some(1.0)))
    ensures !AudioUploadValid(AudioUpload(Some("recording.mp3"), Some("audio/mpeg"), Some(201.0 * 1024.0 * 1024.0), Some(1.0)))
    ensures !AudioUploadValid(AudioUpload(Some("video.mp4"), Some("video/mp4"), Some(1024.0 * 1024.0), Some(1.0)))
    ensures !AudioUploadValid(AudioUpload(Some("recording.mp3"), Some("audio/mpeg"), Some(1024.0 * 1024.0), Some(4.0)))
    ensures CreateProjectValid(None) && CreateProjectValid(Some("My Book"))
    ensures !CreateProjectValid(Some(seq(101, _ => 'a')))
    ensures ExportRequestValid(isCuid, Some("clj1234567890abcdefghij"), Some("pdf"))
    ensures !ExportRequestValid(isCuid, Some("clj1234567890abcdefghij"), Some("txt"))
  {
    assert "video/mp4" != "audio/mpeg";
  }

  /** The clip index need not be an integer: 1.5 is accepted. */
  lemma FractionalClipIndexAccepted()
    ensures AudioUploadValid(AudioUpload(Some("a.mp3"), Some("audio/mpeg"), Some(1.0), Some(1.5)))
  {
  }
}
