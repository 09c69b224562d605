/** The two unauthenticated event routes: POST /api/event/presign
    (src/app/api/event/presign/route.ts) and POST /api/event/submit
    (src/app/api/event/submit/route.ts). */
module EventRoutes {
  import opened Common
  import opened Text
  import opened Validations
  import opened Phone

  // ---------------------------------------------------------------------
  // POST /api/event/presign

  /** `filename.split(".").pop()`: the last `'.'`-separated piece. */
  function LastPiece(filename: string): string {
    var parts := Split(filename, ".");
    parts[|parts| - 1]
  }

  /** `filename.split(".").pop() || "webm"`. */
  function EventExtension(filename: string): string {
    var e := LastPiece(filename);
    if e == "" then "webm" else e
  }

  /** `last` ends `s` and is either all of it or preceded by `sep`. */
  predicate SuffixAfterSeparator(s: string, last: string, sep: string) {
    && |last| <= |s| && s[|s| - |last|..] == last
    && (|last| == |s| || (|last| + |sep| <= |s| && s[|s| - |last| - |sep|..|s| - |last|] == sep))
  }

  /** A separated suffix of `rest` is a separated suffix of `a + sep + rest`. */
  lemma SuffixAfterSeparatorExtend(a: string, sep: string, rest: string, last: string)
    requires SuffixAfterSeparator(rest, last, sep)
    ensures SuffixAfterSeparator(a + sep + rest, last, sep)
  {
    var s := a + sep + rest;
    var k := |a| + |sep|;
    assert s[k..] == rest;
    var n := |s| - |last|;
    assert s[n..] == rest[|rest| - |last|..];
    if |last| == |rest| {
      assert s[n - |sep|..n] == sep;
    } else {
      assert s[n - |sep|..n] == rest[|rest| - |last| - |sep|..|rest| - |last|];
    }
  }

  /** The last piece of a split is a suffix of the string, preceded by the
      separator unless it is the whole string. */
  lemma {:induction false} SplitLastIsSuffix(s: string, sep: string)
    requires |sep| > 0
    ensures SuffixAfterSeparator(s, Split(s, sep)[|Split(s, sep)| - 1], sep)
    decreases |s|
  {
    match FindFirst(s, sep)
    case None =>
      assert Split(s, sep) == [s];
    case Some(i) =>
      var rest := s[i + |sep|..];
      var parts := Split(rest, sep);
      var last := parts[|parts| - 1];
      assert Split(s, sep) == [s[..i]] + parts by {
        SplitStep(s, sep, i);
      }
      assert Split(s, sep)[|Split(s, sep)| - 1] == last;
      assert SuffixAfterSeparator(s, last, sep) by {
        SplitLastIsSuffix(rest, sep);
        SuffixAfterSeparatorExtend(s[..i], sep, rest, last);
        SplitStep(s, sep, i);
      }
  }

  /** The extension is the text after the last `'.'`: a suffix of the name
      with no `'.'` in it, preceded by a `'.'` unless it is the whole name.
      A name without `'.'` is its own extension, and a name ending in `'.'`
      gets "webm". */
  lemma EventExtensionFacts(filename: string)
    ensures var e := LastPiece(filename);
      && |e| <= |filename| && filename[|filename| - |e|..] == e
      && (forall k :: 0 <= k < |e| ==> e[k] != '.')
      && (|e| == |filename| || filename[|filename| - |e| - 1] == '.')
    ensures (forall k :: 0 <= k < |filename| ==> filename[k] != '.') ==> LastPiece(filename) == filename
    ensures |filename| > 0 && filename[|filename| - 1] == '.' ==> EventExtension(filename) == "webm"
  {
    var parts := Split(filename, ".");
    var e := parts[|parts| - 1];
    SplitLastIsSuffix(filename, ".");
    SplitPiecesFree(filename, ".");
    assert e in parts;
    forall k | 0 <= k < |e| ensures e[k] != '.' {
      assert !OccursAt(e, ".", k);
      assert e[k..k + 1] == [e[k]];
    }
    if |e| < |filename| {
      assert filename[|filename| - |e| - 1..|filename| - |e|] == ".";
    }
    if forall k :: 0 <= k < |filename| ==> filename[k] != '.' {
      NoSeparatorSplit(filename, ".");
    }
    if |filename| > 0 && filename[|filename| - 1] == '.' && |e| > 0 {
      assert false;
    }
  }

  datatype EventPresignReply = EventPresignReply(uploadUrl: string, s3Key: string, clipIndex: real, useLocalUpload: bool)

  const LocalUploadUrl := "/api/event/upload"

  /** The handler: 400 (`None`) when the schema rejects the body after the
      content type is cut at `';'`; otherwise the local upload endpoint, the
      key `eventKey(sessionId, clipIndex, extension)` and the clip index. */
  function EventPresign(body: EventAudioUpload, eventKey: (string, real, string) -> string): (r: Option<EventPresignReply>)
    ensures var u := body.(contentType := NormalizeContentType(body.contentType));
      && (r.Some? <==> EventAudioUploadValid(u))
      && (r.Some? ==>
            && r.value.uploadUrl == LocalUploadUrl && r.value.useLocalUpload
            && r.value.clipIndex == u.clipIndex.value
            && r.value.s3Key == eventKey(u.sessionId.value, u.clipIndex.value, EventExtension(u.filename.value)))
  {
    var u := body.(contentType := NormalizeContentType(body.contentType));
    if !EventAudioUploadValid(u) then None
    else
      Some(EventPresignReply(LocalUploadUrl, eventKey(u.sessionId.value, u.clipIndex.value, EventExtension(u.filename.value)),
                             u.clipIndex.value, true))
  }

  // ---------------------------------------------------------------------
  // POST /api/event/submit

  /** The values of the INSERT: `$8` is used for both timestamps. */
  datatype SubmissionRow = SubmissionRow(
    id: string, name: string, birthDate: string, phone: string, subjectType: string,
    subjectOther: Option<string>, audioFiles: seq<AudioFileEntry>, status: string, createdAt: int, updatedAt: int)

  const OtherSubject := "기타"

  /** The row written for a parsed submission, with the database's id and
      the time. */
  function RowOf(id: string, s: Submission, now: int): (row: SubmissionRow)
    ensures row.phone == CleanPhone(s.phone)
    ensures row.subjectOther == (if s.subjectType == OtherSubject then s.subjectOther else None)
    ensures row.status == "PENDING" && row.createdAt == row.updatedAt == now
    ensures row.name == s.name && row.birthDate == s.birthDate && row.subjectType == s.subjectType && row.audioFiles == s.audioFiles
  {
    SubmissionRow(id, s.name, s.birthDate, CleanPhone(s.phone), s.subjectType,
                  if s.subjectType == OtherSubject then s.subjectOther else None,
                  s.audioFiles, "PENDING", now, now)
  }

  /** The submission table the route inserts into. */
  class SubmissionTable {
    var rows: seq<SubmissionRow>

    constructor ()
      ensures rows == []
    {
      rows := [];
    }

    /** 400 with nothing inserted when the schema rejects the body; 500 with
        nothing inserted when the insert fails (`newId` is `None`);
        otherwise one row is appended and its id returned. */
    method Submit(input: SubmissionInput, now: int, newId: Option<string>) returns (status: nat, submissionId: Option<string>)
      modifies this
      ensures ParseSubmission(input).None? ==> status == 400 && rows == old(rows) && submissionId.None?
      ensures ParseSubmission(input).Some? && newId.None? ==> status == 500 && rows == old(rows) && submissionId.None?
      ensures ParseSubmission(input).Some? && newId.Some? ==>
        && status == 200 && submissionId == newId
        && rows == old(rows) + [RowOf(newId.value, ParseSubmission(input).value, now)]
    {
      var parsed := ParseSubmission(input);
      if parsed.None? {
        return 400, None;
      }
      if newId.None? {
        return 500, None;
      }
      rows := rows + [RowOf(newId.value, parsed.value, now)];
      return 200, newId;
    }
  }

  /** The schema already demands a bare "01" plus eight or nine digits, so
      the stored phone is the submitted phone: cleaning has nothing left to
      remove, and the stored number passes `validateKoreanPhone`. */
  lemma StoredPhoneIsSubmittedPhone(input: SubmissionInput, id: string, now: int)
    requires ParseSubmission(input).Some?
    ensures RowOf(id, ParseSubmission(input).value, now).phone == input.phone.value
    ensures ValidateKoreanPhone(RowOf(id, ParseSubmission(input).value, now).phone)
  {
    var p := input.phone.value;
    assert forall i :: 0 <= i < |p| ==> IsDigit(p[i]);
    CleanNoSeparators(p);
  }
}
