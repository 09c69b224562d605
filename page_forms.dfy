/** What the two landing pages (src/app/chapter1-event/page.tsx and
    src/app/page.tsx) compute without touching their state: the phone input
    formatter, the extension chosen for a recording, the order of the
    submit checks, the body sent to POST /api/event/submit and the delete
    filter over the listed files. Both pages define these the same way. */
module PageForms {
  import opened Common
  import opened Validations
  import opened Phone
  import EventRoutes

  // ---------------------------------------------------------------------
  // The phone input

  /** `value.replace(/[^\d]/g, "")`: the ASCII digits, in order. */
  function DigitsOnly(s: string): (r: string)
    ensures AllDigits(r) && |r| <= |s|
  {
    if s == [] then ""
    else (if IsDigit(s[0]) then [s[0]] else "") + DigitsOnly(s[1..])
  }

  lemma {:induction false} DigitsOnlyAppend(a: string, b: string)
    ensures DigitsOnly(a + b) == DigitsOnly(a) + DigitsOnly(b)
    decreases |a|
  {
    if a == [] {
      assert a + b == b;
    } else {
      var h := if IsDigit(a[0]) then [a[0]] else "";
      assert (a + b)[0] == a[0] && (a + b)[1..] == a[1..] + b;
      assert DigitsOnly(a + b) == h + DigitsOnly(a[1..] + b);
      DigitsOnlyAppend(a[1..], b);
      ConcatAssoc(h, DigitsOnly(a[1..]), DigitsOnly(b));
    }
  }

  lemma {:induction false} DigitsOnlyOfDigits(s: string)
    requires AllDigits(s)
    ensures DigitsOnly(s) == s
    decreases |s|
  {
    if s != [] {
      DigitsOnlyOfDigits(s[1..]);
    }
  }

  /** `.slice(0, 11)` of the digits: at most the first eleven. */
  function PhoneDigits(value: string): (n: string)
    ensures AllDigits(n) && n <= DigitsOnly(value)
    ensures |n| == if |DigitsOnly(value)| <= 11 then |DigitsOnly(value)| else 11
  {
    var d := DigitsOnly(value);
    if |d| <= 11 then d else d[..11]
  }

  /** `handlePhoneChange`: no dash up to three digits, `ddd-rest` up to
      seven, `ddd-dddd-rest` beyond. */
  function FormatPhoneInput(value: string): (f: string)
    ensures var n := PhoneDigits(value);
      && (|n| <= 3 ==> f == n)
      && (3 < |n| <= 7 ==> |f| == |n| + 1 && f[3] == '-' && f[..3] == n[..3] && f[4..] == n[3..])
      && (7 < |n| ==> |f| == |n| + 2 && f[3] == '-' && f[8] == '-'
                      && f[..3] == n[..3] && f[4..8] == n[3..7] && f[9..] == n[7..])
  {
    var n := PhoneDigits(value);
    if |n| <= 3 then n
    else if |n| <= 7 then n[..3] + "-" + n[3..]
    else n[..3] + "-" + n[3..7] + "-" + n[7..]
  }

  /** A dash between two texts is dropped by both the digit filter and
      `cleanPhoneNumber`. */
  lemma DashDropped(x: string, y: string)
    ensures DigitsOnly(x + "-" + y) == DigitsOnly(x) + DigitsOnly(y)
    ensures CleanPhone(x + "-" + y) == CleanPhone(x) + CleanPhone(y)
  {
    DashDroppedByFilter(x, y);
    CleanDash(x, y);
  }

  lemma DashDroppedByFilter(x: string, y: string)
    ensures DigitsOnly(x + "-" + y) == DigitsOnly(x) + DigitsOnly(y)
  {
    assert DigitsOnly("-") == "";
    DigitsOnlyAppend(x + "-", y);
    DigitsOnlyAppend(x, "-");
    assert DigitsOnly(x + "-") == DigitsOnly(x);
  }

  /** Digits pass both filters unchanged. */
  lemma DigitsKept(n: string)
    requires AllDigits(n)
    ensures DigitsOnly(n) == n && CleanPhone(n) == n
  {
    DigitsOnlyOfDigits(n);
    CleanNoSeparators(n);
  }

  /** The formatted text holds exactly the kept digits, and
      `cleanPhoneNumber` gives them back. */
  lemma FormattedDigits(value: string)
    ensures DigitsOnly(FormatPhoneInput(value)) == PhoneDigits(value)
    ensures CleanPhone(FormatPhoneInput(value)) == PhoneDigits(value)
  {
    var n := PhoneDigits(value);
    if |n| <= 3 {
      DigitsKept(n);
    } else if |n| <= 7 {
      var a, b := n[..3], n[3..];
      assert n == a + b;
      DashDropped(a, b);
      DigitsKept(a);
      DigitsKept(b);
    } else {
      var a, b, c := n[..3], n[3..7], n[7..];
      assert n == a + b + c;
      DashDropped(a + "-" + b, c);
      DashDropped(a, b);
      DigitsKept(a);
      DigitsKept(b);
      DigitsKept(c);
    }
  }

  /** Typing over the formatted text changes nothing: the formatter is
      idempotent. */
  lemma FormatPhoneInputIdempotent(value: string)
    ensures FormatPhoneInput(FormatPhoneInput(value)) == FormatPhoneInput(value)
  {
    FormattedDigits(value);
    assert PhoneDigits(FormatPhoneInput(value)) == PhoneDigits(value);
  }

  /** `validateKoreanPhone` on the formatted input judges just the kept
      digits. */
  lemma PhoneCheckSeesDigits(value: string)
    ensures ValidateKoreanPhone(FormatPhoneInput(value)) <==> IsMobileNumber(PhoneDigits(value))
  {
    FormattedDigits(value);
  }

  // ---------------------------------------------------------------------
  // Recordings

  /** The extension for a recorded blob's type: "webm" first, then
      mp4/m4a, then mpeg/mp3, and "m4a" otherwise. */
  function RecordingExtension(mime: string): (e: string)
    ensures e in {"webm", "m4a", "mp3"}
    ensures e == "webm" <==> Contains(mime, "webm")
    ensures e == "mp3" <==>
      !Contains(mime, "webm") && !Contains(mime, "mp4") && !Contains(mime, "m4a")
      && (Contains(mime, "mpeg") || Contains(mime, "mp3"))
  {
    if Contains(mime, "webm") then "webm"
    else if Contains(mime, "mp4") || Contains(mime, "m4a") then "m4a"
    else if Contains(mime, "mpeg") || Contains(mime, "mp3") then "mp3"
    else "m4a"
  }

  /** `recording-${clipIndex}.${extension}`. */
  function RecordingFilename(clipIndex: int, mime: string): string {
    "recording-" + IntToString(clipIndex) + "." + RecordingExtension(mime)
  }

  /** A non-empty extension without `'.'` after the last `'.'` is what the
      presign route reads back as the extension. */
  lemma LastPieceOfDotted(prefix: string, ext: string)
    requires |ext| > 0 && forall k :: 0 <= k < |ext| ==> ext[k] != '.'
    ensures EventRoutes.LastPiece(prefix + "." + ext) == ext
  {
    var fn := prefix + "." + ext;
    var e := EventRoutes.LastPiece(fn);
    EventRoutes.EventExtensionFacts(fn);
    assert fn[|fn| - |ext| - 1] == '.';
    assert fn[|fn| - |ext|..] == ext;
  }

  /** The presign route takes from a recording's filename the extension the
      page chose. */
  lemma PresignKeepsRecordingExtension(clipIndex: int, mime: string)
    ensures EventRoutes.EventExtension(RecordingFilename(clipIndex, mime)) == RecordingExtension(mime)
  {
    var ext := RecordingExtension(mime);
    assert forall k :: 0 <= k < |ext| ==> ext[k] != '.';
    LastPieceOfDotted("recording-" + IntToString(clipIndex), ext);
  }

  // ---------------------------------------------------------------------
  // The listed files

  const MaxFiles := 3
  const MinRecordingBytes := 100

  /** An entry of the `audioFiles` state. */
  datatype AudioFile = AudioFile(
    clipIndex: int, s3Key: string, filename: string, duration: real,
    mimeType: string, size: nat, audioUrl: Option<string>)

  /** The body of the presign request: `clipIndex` is `Date.now()`. */
  datatype UploadRequest = UploadRequest(filename: string, contentType: string, size: nat, clipIndex: int, sessionId: string)

  /** What the presign, PUT and confirm calls hand back when all succeed. */
  datatype Uploaded = Uploaded(s3Key: string, s3Url: Option<string>)

  /** What a handler shows in its toast. */
  datatype Notice =
    | Ignored | LimitReached | Saved | UploadFailed | Deleted
    | Invalid(error: FormError) | Submitted | SubmitFailed

  function RecordingRequest(blobType: string, blobSize: nat, now: int, sessionId: string): (req: UploadRequest)
    ensures req.filename == RecordingFilename(now, blobType) && req.clipIndex == now
  {
    UploadRequest(RecordingFilename(now, blobType), blobType, blobSize, now, sessionId)
  }

  /** The entry appended once a request's upload succeeds. */
  function UploadedFile(req: UploadRequest, duration: real, u: Uploaded): (f: AudioFile)
    ensures f.clipIndex == req.clipIndex && f.filename == req.filename && f.s3Key == u.s3Key
  {
    AudioFile(req.clipIndex, u.s3Key, req.filename, duration, req.contentType, req.size, u.s3Url)
  }

  /** `prev.filter((f) => f.clipIndex !== clipIndex)`. */
  function WithoutClip(files: seq<AudioFile>, clipIndex: int): (r: seq<AudioFile>)
    ensures |r| <= |files|
    ensures forall f :: f in r ==> f in files && f.clipIndex != clipIndex
    ensures forall f :: f in files && f.clipIndex != clipIndex ==> f in r
  {
    if files == [] then []
    else (if files[0].clipIndex != clipIndex then [files[0]] else []) + WithoutClip(files[1..], clipIndex)
  }

  /** The filter works entry by entry, so the kept entries stay in order. */
  lemma {:induction false} WithoutClipAppend(a: seq<AudioFile>, b: seq<AudioFile>, clipIndex: int)
    ensures WithoutClip(a + b, clipIndex) == WithoutClip(a, clipIndex) + WithoutClip(b, clipIndex)
    decreases |a|
  {
    if a == [] {
      assert a + b == b;
    } else {
      var h := if a[0].clipIndex != clipIndex then [a[0]] else [];
      assert (a + b)[0] == a[0] && (a + b)[1..] == a[1..] + b;
      assert WithoutClip(a + b, clipIndex) == h + WithoutClip(a[1..] + b, clipIndex);
      WithoutClipAppend(a[1..], b, clipIndex);
      ConcatAssoc(h, WithoutClip(a[1..], clipIndex), WithoutClip(b, clipIndex));
    }
  }

  /** Deleting a clip that is not listed changes nothing. */
  lemma {:induction false} WithoutAbsentClip(files: seq<AudioFile>, clipIndex: int)
    requires forall i :: 0 <= i < |files| ==> files[i].clipIndex != clipIndex
    ensures WithoutClip(files, clipIndex) == files
    decreases |files|
  {
    if files != [] {
      WithoutAbsentClip(files[1..], clipIndex);
    }
  }

  // ---------------------------------------------------------------------
  // Submitting

  datatype FormError = NameMissing | BirthDateMissing | PhoneInvalid | NoFiles | SubjectOtherMissing

  /** The event page's checks in their order; the first one that fails is
      reported and nothing is sent. */
  function EventFormCheck(name: string, birthDate: string, phone: string, fileCount: nat): (r: Option<FormError>)
    ensures r.None? <==> Trim(name) != "" && birthDate != "" && ValidateKoreanPhone(phone) && fileCount > 0
    ensures r == Some(NameMissing) <==> Trim(name) == ""
    ensures r == Some(BirthDateMissing) <==> Trim(name) != "" && birthDate == ""
    ensures r == Some(PhoneInvalid) <==> Trim(name) != "" && birthDate != "" && !ValidateKoreanPhone(phone)
    ensures r == Some(NoFiles) <==> Trim(name) != "" && birthDate != "" && ValidateKoreanPhone(phone) && fileCount == 0
  {
    if Trim(name) == "" then Some(NameMissing)
    else if birthDate == "" then Some(BirthDateMissing)
    else if !ValidateKoreanPhone(phone) then Some(PhoneInvalid)
    else if fileCount == 0 then Some(NoFiles)
    else None
  }

  const OtherSubject := "기타"

  /** The home page's checks: the event page's four, then a non-blank
      `subjectOther` when the subject is "기타". */
  function LandingFormCheck(name: string, birthDate: string, phone: string, fileCount: nat,
                            subjectType: string, subjectOther: string): (r: Option<FormError>)
    ensures EventFormCheck(name, birthDate, phone, fileCount).Some? ==> r == EventFormCheck(name, birthDate, phone, fileCount)
    ensures EventFormCheck(name, birthDate, phone, fileCount).None? ==>
      (r.None? <==> !(subjectType == OtherSubject && Trim(subjectOther) == ""))
    ensures r.Some? ==> r.value != SubjectOtherMissing || (subjectType == OtherSubject && Trim(subjectOther) == "")
  {
    var first := EventFormCheck(name, birthDate, phone, fileCount);
    if first.Some? then first
    else if subjectType == OtherSubject && Trim(subjectOther) == "" then Some(SubjectOtherMissing)
    else None
  }

  /** The listed files as the submit schema sees them (`audioUrl` is dropped). */
  function Entries(files: seq<AudioFile>): (r: seq<AudioFileEntry>)
    ensures |r| == |files|
    ensures forall i :: 0 <= i < |files| ==> r[i].s3Key == files[i].s3Key && r[i].clipIndex == files[i].clipIndex as real
  {
    if files == [] then []
    else
      var f := files[0];
      [AudioFileEntry(f.s3Key, f.filename, f.duration, f.mimeType, f.size as real, f.clipIndex as real)] + Entries(files[1..])
  }

  /** The event page's body: the cleaned phone and the subject "본인". */
  function EventSubmitBody(name: string, birthDate: string, phone: string, files: seq<AudioFile>): SubmissionInput {
    SubmissionInput(Some(name), Some(birthDate), Some(CleanPhone(phone)), Some("본인"), None, Some(Entries(files)))
  }

  /** The home page's body: `subjectOther` only for "기타". */
  function LandingSubmitBody(name: string, birthDate: string, phone: string, subjectType: string,
                             subjectOther: string, files: seq<AudioFile>): SubmissionInput {
    SubmissionInput(Some(name), Some(birthDate), Some(CleanPhone(phone)), Some(subjectType),
                    if subjectType == OtherSubject then Some(subjectOther) else None, Some(Entries(files)))
  }

  lemma NonBlankIsNonEmpty(s: string)
    requires Trim(s) != ""
    ensures |s| >= 1
  {
  }

  /** A form that passes the event page's checks is accepted by the submit
      route, which stores the phone as typed digits without separators. */
  lemma CheckedEventFormIsAccepted(name: string, birthDate: string, phone: string, files: seq<AudioFile>)
    requires EventFormCheck(name, birthDate, phone, |files|).None?
    ensures ParseSubmission(EventSubmitBody(name, birthDate, phone, files)).Some?
    ensures ParseSubmission(EventSubmitBody(name, birthDate, phone, files)).value.phone == CleanPhone(phone)
  {
    NonBlankIsNonEmpty(name);
    assert "본인" in SubjectTypes;
  }

  /** A form that passes the home page's checks, with a subject from the
      radio group, is accepted by the submit route; the stored row carries
      a non-blank `subjectOther` for "기타" and none for any other subject. */
  lemma CheckedLandingFormIsAccepted(name: string, birthDate: string, phone: string, subjectType: string,
                                     subjectOther: string, files: seq<AudioFile>, id: string, now: int)
    requires subjectType in SubjectTypes
    requires LandingFormCheck(name, birthDate, phone, |files|, subjectType, subjectOther).None?
    ensures ParseSubmission(LandingSubmitBody(name, birthDate, phone, subjectType, subjectOther, files)).Some?
    ensures var row := EventRoutes.RowOf(id, ParseSubmission(LandingSubmitBody(name, birthDate, phone, subjectType, subjectOther, files)).value, now);
      && (subjectType == OtherSubject ==> row.subjectOther == Some(subjectOther) && Trim(subjectOther) != "")
      && (subjectType != OtherSubject ==> row.subjectOther.None?)
  {
    NonBlankIsNonEmpty(name);
  }
}
