/** The home page (src/app/page.tsx): the event form with a choice of whose
    autobiography it is, and the state its handlers update. The presign, upload and confirm calls are
    the parameter `upload`, and the submit call is `post`, which answers
    whether the response was ok. */
module LandingPage {
  import opened Common
  import opened Validations
  import opened PageForms

  class Page {
    const sessionId: string
    var name: string
    var birthDate: string
    var phone: string
    var subjectType: string
    var subjectOther: string
    var audioFiles: seq<AudioFile>
    var showConfirmation: bool
    var recorderKey: nat

    /** Never more than three files are listed. */
    predicate Valid()
      reads this
    {
      |audioFiles| <= MaxFiles
    }

    /** The first render, with the session id `generateSessionId` gave. */
    constructor (sessionId: string)
      ensures Valid()
      ensures this.sessionId == sessionId
      ensures name == "" && birthDate == "" && phone == "" && audioFiles == []
      ensures subjectType == "본인" && subjectOther == ""
      ensures !showConfirmation && recorderKey == 0
    {
      this.sessionId := sessionId;
      name, birthDate, phone := "", "", "";
      subjectType, subjectOther := "본인", "";
      audioFiles := [];
      showConfirmation := false;
      recorderKey := 0;
    }

    /** `handleRecordingComplete`: a blob under 100 bytes is ignored, a
        fourth file is refused, and otherwise the recording is uploaded as
        `recording-{now}.{extension}` and listed once every call succeeds. */
    method RecordingComplete(blobSize: nat, blobType: string, duration: real, now: int,
                             upload: UploadRequest -> Option<Uploaded>) returns (notice: Notice)
      requires Valid()
      modifies this`audioFiles
      ensures Valid()
      ensures blobSize < MinRecordingBytes ==> notice == Ignored && audioFiles == old(audioFiles)
      ensures blobSize >= MinRecordingBytes && |old(audioFiles)| >= MaxFiles ==>
        notice == LimitReached && audioFiles == old(audioFiles)
      ensures blobSize >= MinRecordingBytes && |old(audioFiles)| < MaxFiles ==>
        var req := RecordingRequest(blobType, blobSize, now, sessionId);
        && (upload(req).None? ==> notice == UploadFailed && audioFiles == old(audioFiles))
        && (upload(req).Some? ==> notice == Saved && audioFiles == old(audioFiles) + [UploadedFile(req, duration, upload(req).value)])
    {
      if blobSize < MinRecordingBytes {
        return Ignored;
      }
      if |audioFiles| >= MaxFiles {
        return LimitReached;
      }
      var req := RecordingRequest(blobType, blobSize, now, sessionId);
      var result := upload(req);
      if result.None? {
        return UploadFailed;
      }
      audioFiles := audioFiles + [UploadedFile(req, duration, result.value)];
      return Saved;
    }

    /** `handleFileUpload`: the same without the size guard, under the
        file's own name and with duration 0. */
    method FileUpload(fileName: string, fileType: string, fileSize: nat, now: int,
                      upload: UploadRequest -> Option<Uploaded>) returns (notice: Notice)
      requires Valid()
      modifies this`audioFiles
      ensures Valid()
      ensures |old(audioFiles)| >= MaxFiles ==> notice == LimitReached && audioFiles == old(audioFiles)
      ensures |old(audioFiles)| < MaxFiles ==>
        var req := UploadRequest(fileName, fileType, fileSize, now, sessionId);
        && (upload(req).None? ==> notice == UploadFailed && audioFiles == old(audioFiles))
        && (upload(req).Some? ==> notice == Saved && audioFiles == old(audioFiles) + [UploadedFile(req, 0.0, upload(req).value)])
    {
      if |audioFiles| >= MaxFiles {
        return LimitReached;
      }
      var req := UploadRequest(fileName, fileType, fileSize, now, sessionId);
      var result := upload(req);
      if result.None? {
        return UploadFailed;
      }
      audioFiles := audioFiles + [UploadedFile(req, 0.0, result.value)];
      return Saved;
    }

    /** `handleDeleteAudio`. */
    method DeleteAudio(clipIndex: int) returns (notice: Notice)
      requires Valid()
      modifies this`audioFiles
      ensures Valid()
      ensures audioFiles == WithoutClip(old(audioFiles), clipIndex) && notice == Deleted
    {
      audioFiles := WithoutClip(audioFiles, clipIndex);
      return Deleted;
    }

    /** `handlePhoneChange`. */
    method PhoneChange(value: string)
      modifies this`phone
      ensures phone == FormatPhoneInput(value)
    {
      phone := FormatPhoneInput(value);
    }

    /** `handleSubmit`: the first failing check is reported and nothing
        changes; a failed request changes nothing; a successful one opens
        the confirmation, clears the form, sets the subject back to "본인"
        and remounts the recorder. */
    method Submit(post: SubmissionInput -> bool) returns (notice: Notice)
      requires Valid()
      modifies this
      ensures Valid()
      ensures var check := LandingFormCheck(old(name), old(birthDate), old(phone), |old(audioFiles)|, old(subjectType), old(subjectOther));
        var body := LandingSubmitBody(old(name), old(birthDate), old(phone), old(subjectType), old(subjectOther), old(audioFiles));
        && (check.Some? ==> notice == Invalid(check.value) && unchanged(this))
        && (check.None? && !post(body) ==> notice == SubmitFailed && unchanged(this))
        && (check.None? && post(body) ==>
              && notice == Submitted && showConfirmation
              && name == "" && birthDate == "" && phone == "" && audioFiles == []
              && subjectType == "본인" && subjectOther == ""
              && recorderKey == old(recorderKey) + 1)
    {
      var check := LandingFormCheck(name, birthDate, phone, |audioFiles|, subjectType, subjectOther);
      if check.Some? {
        return Invalid(check.value);
      }
      if !post(LandingSubmitBody(name, birthDate, phone, subjectType, subjectOther, audioFiles)) {
        return SubmitFailed;
      }
      ResetAfterSubmit();
      return Submitted;
    }

    /** Lines 329-338: the confirmation opens and the form starts over. */
    method ResetAfterSubmit()
      modifies this
      ensures showConfirmation
      ensures name == "" && birthDate == "" && phone == "" && audioFiles == []
      ensures subjectType == "본인" && subjectOther == ""
      ensures recorderKey == old(recorderKey) + 1
    {
      showConfirmation := true;
      name, birthDate, phone := "", "", "";
      subjectType, subjectOther := "본인", "";
      audioFiles := [];
      recorderKey := recorderKey + 1;
    }
  }
}
