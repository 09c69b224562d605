/** The shared state of the pipeline (the project, asset, job, transcript,
    story and draft tables and the per-stage queues) and one method per
    route or worker step that reads and writes it: project submission,
    upload presign and confirm, the STT, extract, write and export workers,
    and section regeneration. Each method does what its handler does, in
    the same order; calls to outside services are parameters. */
module Pipeline {
  import opened Common
  import opened Text
  import opened DraftText
  import opened Records
  import opened Validations
  import opened S3Keys

  /** `MAX_CLIPS` of the presign route. */
  const MaxClips: nat := 3

  /** The result of `s3Client.send(GetObjectCommand)` and `transformToByteArray`. */
  datatype AudioDownload = DownloadFailed(message: string) | NoBody | Body(bytes: Bytes)

  /** Whisper's reply: the full text and, when present, the segments. */
  datatype Transcription = Transcription(text: string, segments: Option<seq<Segment>>)

  /** A chat completion: the call throws, `choices[0].message.content` is
      empty or absent, `JSON.parse` (or the first use of the parsed value)
      throws, or the content parses to a value. */
  datatype Reply<T> = CallFailed(message: string) | NoContent | Unparsable(message: string) | Parsed(value: T)

  /** The fields of the write worker's `DraftResponse` it uses. */
  datatype DraftReply = DraftReply(title: Option<string>, chapters: seq<Chapter>)

  /** What the regeneration prompt is built from: the section, the feedback,
      the story data and the transcript excerpt. */
  datatype RegenPrompt = RegenPrompt(section: Chapter, feedback: string, story: Option<Json>, transcript: string)

  datatype PresignRequest = PresignRequest(
    projectId: Option<Id>, clipIndex: Option<real>, filename: Option<string>, contentType: Option<string>, size: Option<real>)

  datatype PresignReply = PresignReply(uploadUrl: string, audioAssetId: Id, s3Key: string)

  /** The regeneration request; an id that is not a cuid is `None`. */
  datatype RegenerateBody = RegenerateBody(draftId: Option<Id>, chapterIndex: Option<real>, feedback: Option<string>)

  const NoResponseMessage := "No response from OpenAI"
  const DownloadFailedMessage := "Failed to download audio file"
  const StoryNotFoundMessage := "Story not found"
  const DraftNotFoundMessage := "Draft not found"
  const PdfPlaceholder := "PDF export requires additional setup"
  const DefaultDraftTitle := "나의 자서전"
  const ContextLimit: nat := 3000

  /** The message a failed completion is rethrown with. */
  function ReplyError<T>(r: Reply<T>): string
    requires !r.Parsed?
  {
    match r
    case CallFailed(m) => m
    case NoContent => NoResponseMessage
    case Unparsable(m) => m
  }

  /** `draftData.title || "나의 자서전"`. */
  function TitleOr(title: Option<string>): (t: string)
    ensures title.Some? && title.value != "" ==> t == title.value
    ensures title.None? || title.value == "" ==> t == DefaultDraftTitle
  {
    if title.Some? && title.value != "" then title.value else DefaultDraftTitle
  }

  /** `s.substring(0, n)`. */
  function Prefix(s: string, n: nat): (r: string)
    ensures |r| <= n && StartsWith(s, r)
    ensures |s| <= n ==> r == s
  {
    if |s| <= n then s else s[..n]
  }

  predicate IsInteger(x: real) {
    x == x.Floor as real
  }

  /** `n` new PENDING rows of one project and type, with consecutive ids. */
  function NewJobs(first: Id, projectId: Id, t: JobType, n: nat, defaultProgress: int): (r: seq<Job>)
    ensures |r| == n
    ensures forall i :: 0 <= i < n ==> r[i] == NewJob(first + i, projectId, t, defaultProgress)
  {
    if n == 0 then [] else NewJobs(first, projectId, t, n - 1, defaultProgress) + [NewJob(first + n - 1, projectId, t, defaultProgress)]
  }

  /** New rows of one type add exactly their number to that type's count
      and nothing to any other. */
  lemma {:induction false} NewJobsCount(first: Id, p: Id, t: JobType, n: nat, dp: int, q: Id, s: JobType)
    ensures CountOfType(NewJobs(first, p, t, n, dp), q, s) == if q == p && s == t then n else 0
    decreases n
  {
    if n > 0 {
      NewJobsCount(first, p, t, n - 1, dp, q, s);
      CountOfTypeAppend(NewJobs(first, p, t, n - 1, dp), [NewJob(first + n - 1, p, t, dp)], q, s);
    }
  }

  /** One STT message per asset, carrying its id and key. */
  function SttMessages(projectId: Id, assets: seq<AudioAsset>): (r: seq<SttMessage>)
    ensures |r| == |assets|
    ensures forall i :: 0 <= i < |assets| ==> r[i] == SttMessage(projectId, assets[i].id, assets[i].s3Key)
  {
    if assets == [] then []
    else SttMessages(projectId, assets[..|assets| - 1]) + [SttMessage(projectId, assets[|assets| - 1].id, assets[|assets| - 1].s3Key)]
  }

  lemma SttMessagesSnoc(projectId: Id, assets: seq<AudioAsset>, i: nat)
    requires i < |assets|
    ensures SttMessages(projectId, assets[..i + 1]) == SttMessages(projectId, assets[..i]) + [SttMessage(projectId, assets[i].id, assets[i].s3Key)]
  {
    assert assets[..i + 1][..i] == assets[..i];
  }

  /** The upload the presign route validates: the content type is first
      stripped of its parameters. */
  function UploadOf(req: PresignRequest): AudioUpload {
    AudioUpload(req.filename, NormalizeContentType(req.contentType), req.size, req.clipIndex)
  }

  /** `getFileExtension(filename) || "webm"`. */
  function ExtensionOr(e: string): (r: string)
    ensures e != "" ==> r == e
    ensures e == "" ==> r == "webm"
  {
    if e == "" then "webm" else e
  }

  /** `clip-${clipIndex}.${extension}`. */
  function ClipFilename(clipIndex: int, extension: string): string {
    "clip-" + IntToString(clipIndex) + "." + extension
  }

  /** The presign route's write: the project's asset with this clip index, if
      there is one, gets the new names, type, size and key and keeps its id,
      clip index, duration and URL; otherwise a new asset is added. Returns
      the table and the asset's id. */
  function UpsertClip(assets: seq<AudioAsset>, projectId: Id, clipIndex: int, originalName: string, mimeType: string,
                      size: real, key: string, extension: string, newId: Id): (r: (seq<AudioAsset>, Id))
    ensures FindClip(assets, projectId, clipIndex).Some? ==>
      var k := FindClip(assets, projectId, clipIndex).value;
      r.0 == assets[k := assets[k].(filename := ClipFilename(clipIndex, extension), originalName := originalName,
                                    mimeType := mimeType, size := size, s3Key := key)]
      && r.1 == assets[k].id
    ensures FindClip(assets, projectId, clipIndex).None? ==>
      r.0 == assets + [AudioAsset(newId, projectId, clipIndex, ClipFilename(clipIndex, extension), originalName, mimeType, size, key, None, None)]
      && r.1 == newId
  {
    match FindClip(assets, projectId, clipIndex)
    case Some(k) =>
      (assets[k := assets[k].(filename := ClipFilename(clipIndex, extension), originalName := originalName,
                              mimeType := mimeType, size := size, s3Key := key)], assets[k].id)
    case None =>
      (assets + [AudioAsset(newId, projectId, clipIndex, ClipFilename(clipIndex, extension), originalName, mimeType, size, key, None, None)], newId)
  }

  /** Re-uploading a clip index replaces that asset and leaves every
      project's asset count as it was; a new clip index adds one asset to
      its own project and none to any other. */
  lemma UpsertClipCount(assets: seq<AudioAsset>, projectId: Id, clipIndex: int, originalName: string, mimeType: string,
                        size: real, key: string, extension: string, newId: Id, q: Id)
    ensures |AssetsOf(UpsertClip(assets, projectId, clipIndex, originalName, mimeType, size, key, extension, newId).0, q)|
         == |AssetsOf(assets, q)| + (if q == projectId && FindClip(assets, projectId, clipIndex).None? then 1 else 0)
  {
    var r := UpsertClip(assets, projectId, clipIndex, originalName, mimeType, size, key, extension, newId).0;
    match FindClip(assets, projectId, clipIndex)
    case Some(k) =>
      AssetsOfUpdate(assets, k, r[k], q);
    case None =>
      var a := AudioAsset(newId, projectId, clipIndex, ClipFilename(clipIndex, extension), originalName, mimeType, size, key, None, None);
      AssetsOfAppend(assets, [a], q);
      assert [a][1..] == [];
  }

  /** `prisma.extractedStory.upsert` keyed on the unique `projectId`: replace
      the data and add one to the version of the project's story, or create
      it with the initial version. Returns the table and the story's id. */
  function UpsertStory(stories: seq<Story>, projectId: Id, data: Json, newId: Id, initialVersion: int): (r: (seq<Story>, Id))
    ensures FindStoryOf(stories, projectId).Some? ==>
      var k := FindStoryOf(stories, projectId).value;
      r.0 == stories[k := stories[k].(data := data, version := stories[k].version + 1)] && r.1 == stories[k].id
    ensures FindStoryOf(stories, projectId).None? ==>
      r.0 == stories + [Story(newId, projectId, data, initialVersion)] && r.1 == newId
  {
    match FindStoryOf(stories, projectId)
    case Some(k) => (stories[k := stories[k].(data := data, version := stories[k].version + 1)], stories[k].id)
    case None => (stories + [Story(newId, projectId, data, initialVersion)], newId)
  }

  /** After an upsert the project has exactly one story, it holds the new
      data, and its version is one more than before or the initial one;
      every other story is unchanged. */
  lemma UpsertStoryFacts(stories: seq<Story>, projectId: Id, data: Json, newId: Id, initialVersion: int)
    requires forall i, j :: 0 <= i < j < |stories| ==> stories[i].projectId != stories[j].projectId
    ensures var (r, id) := UpsertStory(stories, projectId, data, newId, initialVersion);
      && (forall i, j :: 0 <= i < j < |r| ==> r[i].projectId != r[j].projectId)
      && (exists k :: 0 <= k < |r| && r[k].projectId == projectId && r[k].id == id && r[k].data == data
            && r[k].version == match FindStoryOf(stories, projectId)
                               case Some(o) => stories[o].version + 1
                               case None => initialVersion)
      && (forall i :: 0 <= i < |stories| && stories[i].projectId != projectId ==> stories[i] in r)
  {
    var (r, id) := UpsertStory(stories, projectId, data, newId, initialVersion);
    match FindStoryOf(stories, projectId)
    case Some(k) =>
      assert r[k].projectId == projectId;
      forall i | 0 <= i < |stories| && stories[i].projectId != projectId ensures stories[i] in r {
        assert r[i] == stories[i];
      }
    case None =>
      assert r[|stories|].projectId == projectId;
      forall i | 0 <= i < |stories| && stories[i].projectId != projectId ensures stories[i] in r {
        assert r[i] == stories[i];
      }
  }

  /** A project has at most one active draft, and it has the highest
      version among the project's drafts. */
  predicate ActiveIsUniqueAndNewest(drafts: seq<Draft>) {
    forall i, j ::
      (0 <= i < |drafts| && 0 <= j < |drafts| && i != j && drafts[i].isActive && drafts[j].projectId == drafts[i].projectId) ==>
      !drafts[j].isActive && drafts[j].version < drafts[i].version
  }

  /** Deactivating a project's drafts keeps the invariant. */
  lemma DeactivateKeepsInvariant(drafts: seq<Draft>, projectId: Id)
    requires ActiveIsUniqueAndNewest(drafts)
    ensures ActiveIsUniqueAndNewest(Deactivate(drafts, projectId))
  {
  }

  /** Adding an active draft to a project none of whose drafts is active,
      with a version above all of theirs, keeps the invariant. */
  lemma AddActiveKeepsInvariant(drafts: seq<Draft>, d: Draft)
    requires ActiveIsUniqueAndNewest(drafts)
    requires d.isActive
    requires forall i :: 0 <= i < |drafts| && drafts[i].projectId == d.projectId ==> !drafts[i].isActive && drafts[i].version < d.version
    ensures ActiveIsUniqueAndNewest(drafts + [d])
  {
    var r := drafts + [d];
    forall i, j | 0 <= i < |r| && 0 <= j < |r| && i != j && r[i].isActive && r[j].projectId == r[i].projectId
      ensures !r[j].isActive && r[j].version < r[i].version
    {
      if i == |drafts| {
        assert r[j] == drafts[j];
      } else if j < |drafts| {
        assert r[i] == drafts[i] && r[j] == drafts[j];
      }
    }
  }

  /** `regenerateSectionSchema` on the parsed body: a cuid draft id, a
      chapter index of at least 0 and feedback of 1 to 1000 characters. */
  predicate RegenerateBodyValid(body: RegenerateBody) {
    && body.draftId.Some?
    && body.chapterIndex.Some? && body.chapterIndex.value >= 0.0
    && body.feedback.Some? && 1 <= |body.feedback.value| <= 1000
  }

  // ---------------------------------------------------------------------
  // What the steps imply

  /** The job table after a successful STT run: started, all completed, one
      EXTRACT row added. */
  function SttSuccessJobs(jobs: seq<Job>, p: Id, now: int, extractId: Id, defaultProgress: int): seq<Job> {
    UpdateMany(UpdateMany(jobs, p, STT, true, Start(now)), p, STT, false, Complete(now)) + [NewJob(extractId, p, EXTRACT, defaultProgress)]
  }

  /** After a successful STT run every STT job of the project, whichever
      clip it was created for, is COMPLETED with progress 100 and the run's
      completion time; every other existing row is as it was. */
  lemma SttSuccessCompletesEveryClip(jobs: seq<Job>, p: Id, now: int, extractId: Id, dp: int)
    ensures var r := SttSuccessJobs(jobs, p, now, extractId, dp);
      && |r| == |jobs| + 1
      && (forall i :: 0 <= i < |jobs| && jobs[i].projectId == p && jobs[i].jobType == STT ==>
            r[i].status == JobStatus.COMPLETED && r[i].progress == 100 && r[i].completedAt == Some(now))
      && (forall i :: 0 <= i < |jobs| && !(jobs[i].projectId == p && jobs[i].jobType == STT) ==> r[i] == jobs[i])
      && r[|jobs|] == NewJob(extractId, p, EXTRACT, dp)
  {
    var started := UpdateMany(jobs, p, STT, true, Start(now));
    var done := UpdateMany(started, p, STT, false, Complete(now));
    UpdateManyRows(jobs, p, STT, true, Start(now));
    UpdateManyRows(started, p, STT, false, Complete(now));
    assert forall i :: 0 <= i < |jobs| ==> SttSuccessJobs(jobs, p, now, extractId, dp)[i] == done[i];
  }

  /** Each successful STT run adds exactly one job, an EXTRACT job of its
      project: the counts of every other project and type stay the same. */
  lemma SttSuccessAddsOneExtract(jobs: seq<Job>, p: Id, now: int, extractId: Id, dp: int, q: Id, t: JobType)
    ensures CountOfType(SttSuccessJobs(jobs, p, now, extractId, dp), q, t)
         == CountOfType(jobs, q, t) + (if q == p && t == EXTRACT then 1 else 0)
  {
    var started := UpdateMany(jobs, p, STT, true, Start(now));
    var done := UpdateMany(started, p, STT, false, Complete(now));
    UpdateKeepsCounts(jobs, p, STT, true, Start(now), q, t);
    UpdateKeepsCounts(started, p, STT, false, Complete(now), q, t);
    CountOfTypeAppend(done, [NewJob(extractId, p, EXTRACT, dp)], q, t);
    assert [NewJob(extractId, p, EXTRACT, dp)][1..] == [];
  }

  /** The job table after successful STT runs at the given times, one after
      another, with consecutive ids for the EXTRACT rows. */
  function SttRuns(jobs: seq<Job>, p: Id, times: seq<int>, firstId: Id, dp: int): seq<Job>
    decreases |times|
  {
    if times == [] then jobs
    else SttRuns(SttSuccessJobs(jobs, p, times[0], firstId, dp), p, times[1..], firstId + 1, dp)
  }

  /** There is no wait for the last clip: n successful STT runs of one
      project, one after another, add n EXTRACT jobs, not one. */
  lemma {:induction false} SttRunsAddOneExtractEach(jobs: seq<Job>, p: Id, times: seq<int>, firstId: Id, dp: int)
    ensures CountOfType(SttRuns(jobs, p, times, firstId, dp), p, EXTRACT) == CountOfType(jobs, p, EXTRACT) + |times|
    decreases |times|
  {
    if times != [] {
      SttSuccessAddsOneExtract(jobs, p, times[0], firstId, dp, p, EXTRACT);
      SttRunsAddOneExtractEach(SttSuccessJobs(jobs, p, times[0], firstId, dp), p, times[1..], firstId + 1, dp);
    }
  }

  /** The extract message's ids select exactly the project's transcripts,
      in creation order, when transcript ids are distinct. */
  lemma ExtractReadsProjectTranscripts(ts: seq<Transcript>, p: Id)
    requires forall i, j :: 0 <= i < j < |ts| ==> ts[i].id != ts[j].id
    ensures TranscriptsIn(ts, TranscriptIds(TranscriptsOf(ts, p))) == TranscriptsOf(ts, p)
  {
    TranscriptsInOwnIds(ts, p);
  }

  /** A successful extract run adds exactly one job, a WRITE job of its
      project. */
  lemma ExtractSuccessAddsOneWrite(jobs: seq<Job>, p: Id, now: int, writeId: Id, dp: int, q: Id, t: JobType)
    ensures var r := UpdateMany(UpdateMany(jobs, p, EXTRACT, true, Start(now)), p, EXTRACT, false, Complete(now)) + [NewJob(writeId, p, WRITE, dp)];
      CountOfType(r, q, t) == CountOfType(jobs, q, t) + (if q == p && t == WRITE then 1 else 0)
  {
    var started := UpdateMany(jobs, p, EXTRACT, true, Start(now));
    var done := UpdateMany(started, p, EXTRACT, false, Complete(now));
    UpdateKeepsCounts(jobs, p, EXTRACT, true, Start(now), q, t);
    UpdateKeepsCounts(started, p, EXTRACT, false, Complete(now), q, t);
    CountOfTypeAppend(done, [NewJob(writeId, p, WRITE, dp)], q, t);
    assert [NewJob(writeId, p, WRITE, dp)][1..] == [];
  }

  /** Submitting adds exactly one STT job per asset and no job of any other
      type or project. */
  lemma SubmitJobCounts(jobs: seq<Job>, first: Id, p: Id, assets: seq<AudioAsset>, dp: int, q: Id, t: JobType)
    ensures CountOfType(jobs + NewJobs(first, p, STT, |AssetsOf(assets, p)|, dp), q, t)
         == CountOfType(jobs, q, t) + (if q == p && t == STT then |AssetsOf(assets, p)| else 0)
  {
    CountOfTypeAppend(jobs, NewJobs(first, p, STT, |AssetsOf(assets, p)|, dp), q, t);
    NewJobsCount(first, p, STT, |AssetsOf(assets, p)|, dp, q, t);
  }

  /** After the write worker's deactivate-then-insert the project has
      exactly one active draft, the new one, whose version is above every
      earlier version of the project; every other project keeps its count
      of active drafts. A failure between the two steps leaves none. */
  lemma WriteLeavesOneActive(drafts: seq<Draft>, p: Id, d: Draft, q: Id)
    requires d.projectId == p && d.isActive && d.version == NextVersion(Deactivate(drafts, p), p)
    ensures ActiveCount(Deactivate(drafts, p), p) == 0
    ensures ActiveCount(Deactivate(drafts, p) + [d], p) == 1
    ensures q != p ==> ActiveCount(Deactivate(drafts, p) + [d], q) == ActiveCount(drafts, q)
    ensures forall i :: 0 <= i < |drafts| && drafts[i].projectId == p ==> drafts[i].version < d.version
  {
    var r := Deactivate(drafts, p);
    DeactivateCounts(drafts, p, q);
    ActiveCountAppend(r, [d], p);
    ActiveCountAppend(r, [d], q);
    assert [d][1..] == [];
    NextVersionAboveAll(r, p);
    assert forall i :: 0 <= i < |drafts| ==> r[i].version == drafts[i].version && r[i].projectId == drafts[i].projectId;
  }

  /** After regeneration the word count is the old one less the replaced
      chapter's and plus the new chapter's, the chapter count is unchanged
      and every other chapter is as it was. */
  lemma RegenerateCounts(chapters: seq<Chapter>, i: nat, patch: ChapterPatch)
    requires i < |chapters|
    ensures var r := chapters[i := Merge(chapters[i], patch)];
      && |r| == |chapters|
      && (forall j :: 0 <= j < |chapters| && j != i ==> r[j] == chapters[j])
      && WordCount(DraftContent(r))
         == WordCount(DraftContent(chapters)) - WordCount(chapters[i].content) + WordCount(Merge(chapters[i], patch).content)
  {
    var c := Merge(chapters[i], patch);
    DraftWordCount(chapters);
    DraftWordCount(chapters[i := c]);
    TotalWordsUpdate(chapters, i, c);
  }

  /** The STT worker's download and transcription: a failed download
      answers its message, a missing body the download message, and only a
      body reaches the transcriber. */
  function TranscriptionOf(download: AudioDownload, transcribe: Bytes -> Result<Transcription>): (r: Result<Transcription>)
    ensures download.DownloadFailed? ==> r == Err(download.message)
    ensures download.NoBody? ==> r == Err(DownloadFailedMessage)
    ensures download.Body? ==> r == transcribe(download.bytes)
  {
    match download
    case DownloadFailed(message) => Err(message)
    case NoBody => Err(DownloadFailedMessage)
    case Body(bytes) => transcribe(bytes)
  }

  /** Transcript ids are distinct and below the id counter. */
  predicate TranscriptIdsFresh(ts: seq<Transcript>, nextId: Id) {
    && (forall i :: 0 <= i < |ts| ==> ts[i].id < nextId)
    && (forall i, j :: 0 <= i < j < |ts| ==> ts[i].id != ts[j].id)
  }

  /** A raised counter keeps the transcript ids below it. */
  lemma TranscriptIdsFreshGrow(ts: seq<Transcript>, n: Id, m: Id)
    requires TranscriptIdsFresh(ts, n) && n <= m
    ensures TranscriptIdsFresh(ts, m)
  {
  }

  /** A transcript under the counter's id, with the counter moved past it. */
  lemma TranscriptIdsFreshAppend(ts: seq<Transcript>, n: Id, t: Transcript)
    requires TranscriptIdsFresh(ts, n) && t.id == n
    ensures TranscriptIdsFresh(ts + [t], n + 1)
  {
    var r := ts + [t];
    forall i, j | 0 <= i < j < |r| ensures r[i].id != r[j].id {
      if j < |ts| {
        assert r[i] == ts[i] && r[j] == ts[j];
      } else {
        assert r[i] == ts[i];
      }
    }
  }

  /** The story table's unique project column. */
  predicate OneStoryPerProject(stories: seq<Story>) {
    forall i, j :: 0 <= i < j < |stories| ==> stories[i].projectId != stories[j].projectId
  }

  /** No project has more than `MaxClips` assets. */
  ghost predicate ClipsCapped(assets: seq<AudioAsset>) {
    forall p: Id :: |AssetsOf(assets, p)| <= MaxClips
  }

  /** The store. Tables are sequences of rows in creation order; queues are
      the messages enqueued so far. `defaultProgress` and
      `initialStoryVersion` are the column defaults of the database schema. */
  class Store {
    var projects: seq<Project>
    var assets: seq<AudioAsset>
    var jobs: seq<Job>
    var transcripts: seq<Transcript>
    var stories: seq<Story>
    var drafts: seq<Draft>
    var sttQueue: seq<SttMessage>
    var extractQueue: seq<ExtractMessage>
    var writeQueue: seq<WriteMessage>
    var nextId: nat
    const defaultProgress: int
    const initialStoryVersion: int

    /** The conditions every step keeps: transcript ids are distinct and
        below the id counter; a project has at most one story, at most
        `MaxClips` assets and at most one active draft, and its active
        draft has the highest version of its drafts. */
    ghost predicate Valid()
      reads this`transcripts, this`nextId, this`stories, this`assets, this`drafts
    {
      && TranscriptIdsFresh(transcripts, nextId)
      && OneStoryPerProject(stories)
      && ClipsCapped(assets)
      && ActiveIsUniqueAndNewest(drafts)
    }

    constructor (projects: seq<Project>, defaultProgress: int, initialStoryVersion: int)
      ensures Valid()
      ensures this.projects == projects && assets == [] && jobs == [] && transcripts == [] && stories == [] && drafts == []
      ensures sttQueue == [] && extractQueue == [] && writeQueue == [] && nextId == 0
      ensures this.defaultProgress == defaultProgress && this.initialStoryVersion == initialStoryVersion
    {
      this.projects := projects;
      assets, jobs, transcripts, stories, drafts := [], [], [], [], [];
      sttQueue, extractQueue, writeQueue := [], [], [];
      nextId := 0;
      this.defaultProgress := defaultProgress;
      this.initialStoryVersion := initialStoryVersion;
    }

    // -------------------------------------------------------------------
    // POST /api/projects/submit

    /** No session: 401. A project id that fails the schema: 500. A missing
        or foreign project: 404. No assets: 400. Otherwise the project
        becomes PROCESSING whatever its status was, and each asset gets one
        new PENDING STT job and one STT message with its id and key. */
    method Submit(session: Option<string>, projectId: Option<Id>) returns (status: nat)
      requires Valid()
      modifies this`projects, this`jobs, this`sttQueue, this`nextId
      ensures Valid()
      ensures session.None? ==> status == 401
      ensures session.Some? && projectId.None? ==> status == 500
      ensures session.Some? && projectId.Some? ==>
        var k := FindProject(old(projects), projectId.value);
        && (k.None? || old(projects)[k.value].userId != session.value ==> status == 404)
        && (k.Some? && old(projects)[k.value].userId == session.value ==>
              if |AssetsOf(old(assets), projectId.value)| == 0 then status == 400 else status == 200)
      ensures status != 200 ==> projects == old(projects) && jobs == old(jobs) && sttQueue == old(sttQueue) && nextId == old(nextId)
      ensures status == 200 ==>
        var p := projectId.value;
        var owned := AssetsOf(old(assets), p);
        && projects == SetStatus(old(projects), p, ProjectStatus.PROCESSING)
        && jobs == old(jobs) + NewJobs(old(nextId), p, STT, |owned|, defaultProgress)
        && sttQueue == old(sttQueue) + SttMessages(p, owned)
        && nextId == old(nextId) + |owned|
    {
      if session.None? { return 401; }
      if projectId.None? { return 500; }
      var p := projectId.value;
      var k := FindProject(projects, p);
      if k.None? || projects[k.value].userId != session.value { return 404; }
      var owned := AssetsOf(assets, p);
      if |owned| == 0 { return 400; }

      projects := SetStatus(projects, p, ProjectStatus.PROCESSING);
      QueueTranscriptions(p, owned);
      return 200;
    }

    /** The loop of the submit route: one PENDING STT job and one STT
        message per asset, in order. */
    method QueueTranscriptions(p: Id, owned: seq<AudioAsset>)
      requires Valid()
      modifies this`jobs, this`sttQueue, this`nextId
      ensures Valid()
      ensures jobs == old(jobs) + NewJobs(old(nextId), p, STT, |owned|, defaultProgress)
      ensures sttQueue == old(sttQueue) + SttMessages(p, owned)
      ensures nextId == old(nextId) + |owned|
    {
      var i := 0;
      assert owned[..0] == [];
      while i < |owned|
        invariant 0 <= i <= |owned|
        invariant jobs == old(jobs) + NewJobs(old(nextId), p, STT, i, defaultProgress)
        invariant sttQueue == old(sttQueue) + SttMessages(p, owned[..i])
        invariant nextId == old(nextId) + i
        invariant Valid()
      {
        SttMessagesSnoc(p, owned, i);
        var m := SttMessage(p, owned[i].id, owned[i].s3Key);
        assert old(sttQueue) + SttMessages(p, owned[..i]) + [m] == old(sttQueue) + (SttMessages(p, owned[..i]) + [m]);
        EnqueueStt(p, m);
        i := i + 1;
      }
      assert owned[..i] == owned;
    }

    /** One turn of that loop: the job row under the next id and its
        message. */
    method EnqueueStt(p: Id, m: SttMessage)
      requires Valid()
      modifies this`jobs, this`sttQueue, this`nextId
      ensures Valid()
      ensures jobs == old(jobs) + [NewJob(old(nextId), p, STT, defaultProgress)]
      ensures sttQueue == old(sttQueue) + [m]
      ensures nextId == old(nextId) + 1
    {
      jobs := jobs + [NewJob(nextId, p, STT, defaultProgress)];
      sttQueue := sttQueue + [m];
      TranscriptIdsFreshGrow(transcripts, nextId, nextId + 1);
      nextId := nextId + 1;
    }

    // -------------------------------------------------------------------
    // POST /api/upload/presign

    /** Whether the presign route gets as far as writing the asset row: a
        session, a valid upload, the caller's own project with fewer than
        `MaxClips` assets, and (for the integer column) a whole clip index. */
    static predicate PresignAdmitted(session: Option<string>, req: PresignRequest, projects: seq<Project>, assets: seq<AudioAsset>) {
      && session.Some? && AudioUploadValid(UploadOf(req)) && req.projectId.Some?
      && FindProject(projects, req.projectId.value).Some?
      && projects[FindProject(projects, req.projectId.value).value].userId == session.value
      && |AssetsOf(assets, req.projectId.value)| < MaxClips
      && IsInteger(req.clipIndex.value)
    }

    /** No session: 401. An upload the schema rejects: 500. No project id:
        500. A missing or foreign project: 404. A project that already has
        `MaxClips` assets: 400, even when the clip index is one of them.
        Otherwise the asset for that clip index is replaced or created under
        a key built from the caller, the project, the clip index, the time and
        the file's extension ("webm" when it has none); the answer carries the
        upload URL, the asset id and the key, or is 500 when no URL could be
        signed (the row is written by then). Only the asset table and the id
        counter ever change. */
    method Presign(session: Option<string>, req: PresignRequest, fileExtension: string -> string, now: nat,
                   uploadUrl: (string, string) -> Option<string>)
      returns (status: nat, reply: Option<PresignReply>)
      requires Valid()
      modifies this`assets, this`nextId
      ensures Valid()
      ensures reply.Some? <==> status == 200
      ensures session.None? ==> status == 401
      ensures session.Some? && (!AudioUploadValid(UploadOf(req)) || req.projectId.None?) ==> status == 500
      ensures session.Some? && AudioUploadValid(UploadOf(req)) && req.projectId.Some? ==>
        var k := FindProject(old(projects), req.projectId.value);
        && (k.None? || old(projects)[k.value].userId != session.value ==> status == 404)
        && (k.Some? && old(projects)[k.value].userId == session.value && |AssetsOf(old(assets), req.projectId.value)| >= MaxClips ==> status == 400)
      ensures !PresignAdmitted(session, req, old(projects), old(assets)) ==> assets == old(assets) && nextId == old(nextId) && status != 200
      ensures PresignAdmitted(session, req, old(projects), old(assets)) ==>
        var p := req.projectId.value;
        var c := req.clipIndex.value.Floor;
        var ext := ExtensionOr(fileExtension(req.filename.value));
        var key := AudioKey(session.value, NatToString(p), c, ext, now);
        var mime := UploadOf(req).contentType.value;
        var (r, id) := UpsertClip(old(assets), p, c, req.filename.value, mime, req.size.value, key, ext, old(nextId));
        && assets == r
        && nextId == old(nextId) + (if FindClip(old(assets), p, c).None? then 1 else 0)
        && (uploadUrl(key, mime).None? ==> status == 500)
        && (uploadUrl(key, mime).Some? ==> reply == Some(PresignReply(uploadUrl(key, mime).value, id, key)))
    {
      if session.None? { return 401, None; }
      var upload := UploadOf(req);
      if !AudioUploadValid(upload) || req.projectId.None? { return 500, None; }
      var p := req.projectId.value;
      var pk := FindProject(projects, p);
      if pk.None? || projects[pk.value].userId != session.value { return 404, None; }
      if |AssetsOf(assets, p)| >= MaxClips { return 400, None; }
      var clip := req.clipIndex.value;
      if !IsInteger(clip) { return 500, None; }

      var c := clip.Floor;
      var ext := ExtensionOr(fileExtension(req.filename.value));
      var key := AudioKey(session.value, NatToString(p), c, ext, now);
      var mime := upload.contentType.value;
      var (r, id) := UpsertClip(assets, p, c, req.filename.value, mime, req.size.value, key, ext, nextId);
      forall q: Id ensures |AssetsOf(r, q)| <= MaxClips {
        UpsertClipCount(assets, p, c, req.filename.value, mime, req.size.value, key, ext, nextId, q);
      }
      TranscriptIdsFreshGrow(transcripts, nextId, nextId + 1);
      if FindClip(assets, p, c).None? { nextId := nextId + 1; }
      assets := r;
      var url := uploadUrl(key, mime);
      if url.None? { return 500, None; }
      return 200, Some(PresignReply(url.value, id, key));
    }

    // -------------------------------------------------------------------
    // POST /api/upload/confirm

    /** No session: 401. No asset id: 500. A missing asset, or one of
        another user's project: 404 (an asset without its project: 500).
        When no stream URL can be signed: 500. Otherwise the asset gets the
        duration (when one is sent) and the URL, and its project goes back
        to DRAFT whatever its status was; nothing else changes. */
    method Confirm(session: Option<string>, assetId: Option<Id>, duration: Option<real>, streamUrl: string -> Option<string>)
      returns (status: nat)
      requires Valid()
      modifies this`assets, this`projects
      ensures Valid()
      ensures session.None? ==> status == 401
      ensures session.Some? && assetId.None? ==> status == 500
      ensures session.Some? && assetId.Some? ==>
        var k := FindAsset(old(assets), assetId.value);
        && (k.None? ==> status == 404)
        && (k.Some? ==>
              var pk := FindProject(old(projects), old(assets)[k.value].projectId);
              && (pk.None? ==> status == 500)
              && (pk.Some? && old(projects)[pk.value].userId != session.value ==> status == 404)
              && (pk.Some? && old(projects)[pk.value].userId == session.value ==>
                    status == if streamUrl(old(assets)[k.value].s3Key).None? then 500 else 200))
      ensures status != 200 ==> assets == old(assets) && projects == old(projects)
      ensures status == 200 ==>
        var k := FindAsset(old(assets), assetId.value).value;
        var a := old(assets)[k];
        && assets == old(assets)[k := a.(duration := if duration.Some? then duration else a.duration, s3Url := streamUrl(a.s3Key))]
        && projects == SetStatus(old(projects), a.projectId, ProjectStatus.DRAFT)
    {
      if session.None? { return 401; }
      if assetId.None? { return 500; }
      var k := FindAsset(assets, assetId.value);
      if k.None? { return 404; }
      var a := assets[k.value];
      var pk := FindProject(projects, a.projectId);
      if pk.None? { return 500; }
      if projects[pk.value].userId != session.value { return 404; }
      var url := streamUrl(a.s3Key);
      if url.None? { return 500; }
      var updated := a.(duration := if duration.Some? then duration else a.duration, s3Url := url);
      var r := assets[k.value := updated];
      forall q: Id ensures |AssetsOf(r, q)| <= MaxClips {
        AssetsOfUpdate(assets, k.value, updated, q);
      }
      assets := r;
      projects := SetStatus(projects, a.projectId, ProjectStatus.DRAFT);
      return 200;
    }
    // -------------------------------------------------------------------
    // Workers

    /** The first update of every worker: the project's PENDING jobs of
        that type become PROCESSING with the start time. */
    method StartJobs(p: Id, t: JobType, now: int)
      modifies this`jobs
      ensures jobs == UpdateMany(old(jobs), p, t, true, Start(now))
    {
      jobs := UpdateMany(jobs, p, t, true, Start(now));
    }

    /** The completion update of every worker: the project's jobs of that
        type become COMPLETED, whatever their status. */
    method CompleteJobs(p: Id, t: JobType, now: int)
      modifies this`jobs
      ensures jobs == UpdateMany(old(jobs), p, t, false, Complete(now))
    {
      jobs := UpdateMany(jobs, p, t, false, Complete(now));
    }

    /** The catch block of the STT, extract and write workers: every job of
        that project and type becomes FAILED with the message, and the
        project becomes FAILED. */
    method FailStage(p: Id, t: JobType, message: string)
      modifies this`jobs, this`projects
      ensures jobs == UpdateMany(old(jobs), p, t, false, Fail(message))
      ensures projects == SetStatus(old(projects), p, ProjectStatus.FAILED)
    {
      jobs := UpdateMany(jobs, p, t, false, Fail(message));
      projects := SetStatus(projects, p, ProjectStatus.FAILED);
    }

    /** `sttProcessor`. The project's PENDING STT jobs are started; then the
        audio is downloaded and transcribed. A failed download, a missing
        body or a failed transcription fails the run with that message and
        writes no transcript. Otherwise one transcript (language "ko",
        trimmed segments) is added, every STT job of the project is
        completed, and, the count of incomplete STT jobs being zero, one
        PENDING EXTRACT job and one extract message with the ids of all the
        project's transcripts are added. The run answers with the audio
        asset's id. Assets, stories, drafts and the other queues are outside
        its frame. */
    method RunStt(msg: SttMessage, download: AudioDownload, transcribe: Bytes -> Result<Transcription>, now: int)
      returns (outcome: Result<Id>)
      requires Valid()
      modifies this`jobs, this`projects, this`transcripts, this`nextId, this`extractQueue
      ensures Valid()
      ensures outcome.Ok? <==> download.Body? && transcribe(download.bytes).Ok?
      ensures download.DownloadFailed? ==> outcome == Err(download.message)
      ensures download.NoBody? ==> outcome == Err(DownloadFailedMessage)
      ensures download.Body? && transcribe(download.bytes).Err? ==> outcome == Err(transcribe(download.bytes).message)
      ensures var started := UpdateMany(old(jobs), msg.projectId, STT, true, Start(now));
        outcome.Err? ==>
          && jobs == UpdateMany(started, msg.projectId, STT, false, Fail(outcome.message))
          && projects == SetStatus(old(projects), msg.projectId, ProjectStatus.FAILED)
          && transcripts == old(transcripts) && extractQueue == old(extractQueue) && nextId == old(nextId)
      ensures var started := UpdateMany(old(jobs), msg.projectId, STT, true, Start(now));
        outcome.Ok? ==>
          var t := TranscriptionOf(download, transcribe).value;
          && outcome.value == msg.audioAssetId && projects == old(projects) && nextId == old(nextId) + 2
          && transcripts == old(transcripts) + [Transcript(old(nextId), msg.audioAssetId, msg.projectId, t.text, TrimSegments(t.segments), "ko")]
          && jobs == UpdateMany(started, msg.projectId, STT, false, Complete(now)) + [NewJob(old(nextId) + 1, msg.projectId, EXTRACT, defaultProgress)]
          && extractQueue == old(extractQueue) + [ExtractMessage(msg.projectId, TranscriptIds(TranscriptsOf(transcripts, msg.projectId)))]
    {
      StartJobs(msg.projectId, STT, now);
      var transcription := TranscriptionOf(download, transcribe);
      outcome := FinishStt(msg, transcription, now);
    }

    /** The STT worker once the audio is transcribed or has failed to be. */
    method FinishStt(msg: SttMessage, transcription: Result<Transcription>, now: int) returns (outcome: Result<Id>)
      requires Valid()
      modifies this`jobs, this`projects, this`transcripts, this`nextId, this`extractQueue
      ensures Valid()
      ensures transcription.Err? ==>
        && outcome == Err(transcription.message)
        && jobs == UpdateMany(old(jobs), msg.projectId, STT, false, Fail(outcome.message))
        && projects == SetStatus(old(projects), msg.projectId, ProjectStatus.FAILED)
        && transcripts == old(transcripts) && extractQueue == old(extractQueue) && nextId == old(nextId)
      ensures transcription.Ok? ==>
        var t := transcription.value;
        && outcome == Ok(msg.audioAssetId) && projects == old(projects) && nextId == old(nextId) + 2
        && transcripts == old(transcripts) + [Transcript(old(nextId), msg.audioAssetId, msg.projectId, t.text, TrimSegments(t.segments), "ko")]
        && jobs == UpdateMany(old(jobs), msg.projectId, STT, false, Complete(now)) + [NewJob(old(nextId) + 1, msg.projectId, EXTRACT, defaultProgress)]
        && extractQueue == old(extractQueue) + [ExtractMessage(msg.projectId, TranscriptIds(TranscriptsOf(transcripts, msg.projectId)))]
    {
      if transcription.Err? {
        FailStage(msg.projectId, STT, transcription.message);
        return Err(transcription.message);
      }
      RecordTranscript(msg, transcription.value, now);
      return Ok(msg.audioAssetId);
    }

    /** The success path of the STT worker, after the start update. */
    method RecordTranscript(msg: SttMessage, t: Transcription, now: int)
      requires Valid()
      modifies this`jobs, this`transcripts, this`nextId, this`extractQueue
      ensures Valid()
      ensures transcripts == old(transcripts) + [Transcript(old(nextId), msg.audioAssetId, msg.projectId, t.text, TrimSegments(t.segments), "ko")]
      ensures jobs == UpdateMany(old(jobs), msg.projectId, STT, false, Complete(now)) + [NewJob(old(nextId) + 1, msg.projectId, EXTRACT, defaultProgress)]
      ensures extractQueue == old(extractQueue) + [ExtractMessage(msg.projectId, TranscriptIds(TranscriptsOf(transcripts, msg.projectId)))]
      ensures nextId == old(nextId) + 2
    {
      var p := msg.projectId;
      AddTranscript(msg, t);
      var started := jobs;
      CompleteJobs(p, STT, now);
      CompletionLeavesNoneIncomplete(started, p, STT, now);
      var remaining := CountIncomplete(jobs, p, STT);
      if remaining == 0 {
        EnqueueExtract(p);
      }
    }

    /** The transcript row, under the next id. */
    method AddTranscript(msg: SttMessage, t: Transcription)
      requires Valid()
      modifies this`transcripts, this`nextId
      ensures Valid()
      ensures transcripts == old(transcripts) + [Transcript(old(nextId), msg.audioAssetId, msg.projectId, t.text, TrimSegments(t.segments), "ko")]
      ensures nextId == old(nextId) + 1
    {
      var row := Transcript(nextId, msg.audioAssetId, msg.projectId, t.text, TrimSegments(t.segments), "ko");
      TranscriptIdsFreshAppend(transcripts, nextId, row);
      transcripts := transcripts + [row];
      nextId := nextId + 1;
    }

    /** Lines of the STT worker that run once no STT job is left: one
        PENDING EXTRACT job and the message naming the project's
        transcripts. */
    method EnqueueExtract(p: Id)
      requires Valid()
      modifies this`jobs, this`nextId, this`extractQueue
      ensures Valid()
      ensures jobs == old(jobs) + [NewJob(old(nextId), p, EXTRACT, defaultProgress)]
      ensures extractQueue == old(extractQueue) + [ExtractMessage(p, TranscriptIds(TranscriptsOf(transcripts, p)))]
      ensures nextId == old(nextId) + 1
    {
      jobs := jobs + [NewJob(nextId, p, EXTRACT, defaultProgress)];
      TranscriptIdsFreshGrow(transcripts, nextId, nextId + 1);
      nextId := nextId + 1;
      extractQueue := extractQueue + [ExtractMessage(p, TranscriptIds(TranscriptsOf(transcripts, p)))];
    }

    /** `extractProcessor`. The project's PENDING EXTRACT jobs are started;
        the transcripts with the message's ids are combined, in creation
        order, and sent to the model. A failed call, an empty reply or
        unparsable JSON fails the run with no story written. Otherwise the
        project's story is upserted, every EXTRACT job of the project is
        completed, and one PENDING WRITE job and one write message with the
        story's id are added. The run answers with the story's id. */
    method RunExtract(msg: ExtractMessage, complete: string -> Reply<Json>, now: int)
      returns (outcome: Result<Id>)
      requires Valid()
      modifies this`jobs, this`projects, this`stories, this`nextId, this`writeQueue
      ensures Valid()
      ensures var reply := complete(CombineTranscripts(TranscriptTexts(TranscriptsIn(old(transcripts), msg.transcriptIds))));
        var started := UpdateMany(old(jobs), msg.projectId, EXTRACT, true, Start(now));
        && (outcome.Ok? <==> reply.Parsed?)
        && (!reply.Parsed? ==>
              && outcome == Err(ReplyError(reply))
              && jobs == UpdateMany(started, msg.projectId, EXTRACT, false, Fail(outcome.message))
              && projects == SetStatus(old(projects), msg.projectId, ProjectStatus.FAILED)
              && stories == old(stories) && writeQueue == old(writeQueue) && nextId == old(nextId))
        && (reply.Parsed? ==>
              var (r, storyId) := UpsertStory(old(stories), msg.projectId, reply.value, old(nextId), initialStoryVersion);
              var n := old(nextId) + (if FindStoryOf(old(stories), msg.projectId).None? then 1 else 0);
              && stories == r && outcome == Ok(storyId)
              && jobs == UpdateMany(started, msg.projectId, EXTRACT, false, Complete(now)) + [NewJob(n, msg.projectId, WRITE, defaultProgress)]
              && writeQueue == old(writeQueue) + [WriteMessage(msg.projectId, storyId)]
              && nextId == n + 1 && projects == old(projects))
    {
      var p := msg.projectId;
      // The reads come before the start update here; they touch other
      // tables, so the order does not matter.
      var selected := TranscriptsIn(transcripts, msg.transcriptIds);
      var combined := CombineTranscripts(TranscriptTexts(selected));
      ghost var stories0, nextId0 := stories, nextId;
      StartJobs(p, EXTRACT, now);
      assert stories == stories0 && nextId == nextId0;
      var reply := complete(combined);
      outcome := ExtractReply(p, reply, now);
    }

    /** The extract worker once the model has answered. */
    method ExtractReply(p: Id, reply: Reply<Json>, now: int) returns (outcome: Result<Id>)
      requires Valid()
      modifies this`jobs, this`projects, this`stories, this`nextId, this`writeQueue
      ensures Valid()
      ensures outcome.Ok? <==> reply.Parsed?
      ensures !reply.Parsed? ==>
        && outcome == Err(ReplyError(reply))
        && jobs == UpdateMany(old(jobs), p, EXTRACT, false, Fail(outcome.message))
        && projects == SetStatus(old(projects), p, ProjectStatus.FAILED)
        && stories == old(stories) && writeQueue == old(writeQueue) && nextId == old(nextId)
      ensures reply.Parsed? ==>
        var (r, storyId) := UpsertStory(old(stories), p, reply.value, old(nextId), initialStoryVersion);
        var n := old(nextId) + (if FindStoryOf(old(stories), p).None? then 1 else 0);
        && stories == r && outcome == Ok(storyId)
        && jobs == UpdateMany(old(jobs), p, EXTRACT, false, Complete(now)) + [NewJob(n, p, WRITE, defaultProgress)]
        && writeQueue == old(writeQueue) + [WriteMessage(p, storyId)]
        && nextId == n + 1 && projects == old(projects)
    {
      if !reply.Parsed? {
        FailStage(p, EXTRACT, ReplyError(reply));
        return Err(ReplyError(reply));
      }
      var storyId := StoreStory(p, reply.value, now);
      return Ok(storyId);
    }

    /** The success path of the extract worker, after the start update. */
    method StoreStory(p: Id, data: Json, now: int) returns (storyId: Id)
      requires Valid()
      modifies this`jobs, this`stories, this`nextId, this`writeQueue
      ensures Valid()
      ensures var (r, id) := UpsertStory(old(stories), p, data, old(nextId), initialStoryVersion);
        var n := old(nextId) + (if FindStoryOf(old(stories), p).None? then 1 else 0);
        && stories == r && storyId == id
        && jobs == UpdateMany(old(jobs), p, EXTRACT, false, Complete(now)) + [NewJob(n, p, WRITE, defaultProgress)]
        && writeQueue == old(writeQueue) + [WriteMessage(p, storyId)]
        && nextId == n + 1
    {
      UpsertStoryFacts(stories, p, data, nextId, initialStoryVersion);
      var (r, id) := UpsertStory(stories, p, data, nextId, initialStoryVersion);
      storyId := id;
      PutStory(r, FindStoryOf(stories, p).None?);
      CompleteJobs(p, EXTRACT, now);
      EnqueueWrite(p, storyId);
    }

    /** The story upsert's write: a created row takes the next id. */
    method PutStory(r: seq<Story>, created: bool)
      requires Valid() && OneStoryPerProject(r)
      modifies this`stories, this`nextId
      ensures Valid()
      ensures stories == r && nextId == old(nextId) + (if created then 1 else 0)
    {
      TranscriptIdsFreshGrow(transcripts, nextId, nextId + 1);
      if created { nextId := nextId + 1; }
      stories := r;
    }

    /** The extract worker's last lines: one PENDING WRITE job and the
        message naming the story. */
    method EnqueueWrite(p: Id, storyId: Id)
      requires Valid()
      modifies this`jobs, this`nextId, this`writeQueue
      ensures Valid()
      ensures jobs == old(jobs) + [NewJob(old(nextId), p, WRITE, defaultProgress)]
      ensures writeQueue == old(writeQueue) + [WriteMessage(p, storyId)]
      ensures nextId == old(nextId) + 1
    {
      jobs := jobs + [NewJob(nextId, p, WRITE, defaultProgress)];
      TranscriptIdsFreshGrow(transcripts, nextId, nextId + 1);
      nextId := nextId + 1;
      writeQueue := writeQueue + [WriteMessage(p, storyId)];
    }

    /** `writeProcessor`. The project's PENDING WRITE jobs are started. A
        story id that is not in the table fails the run ("Story not found")
        before any draft changes; so does a failed or unusable model reply.
        Otherwise every draft of the project is deactivated, and then (unless
        the insert fails, `createFault`, which leaves the project with no
        active draft) one active draft is added with the next version, the
        title or its fallback, the chapters, their joined content, its count
        of non-space characters and the chapter count; every WRITE job of the
        project is completed and the project becomes COMPLETED. */
    method RunWrite(msg: WriteMessage, complete: (Json, string) -> Reply<DraftReply>, createFault: Option<string>, now: int)
      returns (outcome: Result<Id>)
      requires Valid()
      modifies this`jobs, this`projects, this`drafts, this`nextId
      ensures Valid()
      ensures FindStory(old(stories), msg.storyId).None? ==> outcome == Err(StoryNotFoundMessage) && drafts == old(drafts)
      ensures FindStory(old(stories), msg.storyId).Some? ==>
        var reply := complete(old(stories)[FindStory(old(stories), msg.storyId).value].data,
                              CombineTranscripts(TranscriptTexts(TranscriptsOf(old(transcripts), msg.projectId))));
        && (!reply.Parsed? ==> outcome == Err(ReplyError(reply)) && drafts == old(drafts))
        && (reply.Parsed? && createFault.Some? ==> outcome == Err(createFault.value) && drafts == Deactivate(old(drafts), msg.projectId))
        && (reply.Parsed? && createFault.None? ==>
              var content := DraftContent(reply.value.chapters);
              var deactivated := Deactivate(old(drafts), msg.projectId);
              && outcome == Ok(old(nextId))
              && drafts == deactivated + [Draft(old(nextId), msg.projectId, NextVersion(deactivated, msg.projectId), TitleOr(reply.value.title),
                                                reply.value.chapters, content, WordCount(content), |reply.value.chapters|, true)])
      ensures outcome.Ok? ==> jobs == UpdateMany(UpdateMany(old(jobs), msg.projectId, WRITE, true, Start(now)), msg.projectId, WRITE, false, Complete(now))
      ensures outcome.Ok? ==> projects == SetStatus(old(projects), msg.projectId, ProjectStatus.COMPLETED) && nextId == old(nextId) + 1
      ensures outcome.Err? ==> jobs == UpdateMany(UpdateMany(old(jobs), msg.projectId, WRITE, true, Start(now)), msg.projectId, WRITE, false, Fail(outcome.message))
      ensures outcome.Err? ==> projects == SetStatus(old(projects), msg.projectId, ProjectStatus.FAILED) && nextId == old(nextId)
    {
      var p := msg.projectId;
      var k := FindStory(stories, msg.storyId);
      var combined := CombineTranscripts(TranscriptTexts(TranscriptsOf(transcripts, p)));
      StartJobs(p, WRITE, now);
      if k.None? {
        FailStage(p, WRITE, StoryNotFoundMessage);
        return Err(StoryNotFoundMessage);
      }
      var reply := complete(stories[k.value].data, combined);
      outcome := WriteReply(p, reply, createFault, now);
    }

    /** The write worker once the model has answered. */
    method WriteReply(p: Id, reply: Reply<DraftReply>, createFault: Option<string>, now: int) returns (outcome: Result<Id>)
      requires Valid()
      modifies this`jobs, this`projects, this`drafts, this`nextId
      ensures Valid()
      ensures !reply.Parsed? ==> outcome == Err(ReplyError(reply)) && drafts == old(drafts)
      ensures reply.Parsed? && createFault.Some? ==> outcome == Err(createFault.value) && drafts == Deactivate(old(drafts), p)
      ensures reply.Parsed? && createFault.None? ==>
        var content := DraftContent(reply.value.chapters);
        var deactivated := Deactivate(old(drafts), p);
        && outcome == Ok(old(nextId))
        && drafts == deactivated + [Draft(old(nextId), p, NextVersion(deactivated, p), TitleOr(reply.value.title),
                                          reply.value.chapters, content, WordCount(content), |reply.value.chapters|, true)]
      ensures outcome.Ok? ==> jobs == UpdateMany(old(jobs), p, WRITE, false, Complete(now))
      ensures outcome.Ok? ==> projects == SetStatus(old(projects), p, ProjectStatus.COMPLETED) && nextId == old(nextId) + 1
      ensures outcome.Err? ==> jobs == UpdateMany(old(jobs), p, WRITE, false, Fail(outcome.message))
      ensures outcome.Err? ==> projects == SetStatus(old(projects), p, ProjectStatus.FAILED) && nextId == old(nextId)
    {
      if !reply.Parsed? {
        FailStage(p, WRITE, ReplyError(reply));
        return Err(ReplyError(reply));
      }
      DeactivateDrafts(p);
      if createFault.Some? {
        FailStage(p, WRITE, createFault.value);
        return Err(createFault.value);
      }
      var id := SaveDraft(p, reply.value, now);
      return Ok(id);
    }

    /** The write worker's `updateMany` on the project's drafts. */
    method DeactivateDrafts(p: Id)
      requires Valid()
      modifies this`drafts
      ensures Valid()
      ensures drafts == Deactivate(old(drafts), p)
      ensures forall i :: 0 <= i < |drafts| && drafts[i].projectId == p ==> !drafts[i].isActive
    {
      DeactivateKeepsInvariant(drafts, p);
      drafts := Deactivate(drafts, p);
    }

    /** The write worker's insert and completion, after deactivation. */
    method SaveDraft(p: Id, reply: DraftReply, now: int) returns (id: Id)
      requires Valid()
      requires forall i :: 0 <= i < |drafts| && drafts[i].projectId == p ==> !drafts[i].isActive
      modifies this`jobs, this`projects, this`drafts, this`nextId
      ensures Valid()
      ensures var content := DraftContent(reply.chapters);
        && id == old(nextId)
        && drafts == old(drafts) + [Draft(old(nextId), p, NextVersion(old(drafts), p), TitleOr(reply.title),
                                          reply.chapters, content, WordCount(content), |reply.chapters|, true)]
      ensures jobs == UpdateMany(old(jobs), p, WRITE, false, Complete(now))
      ensures projects == SetStatus(old(projects), p, ProjectStatus.COMPLETED)
      ensures nextId == old(nextId) + 1
    {
      var chapters := reply.chapters;
      var content := DraftContent(chapters);
      var wordCount := WordCount(content);
      var pageCount := |chapters|;
      var version := NextVersion(drafts, p);
      var d := Draft(nextId, p, version, TitleOr(reply.title), chapters, content, wordCount, pageCount, true);
      NextVersionAboveAll(drafts, p);
      AddActiveKeepsInvariant(drafts, d);
      drafts := drafts + [d];
      id := nextId;
      TranscriptIdsFreshGrow(transcripts, nextId, nextId + 1);
      nextId := nextId + 1;
      CompleteJobs(p, WRITE, now);
      projects := SetStatus(projects, p, ProjectStatus.COMPLETED);
    }

    /** `exportProcessor`. A draft id not in the table fails the run ("Draft
        not found"). For "docx" the document body is packed and every
        EXPORT_DOCX job of the message's project is completed with the bytes
        and their length; any other format completes the EXPORT_PDF jobs
        with the placeholder message. A failure marks the jobs of the
        requested type FAILED ("pdf" for EXPORT_PDF, anything else for
        EXPORT_DOCX). Nothing but the job table changes. */
    method RunExport(msg: ExportMessage, pack: seq<Paragraph> -> Result<Bytes>, now: int)
      returns (outcome: Result<()>)
      requires Valid()
      modifies this`jobs
      ensures Valid()
      ensures var k := FindDraft(old(drafts), msg.draftId);
        && (k.None? ==> outcome == Err(DraftNotFoundMessage))
        && (k.Some? && msg.format == "docx" ==>
              var bytes := pack(DocxBody(old(drafts)[k.value].title, old(drafts)[k.value].chapters));
              && (bytes.Err? ==> outcome == Err(bytes.message))
              && (bytes.Ok? ==>
                    outcome == Ok(()) && jobs == UpdateMany(old(jobs), msg.projectId, EXPORT_DOCX, false, CompleteWith(now, DocxOutput(|bytes.value|, bytes.value)))))
        && (k.Some? && msg.format != "docx" ==>
              outcome == Ok(()) && jobs == UpdateMany(old(jobs), msg.projectId, EXPORT_PDF, false, CompleteWith(now, PdfOutput(PdfPlaceholder))))
      ensures outcome.Err? ==>
        jobs == UpdateMany(old(jobs), msg.projectId, if msg.format == "pdf" then EXPORT_PDF else EXPORT_DOCX, false, Fail(outcome.message))
    {
      var p := msg.projectId;
      var failType := if msg.format == "pdf" then EXPORT_PDF else EXPORT_DOCX;
      var k := FindDraft(drafts, msg.draftId);
      if k.None? {
        jobs := UpdateMany(jobs, p, failType, false, Fail(DraftNotFoundMessage));
        return Err(DraftNotFoundMessage);
      }
      var d := drafts[k.value];
      if msg.format == "docx" {
        var bytes := pack(DocxBody(d.title, d.chapters));
        if bytes.Err? {
          jobs := UpdateMany(jobs, p, failType, false, Fail(bytes.message));
          return Err(bytes.message);
        }
        jobs := UpdateMany(jobs, p, EXPORT_DOCX, false, CompleteWith(now, DocxOutput(|bytes.value|, bytes.value)));
      } else {
        jobs := UpdateMany(jobs, p, EXPORT_PDF, false, CompleteWith(now, PdfOutput(PdfPlaceholder)));
      }
      return Ok(());
    }

    // -------------------------------------------------------------------
    // POST /api/drafts/regenerate

    /** No session: 401. A request the schema rejects: 500. A missing draft,
        or one of another user's project: 404 (a draft without its project:
        500). A chapter index that is not a whole number below the chapter
        count: 404. Otherwise the prompt is built from the chapter, the
        feedback, the project's story and the first 3000 characters of its
        transcripts joined by blank lines; a failed or unusable reply is 500
        with the draft unchanged. On success only that chapter changes,
        overridden by the reply's fields, and the draft's content and word
        count are recomputed; nothing else changes. */
    method Regenerate(session: Option<string>, body: RegenerateBody, complete: RegenPrompt -> Reply<ChapterPatch>)
      returns (status: nat, prompt: Option<RegenPrompt>)
      requires Valid()
      modifies this`drafts
      ensures Valid()
      ensures session.None? ==> status == 401
      ensures session.Some? && !RegenerateBodyValid(body) ==> status == 500
      ensures session.Some? && RegenerateBodyValid(body) ==>
        var k := FindDraft(old(drafts), body.draftId.value);
        && (k.None? ==> status == 404)
        && (k.Some? ==>
              var pk := FindProject(old(projects), old(drafts)[k.value].projectId);
              && (pk.None? ==> status == 500)
              && (pk.Some? && old(projects)[pk.value].userId != session.value ==> status == 404)
              && (pk.Some? && old(projects)[pk.value].userId == session.value ==>
                    var chapters := old(drafts)[k.value].chapters;
                    var ci := body.chapterIndex.value;
                    && (!(IsInteger(ci) && ci < |chapters| as real) ==> status == 404)
                    && (IsInteger(ci) && ci < |chapters| as real ==>
                          var i := ci.Floor as nat;
                          var p := old(drafts)[k.value].projectId;
                          var context := Prefix(Join(TranscriptTexts(TranscriptsOf(old(transcripts), p)), ParagraphBreak), ContextLimit);
                          var story := match FindStoryOf(old(stories), p) case None => None case Some(s) => Some(old(stories)[s].data);
                          && prompt == Some(RegenPrompt(chapters[i], body.feedback.value, story, context))
                          && (status == 200 <==> complete(prompt.value).Parsed?))))
      ensures status != 200 ==> drafts == old(drafts)
      ensures status == 200 ==>
        var k := FindDraft(old(drafts), body.draftId.value).value;
        var d := old(drafts)[k];
        var i := body.chapterIndex.value.Floor as nat;
        var chapters := d.chapters[i := Merge(d.chapters[i], complete(prompt.value).value)];
        && i < |d.chapters|
        && drafts == old(drafts)[k := d.(chapters := chapters, content := DraftContent(chapters), wordCount := WordCount(DraftContent(chapters)))]
    {
      prompt := None;
      if session.None? { return 401, None; }
      if !RegenerateBodyValid(body) { return 500, None; }
      var k := FindDraft(drafts, body.draftId.value);
      if k.None? { return 404, None; }
      var d := drafts[k.value];
      var pk := FindProject(projects, d.projectId);
      if pk.None? { return 500, None; }
      if projects[pk.value].userId != session.value { return 404, None; }
      var ci := body.chapterIndex.value;
      if !(IsInteger(ci) && ci < |d.chapters| as real) { return 404, None; }
      var i := ci.Floor as nat;
      var context := Prefix(Join(TranscriptTexts(TranscriptsOf(transcripts, d.projectId)), ParagraphBreak), ContextLimit);
      var story := match FindStoryOf(stories, d.projectId) case None => None case Some(s) => Some(stories[s].data);
      prompt := Some(RegenPrompt(d.chapters[i], body.feedback.value, story, context));
      var reply := complete(prompt.value);
      if !reply.Parsed? { return 500, prompt; }
      var chapters := d.chapters[i := Merge(d.chapters[i], reply.value)];
      var content := DraftContent(chapters);
      drafts := drafts[k.value := d.(chapters := chapters, content := content, wordCount := WordCount(content))];
      return 200, prompt;
    }
  }
}