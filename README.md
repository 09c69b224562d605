# Autobiography pipeline, modelled in Dafny

This project models the core of an autobiography service. A signed-in user
records or uploads up to three audio clips for a project and submits it.
Four workers then run in sequence:

- STT: each clip is transcribed.
- EXTRACT: a language model turns the transcripts into a structured story.
- WRITE: a draft in chapters is written from the story, with versions.
- EXPORT: the draft is packed as DOCX or a PDF placeholder.

Users can regenerate one chapter from feedback and export the active draft.
The model also covers:

- the unauthenticated one-chapter event: its presign and submit routes and the admin listing of submissions;
- the request schemas, the Korean phone helpers and the S3 key builders;
- the client state of the two landing pages, the question checklist and the samples pager.

The relational tables (projects, audio assets, jobs, transcripts, stories,
drafts) are sequences of rows in creation order. They live in one `class
Store` (`pipeline.dfy`) together with the append-only message lists of the
three queues. Each route handler and each worker run is a method of that
class. Every method keeps `Store.Valid()`:

- transcript ids are distinct;
- a project has at most one story and at most three assets;
- a project has at most one active draft, and that draft has the project's highest version.

Each method's `ensures` gives the whole new state: the status code or
outcome, and each changed table as a function of the old tables (`UpdateMany`,
`SetStatus`, `UpsertClip`, `UpsertStory`, `Deactivate`, …). The lemmas beside
those functions prove what the source promises.

External services are function-typed parameters: S3, Whisper, the chat
completions, the DOCX packer, URL signing, `getFileExtension`,
`generateEventAudioKey`, `encodeURIComponent`, the cuid check and `z.coerce`.
The clock is an integer parameter `now`, and database ids come from a counter.
The chat completion's answer is `Reply<T>`: the call failed, it had no
content, the JSON did not parse, or a parsed value.

Files:

| file | what it models |
|---|---|
| `common.dfy` | shared helpers: Option/Result, digits, JavaScript `trim`, substring search |
| `text.dfy` | `split`/`join` on a separator, `\s+` stripping |
| `records.dfy` | rows, queue messages and the ORM calls the code makes, as functions on sequences |
| `draft_text.dfy` | draft metrics, the chapter merge, the transcript combination, the DOCX paragraph tree |
| `pipeline.dfy` | the `Store` class and every route and worker that changes it |
| `export_route.dfy` | POST /api/export |
| `validations.dfy` | the zod schemas |
| `phone.dfy` | event-utils |
| `s3_keys.dfy` | the two key builders |
| `event_routes.dfy` | the two event routes |
| `admin_submissions.dfy` | GET /api/admin/submissions |
| `page_forms.dfy` | the pure parts of the two landing pages |
| `event_page.dfy`, `landing_page.dfy` | the pages' state |
| `question_panel.dfy` | the question checklist |
| `samples_pager.dfy` | the samples pager |

Where the code and its design notes disagree, the model follows the code:

- Every job update in the workers is keyed on the project and the job type, not on the job id. So one clip's success completes every STT job of the project. The count of incomplete STT jobs is then always zero, and each successful STT run enqueues another EXTRACT job. There is no "wait for the last clip" barrier, and none is claimed (`Pipeline.SttRunsAddOneExtractEach`).
- The submit route for event submissions cleans the phone, but the schema has already demanded a bare `01` plus eight or nine digits. The cleaning therefore never changes anything (`EventRoutes.StoredPhoneIsSubmittedPhone`).
- The export route's final 400 (src/app/api/export/route.ts:142) cannot be reached, because the schema admits only "pdf" and "docx". The model says so with `assert false`.
- The payment check of the export route is commented out. The payment row does not change the answer (`ExportRoute.NoPaymentGate`).

## Model

| member | source | states |
|---|---|---|
| Pipeline.Store.Submit | src/app/api/projects/submit/route.ts:9-72 | 401 without a session; 500 for an id the schema rejects; 404 for a missing or foreign project; 400 for a project without assets. Each of these changes nothing. Otherwise the project becomes PROCESSING whatever it was, and each asset gets exactly one new PENDING STT job and one STT message carrying its id and key. Existing job rows are not touched |
| Pipeline.Store.QueueTranscriptions | src/app/api/projects/submit/route.ts:43-64 | the loop appends one PENDING STT job and one message per asset, in asset order, and draws one id per asset |
| Pipeline.Store.EnqueueStt | src/app/api/projects/submit/route.ts:44-58 | one iteration: exactly one job row and one message are appended |
| Pipeline.SubmitJobCounts | src/app/api/projects/submit/route.ts:43-64 | submitting adds exactly one STT job per asset of that project, and no job of any other project or type |
| Pipeline.Store.Presign | src/app/api/upload/presign/route.ts:11-117 | 401 without a session. 500 for an upload the schema rejects after the content type is cut at `;`, or without a project id. 404 for a missing or foreign project. 400 once the project has three assets, even for an existing clip index. Each of these changes nothing. Otherwise the asset of that clip index is replaced or one is created under the key of the user, project, clip, time and extension ("webm" by default). The answer carries the signed URL, the asset id and the key, or is 500 once the row is written but no URL can be signed. The cap is never exceeded |
| Pipeline.UpsertClip | src/app/api/upload/presign/route.ts:54-92 | an existing asset of that project and clip index has its filename, name, type, size and key rewritten in place under its own id. Otherwise one row with a fresh id and filename `clip-{clipIndex}.{ext}` is appended |
| Pipeline.UpsertClipCount | src/app/api/upload/presign/route.ts:46-92 | replacing a clip keeps every project's asset count; creating one raises only that project's count, by one |
| Pipeline.ExtensionOr | src/app/api/upload/presign/route.ts:59 | an empty extension becomes "webm"; any other is kept |
| Pipeline.Store.Confirm | src/app/api/upload/confirm/route.ts:8-58 | 401 without a session; 404 for a missing asset or one of another user's project; 500 when no stream URL can be signed. On success only that asset's duration (when sent) and URL change, and its project returns to DRAFT whatever its status was |
| Pipeline.Store.StartJobs | src/workers/stt-worker.ts:25-28 | the start update is the table with the project's PENDING jobs of that type started |
| Pipeline.Store.CompleteJobs | src/workers/stt-worker.ts:83-86 | the completion update is the table with every job of that project and type completed |
| Pipeline.Store.FailStage | src/workers/stt-worker.ts:125-141 | every job of the project and type becomes FAILED with the message, and the project becomes FAILED |
| Pipeline.Store.RunStt | src/workers/stt-worker.ts:18-143 | the run succeeds exactly when the download has a body and the transcription succeeds. A failed download, a missing body or a failed transcription fails it with that message, writes no transcript, marks the STT jobs and the project FAILED, and adds no EXTRACT job. A success adds one "ko" transcript of that asset and project with trimmed segments, completes every STT job of the project, and adds one PENDING EXTRACT job and one extract message listing all of the project's transcript ids. It answers with the asset id, and assets, stories and drafts are untouched |
| Pipeline.TranscriptionOf | src/workers/stt-worker.ts:38-59 | a failed download gives its error; a missing body gives "Failed to download audio file" before any transcription; otherwise the transcription's own result |
| Pipeline.Store.FinishStt | src/workers/stt-worker.ts:60-141 | a failed transcription fails the stage; a successful one records the transcript and the EXTRACT job |
| Pipeline.Store.RecordTranscript | src/workers/stt-worker.ts:64-117 | one transcript is appended, every STT job of the project is completed, and exactly one EXTRACT job and one message with the project's transcript ids are added |
| Pipeline.Store.AddTranscript | src/workers/stt-worker.ts:72-80 | exactly one transcript row is appended, under a fresh id |
| Pipeline.Store.EnqueueExtract | src/workers/stt-worker.ts:99-117 | one PENDING EXTRACT job and one message with the ids of all of the project's transcripts |
| Pipeline.SttSuccessCompletesEveryClip | src/workers/stt-worker.ts:83-99 | after a successful run every STT job of the project is COMPLETED, whichever clip the run was for, so the remaining count is zero |
| Pipeline.SttSuccessAddsOneExtract | src/workers/stt-worker.ts:91-113 | a successful run adds exactly one job, an EXTRACT job of its project; no other count changes |
| Pipeline.SttRunsAddOneExtractEach | src/workers/stt-worker.ts:83-113 | n successful runs, one after another, add n EXTRACT jobs: the run for the last clip is not special |
| Pipeline.SttMessages | src/app/api/projects/submit/route.ts:52-58 | one message per asset, carrying that asset's id and key |
| Pipeline.Store.RunExtract | src/workers/extract-worker.ts:13-123 | the listed transcripts are read in creation order and combined with labels. A failed, empty or unparsable reply fails the run before any story write and marks the EXTRACT jobs and the project FAILED. A parsed reply upserts the project's one story, completes the EXTRACT jobs, and adds one PENDING WRITE job and one write message with the story's id, which it answers with |
| Pipeline.Store.ExtractReply | src/workers/extract-worker.ts:59-121 | the run succeeds exactly when the reply parsed; otherwise the stage fails with the reply's error |
| Pipeline.Store.StoreStory | src/workers/extract-worker.ts:64-83 | the story table is the upsert of the parsed data, the EXTRACT jobs are completed, and the answer is the story's id |
| Pipeline.Store.PutStory | src/workers/extract-worker.ts:67-77 | the story table is replaced, and an id is drawn only when a row was created |
| Pipeline.Store.EnqueueWrite | src/workers/extract-worker.ts:88-99 | one PENDING WRITE job and one message naming the story |
| Pipeline.UpsertStory | src/workers/extract-worker.ts:67-77 | an existing story of the project gets the new data and its version plus one; otherwise one story with the initial version is created |
| Pipeline.UpsertStoryFacts | src/workers/extract-worker.ts:67-77 | after an upsert the project has exactly one story, holding the new data; other projects' stories are unchanged, and the table stays one story per project |
| Pipeline.ExtractReadsProjectTranscripts | src/workers/extract-worker.ts:25-28 | the extract message's ids select exactly the project's transcripts, in creation order |
| Pipeline.ExtractSuccessAddsOneWrite | src/workers/extract-worker.ts:80-99 | a successful extract run adds exactly one job, a WRITE job of its project |
| Pipeline.Store.RunWrite | src/workers/write-worker.ts:26-155 | a missing story fails the run before any draft is touched. A failed reply fails it with no draft change; a failed insert fails it after the deactivation, leaving no active draft. Both mark the WRITE jobs and the project FAILED. A success deactivates the project's drafts and appends one active draft with the next version, the title or "나의 자서전", the joined content, the word count and the chapter count. It completes the WRITE jobs, makes the project COMPLETED, and answers with the draft id |
| Pipeline.Store.WriteReply | src/workers/write-worker.ts:79-153 | the same cases once the model has answered |
| Pipeline.Store.DeactivateDrafts | src/workers/write-worker.ts:92-95 | no draft of the project is active afterwards; other rows are unchanged |
| Pipeline.Store.SaveDraft | src/workers/write-worker.ts:87-127 | one draft is appended with the next version and the recomputed metrics, the WRITE jobs are completed and the project is COMPLETED |
| Pipeline.WriteLeavesOneActive | src/workers/write-worker.ts:92-115 | after deactivate-then-insert the project has exactly one active draft, the new one, and other projects' active counts are unchanged |
| Pipeline.DeactivateKeepsInvariant | src/workers/write-worker.ts:92-95 | deactivation keeps "at most one active draft, and it is the newest" |
| Pipeline.AddActiveKeepsInvariant | src/workers/write-worker.ts:98-115 | adding an active draft whose version is above all of its project's versions, to a project with no active draft, keeps the invariant |
| Pipeline.TitleOr | src/workers/write-worker.ts:108 | an absent or empty title becomes "나의 자서전"; a non-empty one is kept |
| Pipeline.Store.RunExport | src/workers/export-worker.ts:19-125 | a missing draft fails the run. "docx" packs the paragraph tree and completes every EXPORT_DOCX job of the project with the bytes and their length. Any other format completes the EXPORT_PDF jobs with the placeholder message. A failure marks FAILED only the jobs of the requested type. Nothing but the job table changes |
| Pipeline.Store.Regenerate | src/app/api/drafts/regenerate/route.ts:16-122 | 401 without a session; 500 for a body the schema rejects; 404 for a missing or foreign draft or a chapter index not below the chapter count. The prompt gets the chapter, the feedback, the story and at most 3000 characters of the transcripts joined by blank lines. A failed or empty reply is 500 with the draft unchanged. On success only that chapter changes, with the reply's fields overriding the old ones, and content and word count are recomputed. Version, activity, title, page count and every other draft keep their values |
| Pipeline.RegenerateCounts | src/app/api/drafts/regenerate/route.ts:90-97 | merging keeps the chapter count; the new word count is the old one less the replaced chapter's plus the merged chapter's |
| Pipeline.Prefix | src/app/api/drafts/regenerate/route.ts:64 | `substring(0, n)` gives at most n characters, a prefix of the text |
| Pipeline.NewJobs | src/app/api/projects/submit/route.ts:44-51 | n PENDING rows of one project and type, with consecutive ids |
| Pipeline.NewJobsCount | src/app/api/projects/submit/route.ts:44-51 | they add n to the count of that project and type and nothing to any other |
| Pipeline.SttMessagesSnoc | src/app/api/projects/submit/route.ts:43-58 | the messages for one more asset are the earlier ones plus that asset's |
| Pipeline.TranscriptIdsFreshGrow | src/workers/stt-worker.ts:72-80 | raising the id counter keeps transcript ids fresh |
| Pipeline.TranscriptIdsFreshAppend | src/workers/stt-worker.ts:72-80 | a transcript created under the counter's id, with the counter moved past it, keeps the ids distinct |
| Records.UpdateMany | src/workers/stt-worker.ts:25-28 | `updateMany` keeps the number of rows |
| Records.UpdateManyRows | src/workers/stt-worker.ts:25-28 | row by row, exactly the rows of that project and type (and PENDING, for a start) are rewritten; all others are equal |
| Records.StartTouchesOnlyPending | src/workers/stt-worker.ts:25-28 | a start makes the project's PENDING jobs of that type PROCESSING with the start time and leaves every other row equal |
| Records.CompletionLeavesNoneIncomplete | src/workers/stt-worker.ts:83-99 | after a completion keyed on project and type, no job of that project and type is incomplete |
| Records.UpdateKeepsCounts | src/workers/stt-worker.ts:83-86 | an update changes columns only: the count of rows of every project and type is unchanged |
| Records.SetStatus | src/app/api/projects/submit/route.ts:37-40 | only the project with that id changes, and only its status |
| Records.FindWhere | src/app/api/projects/submit/route.ts:20-27 | the index of the first row the condition holds for, or none when it holds for no row; every lookup below is this search |
| Records.FindProject | src/app/api/projects/submit/route.ts:20-27 | the index of a row with that id, or none when no row has it |
| Records.FindAsset | src/app/api/upload/confirm/route.ts:16-29 | the index of an asset with that id, or none |
| Records.FindStory | src/workers/write-worker.ts:38-49 | the index of a story with that id, or none |
| Records.FindStoryOf | src/workers/extract-worker.ts:67-77 | the index of the project's story, or none |
| Records.FindDraft | src/workers/export-worker.ts:23-30 | the index of a draft with that id, or none |
| Records.AssetsOf | src/app/api/projects/submit/route.ts:20-34 | exactly the project's assets |
| Records.FindClip | src/app/api/upload/presign/route.ts:54-56 | the project's asset with that clip index, or none |
| Records.AssetsOfUpdate | src/app/api/upload/confirm/route.ts:35-41 | rewriting one asset without moving it keeps every project's asset count |
| Records.TranscriptsOf | src/workers/stt-worker.ts:100-105 | exactly the project's transcripts (the model takes them in creation order; the query names no order) |
| Records.TranscriptsIn | src/workers/extract-worker.ts:25-28 | exactly the transcripts whose ids are listed, in creation order |
| Records.TranscriptIds | src/workers/stt-worker.ts:100-117 | the ids, one per transcript, in order |
| Records.TranscriptTexts | src/workers/extract-worker.ts:31-33 | the texts, one per transcript, in order |
| Records.TranscriptsInOwnIds | src/workers/extract-worker.ts:25-28 | reading back the listed ids of a project's transcripts gives those transcripts, when ids are distinct |
| Records.TrimSegments | src/workers/stt-worker.ts:64-69 | absent segments give an empty list; otherwise one segment per segment, with its text trimmed and the rest kept |
| Records.Deactivate | src/workers/write-worker.ts:92-95 | the project's drafts become inactive; every other column and row is equal |
| Records.MaxVersion | src/workers/write-worker.ts:98-101 | none when the project has no draft; otherwise the highest version among its drafts |
| Records.NextVersionAboveAll | src/workers/write-worker.ts:98-107 | the new version is above every version of the project, and 1 for a project with no draft |
| Records.DeactivateCounts | src/workers/write-worker.ts:92-95 | afterwards the project has no active draft and every other project's active count is unchanged |
| Records.ActiveCountZero | src/workers/write-worker.ts:92-95 | a zero active count means no row of the project is active |
| Records.ActiveCountUpdate | src/app/api/drafts/regenerate/route.ts:100-107 | rewriting a draft without touching its project or its flag keeps every active count |
| DraftText.DraftWordCount | src/workers/write-worker.ts:87-89 | the blank-line separators add nothing: the word count of the content is the sum of the chapters' counts |
| DraftText.TotalWordsUpdate | src/app/api/drafts/regenerate/route.ts:96-97 | replacing one chapter changes the total by exactly the difference of the two chapters' counts |
| DraftText.Contents | src/workers/write-worker.ts:87 | the chapters' contents, in order |
| DraftText.LabelledParts | src/workers/extract-worker.ts:31-33 | the n-th part is `[녹음 n]` and a newline before the n-th text |
| DraftText.CombinedHasEveryTranscript | src/workers/extract-worker.ts:31-33 | no transcript is lost: each appears right after its label, and an empty list gives "" |
| DraftText.BodyParagraphs | src/workers/export-worker.ts:56-63 | one body paragraph per part, in order |
| DraftText.Texts | src/workers/export-worker.ts:56-63 | the paragraphs' texts, in order |
| DraftText.TitlesAndContents | src/workers/export-worker.ts:43-69 | each chapter's title and content, in order |
| DraftText.ReadChaptersInverse | src/workers/export-worker.ts:49-67 | reading headings and their body runs back, joined by blank lines, gives every chapter's title and content |
| DraftText.DocxRoundTrip | src/workers/export-worker.ts:43-69 | the document tree reads back as the draft's title followed by each chapter's title and exact content: no text is dropped |
| DraftText.DocxKeepsMarker | src/workers/export-worker.ts:56-63 | a citation or uncertainty marker inside a chapter appears verbatim in one of its body paragraphs |
| ExportRoute.Export | src/app/api/export/route.ts:14-147 | 401 without a session; 500 for an invalid request; 404 for a missing or foreign project or no active draft. Otherwise only the first active draft is exported, in both directions: an owned project with an active draft and format "pdf" always gets the HTML page; with format "docx" it gets the packed paragraph tree with its content type and disposition, or 500 when packing fails. A document is answered only in that case. No other status occurs |
| ExportRoute.FindActive | src/app/api/export/route.ts:28-31 | the first active draft of the project, or none when it has no active draft |
| ExportRoute.NoPaymentGate | src/app/api/export/route.ts:40-43 | the payment row does not change the answer |
| ExportRoute.ExportedDraftIsNewest | src/app/api/export/route.ts:45-48 | under the pipeline's invariant, the exported draft is the project's only active draft and has its highest version |
| ExportRoute.ParagraphsHtml | src/app/api/export/route.ts:121-125 | one `<p>` element per part, in order |
| ExportRoute.ChaptersHtml | src/app/api/export/route.ts:117-128 | one section per chapter, in order |
| ExportRoute.HtmlHasEveryParagraph | src/app/api/export/route.ts:117-128 | every blank-line-separated part of every chapter appears in the page inside its own `<p>` |
| ExportRoute.HtmlKeepsMarker | src/app/api/export/route.ts:106-128 | text is inserted unescaped: a marker inside a chapter appears verbatim in the page |
| ExportRoute.InChapterHtml | src/app/api/export/route.ts:101-130 | text inside one chapter paragraph's element is text of the page |
| ExportRoute.DocxExportRoundTrip | src/app/api/export/route.ts:54-86 | a DOCX answer reads back as the active draft's title and every chapter's title and content |
| Validations.NormalizeContentType | src/app/api/upload/presign/route.ts:22-25 | the content type is cut at `;`: the result is a prefix of it without `;`, and an absent type stays absent |
| Validations.NormalizeIdempotent | src/app/api/event/presign/route.ts:15-17 | normalising twice is normalising once |
| Validations.AccountUploadIsEventUpload | src/lib/validations.ts:4-17 | every upload the account schema accepts, plus a session id, is accepted by the event schema |
| Validations.ParseJobQuery | src/lib/validations.ts:61-67 | accepted exactly when the optional id is a cuid, 1 ≤ limit ≤ 100 and offset ≥ 0; the defaults are 20 and 0 |
| Validations.ParseSubmission | src/lib/validations.ts:87-101 | accepted exactly when name and birth date are non-empty, the phone is `01` and eight or nine digits, the subject is one of the listed ones and every file entry is well formed. The defaults are "본인" and no files, and the fields are kept as sent |
| Validations.ValidationExamples | src/__tests__/validations.test.ts:8-84 | the unit tests' cases: a 1 MB mp3 is accepted, 201 MB and video/mp4 and clip 4 are refused, titles are optional up to 100, and the export format is exactly "pdf" or "docx" |
| Validations.FractionalClipIndexAccepted | src/lib/validations.ts:16 | the clip index need not be a whole number: 1.5 is accepted |
| Validations.SplitFirstPiece | src/app/api/upload/presign/route.ts:24 | the first piece of a split on one character is a prefix without that character |
| Phone.CleanPhone | src/lib/event-utils.ts:42-44 | no whitespace or `-` is left, and the result is no longer than the input |
| Phone.CleanAppend | src/lib/event-utils.ts:42-44 | cleaning works character by character, so every other character is kept in order |
| Phone.CleanIdempotent | src/lib/event-utils.ts:42-44 | cleaning twice is cleaning once |
| Phone.ValidateFacts | src/lib/event-utils.ts:16-20 | a valid number cleans to 10 or 11 characters starting `01`, and validating the cleaned number gives the same answer |
| Phone.CleanFormat | src/lib/event-utils.ts:27-37 | cleaning the formatted number gives the cleaned input |
| Phone.FormatIdempotent | src/lib/event-utils.ts:27-37 | formatting twice is formatting once |
| Phone.CleanDash | src/lib/event-utils.ts:42-44 | a dash between two texts is dropped and nothing else |
| S3Keys.AudioKey | src/lib/s3.ts:122-130 | `audio/{user}/{project}/clip-{clip}-{ts}.{ext}`, stated piece by piece |
| S3Keys.ExportKey | src/lib/s3.ts:135-142 | `exports/{user}/{project}/draft-{ts}.{format}`, stated piece by piece |
| S3Keys.AudioKeyInjectiveInTime | src/lib/s3.ts:128-129 | with the other arguments fixed, distinct timestamps give distinct audio keys |
| S3Keys.ExportKeyInjectiveInTime | src/lib/s3.ts:140-141 | with the other arguments fixed, distinct timestamps give distinct export keys |
| S3Keys.AudioAndExportKeysDiffer | src/lib/s3.ts:129-141 | an audio key is never an export key |
| EventRoutes.EventPresign | src/app/api/event/presign/route.ts:8-54 | 400 exactly when the schema rejects the body after the content type is cut. Otherwise the answer is "/api/event/upload" with local upload on, the clip index echoed, and the key of session, clip and extension |
| EventRoutes.EventExtensionFacts | src/app/api/event/presign/route.ts:33 | the extension is a suffix of the name without `.`, preceded by `.` unless it is the whole name; a name without `.` is its own extension, and a trailing `.` gives "webm" |
| EventRoutes.SplitLastIsSuffix | src/app/api/event/presign/route.ts:33 | the last piece of a split ends the string, after the separator unless it is the whole string |
| EventRoutes.RowOf | src/app/api/event/submit/route.ts:31-53 | the stored row has the cleaned phone, `subjectOther` only for "기타", status PENDING, equal creation and update times, and the other fields as parsed |
| EventRoutes.SubmissionTable.Submit | src/app/api/event/submit/route.ts:16-69 | 400 with nothing inserted for a body the schema rejects; 500 with nothing inserted when the insert fails; otherwise exactly one row is appended and its id returned |
| EventRoutes.StoredPhoneIsSubmittedPhone | src/app/api/event/submit/route.ts:31-47 | the stored phone is the submitted phone, and it passes `validateKoreanPhone` |
| AdminSubmissions.NumberParam | src/app/api/admin/submissions/route.ts:11-15 | an absent parameter gives the default; a present one gives its coerced number, or none when it is not a number |
| AdminSubmissions.ParseQuery | src/app/api/admin/submissions/route.ts:11-35 | accepted exactly when the status is in the enum (when given), the limit is in [1, 100] (default 50) and the offset is at least 0 (default 0) |
| AdminSubmissions.BuildListQuery | src/app/api/admin/submissions/route.ts:40-54 | with a status: `WHERE status = $1`, `LIMIT $2 OFFSET $3` and values status, limit, offset; without: `LIMIT $1 OFFSET $2` and values limit, offset. The placeholders are 1..k in order, k being the number of values |
| AdminSubmissions.BuildCountQuery | src/app/api/admin/submissions/route.ts:57-62 | the count query has `$1` with the status as its only value exactly when a status is given, and no placeholder otherwise |
| AdminSubmissions.SelectPlaceholders | src/app/api/admin/submissions/route.ts:40-54 | the list query's placeholders are 1, 2, 3 with a status and 1, 2 without |
| AdminSubmissions.CountPlaceholders | src/app/api/admin/submissions/route.ts:57-62 | the count query's placeholders are [1] with a status and none without |
| AdminSubmissions.PageClausePlaceholders | src/app/api/admin/submissions/route.ts:52-54 | the page clause numbered from n has placeholders n and n + 1 |
| AdminSubmissions.PlaceholderStep | src/app/api/admin/submissions/route.ts:44-54 | text with no `$` adds no placeholder, and `$n` adds n |
| AdminSubmissions.ErrorStatus | src/app/api/admin/submissions/route.ts:85-96 | "Forbidden" gives 403, "Unauthorized" 401, anything else 500 |
| AdminSubmissions.ErrorResponse | src/app/api/admin/submissions/route.ts:85-96 | the error body matches the status: "Forbidden", "Unauthorized", or "Failed to fetch submissions" |
| AdminSubmissions.Get | src/app/api/admin/submissions/route.ts:20-97 | 403 unless the caller is an admin; 400 for a rejected query. For an admin with a valid query, the list and count queries run with the texts and values the builders give. A failed list query answers its mapped error, then a failed count query answers its mapped error. Otherwise the answer lists exactly the rows the list query returned, with the count as the total, the query's limit and offset, and `hasMore` exactly when offset + limit < total |
| AdminSubmissions.ParseExamples | src/app/api/admin/submissions/route.ts:11-35 | no parameters give limit 50 and offset 0; an unknown status, limit 0 and a non-numeric offset are refused |
| AdminSubmissions.Ordinals | src/app/api/admin/submissions/route.ts:44-54 | 1..k in order |
| PageForms.DigitsOnly | src/app/chapter1-event/page.tsx:168 | only ASCII digits, no more than there were characters |
| PageForms.PhoneDigits | src/app/chapter1-event/page.tsx:168 | the first eleven kept digits, or all of them when there are fewer |
| PageForms.FormatPhoneInput | src/app/chapter1-event/page.tsx:167-177 | no dash up to three digits, `ddd-rest` up to seven, `ddd-dddd-rest` beyond, with the digits in order |
| PageForms.FormattedDigits | src/app/chapter1-event/page.tsx:167-177 | the formatted text holds exactly the kept digits, and cleaning it gives them back |
| PageForms.FormatPhoneInputIdempotent | src/app/page.tsx:241-260 | typing over the formatted text changes nothing |
| PageForms.PhoneCheckSeesDigits | src/app/chapter1-event/page.tsx:188-194 | validating the formatted input judges just the kept digits |
| PageForms.DashDropped | src/app/chapter1-event/page.tsx:167-177 | a dash between two texts is dropped by both the digit filter and the cleaner |
| PageForms.RecordingExtension | src/app/chapter1-event/page.tsx:74-77 | "webm" exactly when the type mentions webm; "mp3" exactly when it mentions neither webm, mp4 nor m4a but mpeg or mp3; "m4a" otherwise |
| PageForms.PresignKeepsRecordingExtension | src/app/page.tsx:66-76 | the event presign route reads back from `recording-{clip}.{ext}` the extension the page chose |
| PageForms.LastPieceOfDotted | src/app/api/event/presign/route.ts:33 | after a final `.`, an extension without `.` is the last piece |
| PageForms.RecordingRequest | src/app/chapter1-event/page.tsx:72-86 | the presign request names `recording-{now}.{ext}` and carries `now` as the clip index |
| PageForms.UploadedFile | src/app/chapter1-event/page.tsx:106-109 | the listed entry keeps the request's clip index and filename and the presigned key |
| PageForms.WithoutClip | src/app/chapter1-event/page.tsx:162-163 | exactly the entries with another clip index are kept |
| PageForms.WithoutClipAppend | src/app/chapter1-event/page.tsx:162-163 | the filter works entry by entry, so the kept entries stay in order |
| PageForms.WithoutAbsentClip | src/app/page.tsx:233-238 | deleting an unlisted clip changes nothing |
| PageForms.EventFormCheck | src/app/chapter1-event/page.tsx:179-199 | the first failing check, in the order name, birth date, phone, files; none exactly when all pass |
| PageForms.LandingFormCheck | src/app/page.tsx:263-306 | the event page's four checks first, then a blank `subjectOther` for "기타" |
| PageForms.Entries | src/app/chapter1-event/page.tsx:201-212 | the listed files as the body sends them, one entry per file with its key and clip index |
| PageForms.CheckedEventFormIsAccepted | src/app/chapter1-event/page.tsx:179-212 | a form that passes the page's checks is accepted by the submit route with the cleaned phone |
| PageForms.CheckedLandingFormIsAccepted | src/app/page.tsx:263-323 | a checked home-page form is accepted, and the row carries a non-blank `subjectOther` for "기타" and none otherwise |
| EventPage.Page.constructor | src/app/chapter1-event/page.tsx:47-55 | every field starts empty, with no confirmation and recorder key 0 |
| EventPage.Page.RecordingComplete | src/app/chapter1-event/page.tsx:63-115 | a blob under 100 bytes is ignored and a fourth file refused, with no change. Otherwise the recording is listed exactly when every upload call succeeds, and the list never exceeds three |
| EventPage.Page.FileUpload | src/app/chapter1-event/page.tsx:117-160 | the fourth file is refused; otherwise the file is listed with duration 0 exactly when the upload succeeds |
| EventPage.Page.DeleteAudio | src/app/chapter1-event/page.tsx:162-165 | the list loses exactly the entries with that clip index |
| EventPage.Page.PhoneChange | src/app/chapter1-event/page.tsx:167-177 | the phone field holds the formatted input |
| EventPage.Page.Submit | src/app/chapter1-event/page.tsx:179-229 | the first failing check is reported with nothing changed; a failed request changes nothing; a successful one opens the confirmation, clears the form and bumps the recorder key |
| EventPage.Page.ResetAfterSubmit | src/app/chapter1-event/page.tsx:216-222 | the confirmation opens, the fields and the list are cleared, and the recorder key rises by one |
| LandingPage.Page.constructor | src/app/page.tsx:28-38 | every field starts empty, with subject "본인", no confirmation and recorder key 0 |
| LandingPage.Page.RecordingComplete | src/app/page.tsx:48-146 | as on the event page: tiny blobs ignored, a fourth file refused, listed on success |
| LandingPage.Page.FileUpload | src/app/page.tsx:149-230 | the fourth file is refused; otherwise listed with duration 0 on success |
| LandingPage.Page.DeleteAudio | src/app/page.tsx:233-238 | the list loses exactly the entries with that clip index |
| LandingPage.Page.PhoneChange | src/app/page.tsx:241-260 | the phone field holds the formatted input |
| LandingPage.Page.Submit | src/app/page.tsx:263-349 | the first failing check, subject included, is reported with nothing changed; the body sends `subjectOther` only for "기타"; success clears the form, resets the subject to "본인" and bumps the recorder key |
| LandingPage.Page.ResetAfterSubmit | src/app/page.tsx:328-338 | the confirmation opens, the fields are cleared, the subject is "본인" again and the recorder key rises by one |
| QuestionPanel.StorageKey | src/components/recording/question-panel.tsx:70 | `questions-{projectId}` for a non-empty project id, else `questions-{sessionId}`, else `questions-default` |
| QuestionPanel.StorageKeysSeparateProjects | src/components/recording/question-panel.tsx:70 | different projects use different keys |
| QuestionPanel.Dedup | src/components/recording/question-panel.tsx:76 | `new Set(list)`: no repeats and exactly the list's elements |
| QuestionPanel.DedupOfNoRepeats | src/components/recording/question-panel.tsx:76 | a list without repeats becomes the same sequence |
| QuestionPanel.Remove | src/components/recording/question-panel.tsx:85 | every element but the removed one, without repeats |
| QuestionPanel.Toggled | src/components/recording/question-panel.tsx:82-88 | the id's membership flips, and every other id's does not |
| QuestionPanel.ToggleTwiceRestoresSet | src/components/recording/question-panel.tsx:82-88 | toggling twice gives back the same set and size |
| QuestionPanel.CountOfNoRepeats | src/components/recording/question-panel.tsx:67 | two repeat-free lists with the same elements have the same size |
| QuestionPanel.Panel.constructor | src/components/recording/question-panel.tsx:65-70 | nothing is checked; the key is chosen as above |
| QuestionPanel.Panel.Load | src/components/recording/question-panel.tsx:73-78 | a saved list replaces the checked set with its elements (the list itself when it has no repeats); without one nothing changes |
| QuestionPanel.Panel.Rerender | src/components/recording/question-panel.tsx:70-78 | the key is recomputed from the new props; when it changed, a list saved under the new key replaces the checked set; otherwise the checked set is kept |
| QuestionPanel.Panel.Toggle | src/components/recording/question-panel.tsx:81-92 | the id's membership flips, no other id's does, the key stays the same, and storage holds the new set under that key with every other key unchanged |
| SamplesPager.AdjacentToPreload | src/app/samples/page.tsx:35-37 | exactly the existing, not yet loaded neighbours of the current page, previous first |
| SamplesPager.Pager.constructor | src/app/samples/page.tsx:11-13 | page 0, no lock, nothing loaded |
| SamplesPager.Pager.NextPage | src/app/samples/page.tsx:51-57 | forward one page and take the lock, unless on the last page or locked, in which case nothing changes; the page stays in range |
| SamplesPager.Pager.PrevPage | src/app/samples/page.tsx:59-65 | back one page and take the lock, unless on page 0 or locked |
| SamplesPager.Pager.GoToPage | src/app/samples/page.tsx:67-73 | jump and take the lock, unless the page is the current one or locked |
| SamplesPager.Pager.TimerFires | src/app/samples/page.tsx:55 | only the timeout releases the lock |
| SamplesPager.Pager.ImageLoaded | src/app/samples/page.tsx:22-24 | the loaded set only grows, by that page |
| Text.Split | src/workers/export-worker.ts:56 | at least one piece |
| Text.JoinSplit | src/workers/export-worker.ts:56 | joining the pieces back with the separator gives the text |
| Text.SplitPiecesFree | src/workers/export-worker.ts:56 | no piece contains the separator |
| Text.SplitKeepsPiece | src/app/api/export/route.ts:123 | text that shares no character with the separator lies inside one piece |
| Text.FindFirst | src/app/api/upload/presign/route.ts:24 | the first position of the separator, or none when it does not occur |
| Text.StripSpace | src/workers/write-worker.ts:88 | no whitespace is left, and the result is no longer than the text |
| Text.StripSpaceKeepsOthers | src/workers/write-worker.ts:88 | every character that is not whitespace is kept exactly as often as it occurs |
| Text.StripSpaceChar | src/workers/write-worker.ts:88 | a single character is dropped exactly when it is whitespace; with StripSpaceAppend this keeps the other characters in order |
| Text.StripSpaceAppend | src/workers/write-worker.ts:88 | stripping works piece by piece |
| Text.JoinContainsPart | src/workers/extract-worker.ts:33 | every part appears in the joined text |
| Common.NatToString | src/lib/s3.ts:128 | a non-empty run of digits |
| Common.NatToStringRoundTrip | src/lib/s3.ts:128 | the digits read back as the number |
| Common.NatToStringInjective | src/lib/s3.ts:128 | distinct numbers give distinct digit strings |
| Common.Trim | src/workers/stt-worker.ts:66 | a slice of the text that neither starts nor ends with whitespace |
| Common.TrimCutsOnlySpace | src/workers/stt-worker.ts:66 | the trimmed text is the slice after the leading whitespace, and every character cut away before or after it is whitespace |
| Common.TrimStart | src/workers/stt-worker.ts:66 | the text minus its leading whitespace |
| Common.TrimEnd | src/workers/stt-worker.ts:66 | the text minus its trailing whitespace |
| Common.BlankIffAllSpace | src/app/chapter1-event/page.tsx:180 | a text is blank after trimming exactly when it is all whitespace |

## Left out

- Strings are sequences of characters. JavaScript lengths and slices count UTF-16 code units, so the 3000-character prefix, the title lengths and the 11-digit cut agree only for text inside the Basic Multilingual Plane.
- The external services are parameters. The model says nothing about their internals: S3 GetObject, Whisper, the chat completions, the DOCX packer, the URL presigners, `getFileExtension`, `generateEventAudioKey` (not defined in src/lib/s3.ts), `encodeURIComponent`, the cuid check and `z.coerce.number`.
- The prompt texts and the model names are left out; only what the prompts are built from is modelled.
- Queue infrastructure is left out: retries, backoff, concurrency, and the interleaving of workers. The model is sequential, so it claims nothing about the race in the STT worker's check-then-count.
- `job.updateProgress`, the progress column's values and the question panel's percentage are floating-point UI progress and are left out; only the job status transitions are modelled.
- Logging, toasts' wording, `isSubmitting` and disabled buttons are left out. A toast is the returned `Notice`.
- Database errors other than a failed draft insert (`createFault`) and a failed submission insert (`newId` of `None`) are not modelled. A status update on a missing project row changes nothing, since the foreign key makes that row exist.
- Ids are natural numbers from a counter, not cuids.
- JSON and base64 serialisation are left out: the story is a parsed JSON value, and job output holds the bytes and their length.
- The KST date string of the submit route, `new Date(birthDate)`, is left out: `now` is an integer.
- Pipeline.Store.Presign: a fractional clip index passes the schema but fails at the integer database column; the model answers 500 before any write, without modelling the database error itself.
- Pipeline.Store.Regenerate: the transcripts included with the project are taken in creation order, since the query gives no order.
- Records.TranscriptsOf, Pipeline.Store.EnqueueExtract: the transcript query of the STT worker names no order, so the order of the ids in the extract message is up to the database. The model lists them in creation order. The extract worker sorts them again, so nothing downstream depends on it.
- The audio recorder component, fonts, spacing and the page layout are left out.
- AdminSubmissions.Get: when both queries fail, `Promise.all` reports whichever rejects first; the model reports the list query's error. `parseInt` of the count is taken as the number the database returns.
- EventPage.Page.RecordingComplete, EventPage.Page.FileUpload, LandingPage.Page.RecordingComplete, LandingPage.Page.FileUpload: each handler runs to completion before the next one starts. Two uploads started together read the same stale list in the browser and can list a fourth file; the model does not capture that.
- QuestionPanel.Panel.Load: a stored value that is not valid JSON makes the browser throw; the model stores lists only. The question texts and the collapse toggle are presentation.
- SamplesPager: the image URLs and the first preload of every page are left out. Only the loaded set and the adjacency filter are modelled.
- Pipeline.Store.RunExtract, Pipeline.Store.RunWrite: the transcripts and the story are read before the start update rather than after it. The two touch different tables, so the result is the same.
- `generateSessionId` is a parameter of the page constructors.
- Authentication: `requireAdmin` is modelled by the caller's role; a session is an optional user id.
