/** The relational rows the pipeline reads and writes, the queue messages it
    sends, and the table operations (`updateMany`, `count`, lookups by id)
    the workers and routes perform on them. Every table is a sequence of
    rows in creation order. */
module Records {
  import opened Common
  import opened DraftText

  /** Row identifiers. The database generates them (cuids); here they are
      drawn from a counter, and rendered in decimal where a key needs text. */
  type Id = nat

  datatype ProjectStatus = DRAFT | UPLOADING | PROCESSING | COMPLETED | FAILED
  datatype JobType = STT | EXTRACT | WRITE | EXPORT_PDF | EXPORT_DOCX
  datatype JobStatus = PENDING | PROCESSING | COMPLETED | FAILED | CANCELLED

  datatype Project = Project(id: Id, userId: string, title: string, status: ProjectStatus)

  datatype AudioAsset = AudioAsset(
    id: Id, projectId: Id, clipIndex: int, filename: string, originalName: string,
    mimeType: string, size: real, s3Key: string, duration: Option<real>, s3Url: Option<string>)

  /** A job's `output` column: the DOCX bytes (base64 in the database) with
      their length, or the PDF placeholder message. */
  datatype JobOutput = DocxOutput(size: nat, data: Bytes) | PdfOutput(message: string)

  datatype Job = Job(
    id: Id, projectId: Id, jobType: JobType, status: JobStatus, progress: int,
    error: Option<string>, startedAt: Option<int>, completedAt: Option<int>, output: Option<JobOutput>)

  datatype Segment = Segment(start: real, end: real, text: string)

  datatype Transcript = Transcript(
    id: Id, audioAssetId: Id, projectId: Id, text: string, segments: seq<Segment>, language: string)

  /** A JSON value, as `JSON.parse` returns it; the extracted story's payload. */
  datatype Json =
    | JNull | JBool(b: bool) | JNumber(n: real) | JString(s: string)
    | JArray(items: seq<Json>) | JObject(fields: seq<(string, Json)>)

  datatype Story = Story(id: Id, projectId: Id, data: Json, version: int)

  datatype Draft = Draft(
    id: Id, projectId: Id, version: int, title: string, chapters: seq<Chapter>,
    content: string, wordCount: nat, pageCount: nat, isActive: bool)

  // Queue messages (the `data` of a BullMQ job)
  datatype SttMessage = SttMessage(projectId: Id, audioAssetId: Id, s3Key: string)
  datatype ExtractMessage = ExtractMessage(projectId: Id, transcriptIds: seq<Id>)
  datatype WriteMessage = WriteMessage(projectId: Id, storyId: Id)
  datatype ExportMessage = ExportMessage(projectId: Id, draftId: Id, format: string)

  // ---------------------------------------------------------------------
  // Jobs: `prisma.job.create`, `updateMany` keyed on (projectId, type), `count`

  /** A new row as `prisma.job.create({ data: { projectId, type, status: "PENDING" } })`
      writes it; `progress` takes the column default. */
  function NewJob(id: Id, projectId: Id, t: JobType, defaultProgress: int): Job {
    Job(id, projectId, t, JobStatus.PENDING, defaultProgress, None, None, None, None)
  }

  /** The `data` of the `updateMany` calls the workers make. */
  datatype JobUpdate =
    | Start(at: int)                                 // PROCESSING, startedAt
    | Complete(at: int)                              // COMPLETED, completedAt, progress 100
    | CompleteWith(at: int, output: JobOutput)       // COMPLETED, completedAt, output
    | Fail(message: string)                          // FAILED, error

  function Apply(j: Job, u: JobUpdate): Job {
    match u
    case Start(at) => j.(status := JobStatus.PROCESSING, startedAt := Some(at))
    case Complete(at) => j.(status := JobStatus.COMPLETED, completedAt := Some(at), progress := 100)
    case CompleteWith(at, out) => j.(status := JobStatus.COMPLETED, completedAt := Some(at), output := Some(out))
    case Fail(message) => j.(status := JobStatus.FAILED, error := Some(message))
  }

  /** The `where` of those calls: the project and the type, and with
      `pendingOnly` also `status: "PENDING"`. No job id is involved. */
  predicate Selected(j: Job, projectId: Id, t: JobType, pendingOnly: bool) {
    j.projectId == projectId && j.jobType == t && (!pendingOnly || j.status == JobStatus.PENDING)
  }

  function UpdateMany(jobs: seq<Job>, projectId: Id, t: JobType, pendingOnly: bool, u: JobUpdate): (r: seq<Job>)
    ensures |r| == |jobs|
  {
    if jobs == [] then []
    else
      [if Selected(jobs[0], projectId, t, pendingOnly) then Apply(jobs[0], u) else jobs[0]]
      + UpdateMany(jobs[1..], projectId, t, pendingOnly, u)
  }

  /** Row by row, an update rewrites exactly the selected rows. */
  lemma {:induction false} UpdateManyRows(jobs: seq<Job>, projectId: Id, t: JobType, pendingOnly: bool, u: JobUpdate)
    ensures forall i :: 0 <= i < |jobs| ==>
      UpdateMany(jobs, projectId, t, pendingOnly, u)[i]
        == (if Selected(jobs[i], projectId, t, pendingOnly) then Apply(jobs[i], u) else jobs[i])
    decreases |jobs|
  {
    if jobs != [] {
      UpdateManyRows(jobs[1..], projectId, t, pendingOnly, u);
      var r := UpdateMany(jobs, projectId, t, pendingOnly, u);
      forall i | 0 < i < |jobs|
        ensures r[i] == (if Selected(jobs[i], projectId, t, pendingOnly) then Apply(jobs[i], u) else jobs[i])
      {
        assert r[i] == UpdateMany(jobs[1..], projectId, t, pendingOnly, u)[i - 1];
        assert jobs[i] == jobs[1..][i - 1];
      }
    }
  }

  /** `prisma.job.count({ where: { projectId, type, status: { not: "COMPLETED" } } })`. */
  function CountIncomplete(jobs: seq<Job>, projectId: Id, t: JobType): nat {
    if jobs == [] then 0
    else
      (if jobs[0].projectId == projectId && jobs[0].jobType == t && jobs[0].status != JobStatus.COMPLETED then 1 else 0)
      + CountIncomplete(jobs[1..], projectId, t)
  }

  /** The number of rows of one project and type, whatever their status. */
  function CountOfType(jobs: seq<Job>, projectId: Id, t: JobType): nat {
    if jobs == [] then 0
    else (if jobs[0].projectId == projectId && jobs[0].jobType == t then 1 else 0) + CountOfType(jobs[1..], projectId, t)
  }

  /** A start touches exactly the PENDING rows of that project and type: they
      become PROCESSING with the start time; every other row is unchanged. */
  lemma StartTouchesOnlyPending(jobs: seq<Job>, p: Id, t: JobType, at: int)
    ensures var r := UpdateMany(jobs, p, t, true, Start(at));
      forall i :: 0 <= i < |jobs| ==>
        if jobs[i].projectId == p && jobs[i].jobType == t && jobs[i].status == JobStatus.PENDING
        then r[i] == jobs[i].(status := JobStatus.PROCESSING, startedAt := Some(at))
        else r[i] == jobs[i]
  {
  }

  /** Because completion is keyed on (projectId, type), after a completion no
      job of that project and type is left incomplete, whichever job the
      worker was running for. */
  lemma {:induction false} CompletionLeavesNoneIncomplete(jobs: seq<Job>, p: Id, t: JobType, at: int)
    ensures CountIncomplete(UpdateMany(jobs, p, t, false, Complete(at)), p, t) == 0
    decreases |jobs|
  {
    if jobs != [] {
      var r := UpdateMany(jobs, p, t, false, Complete(at));
      assert r[1..] == UpdateMany(jobs[1..], p, t, false, Complete(at));
      CompletionLeavesNoneIncomplete(jobs[1..], p, t, at);
    }
  }

  /** An update rewrites column values only: the number of rows of every
      project and type stays the same. */
  lemma {:induction false} UpdateKeepsCounts(jobs: seq<Job>, p: Id, t: JobType, pendingOnly: bool, u: JobUpdate, q: Id, s: JobType)
    ensures CountOfType(UpdateMany(jobs, p, t, pendingOnly, u), q, s) == CountOfType(jobs, q, s)
    decreases |jobs|
  {
    if jobs != [] {
      var r := UpdateMany(jobs, p, t, pendingOnly, u);
      assert r[1..] == UpdateMany(jobs[1..], p, t, pendingOnly, u);
      UpdateKeepsCounts(jobs[1..], p, t, pendingOnly, u, q, s);
    }
  }

  lemma {:induction false} CountOfTypeAppend(a: seq<Job>, b: seq<Job>, q: Id, s: JobType)
    ensures CountOfType(a + b, q, s) == CountOfType(a, q, s) + CountOfType(b, q, s)
    decreases |a|
  {
    if a != [] {
      assert (a + b)[1..] == a[1..] + b;
      CountOfTypeAppend(a[1..], b, q, s);
    } else {
      assert a + b == b;
    }
  }

  // ---------------------------------------------------------------------
  // Projects

  /** `prisma.project.update({ where: { id }, data: { status } })`. */
  function SetStatus(projects: seq<Project>, id: Id, st: ProjectStatus): (r: seq<Project>)
    ensures |r| == |projects|
    ensures forall i :: 0 <= i < |projects| ==>
      r[i] == if projects[i].id == id then projects[i].(status := st) else projects[i]
  {
    if projects == [] then []
    else [if projects[0].id == id then projects[0].(status := st) else projects[0]] + SetStatus(projects[1..], id, st)
  }

  /** The index of the first row the condition holds for, or none: the
      `findUnique`/`findFirst` lookups below are all this search. */
  function FindWhere<T>(rows: seq<T>, matches: T -> bool): (r: Option<nat>)
    ensures r.Some? ==> r.value < |rows| && matches(rows[r.value])
    ensures r.Some? ==> forall j :: 0 <= j < r.value ==> !matches(rows[j])
    ensures r.None? ==> forall i :: 0 <= i < |rows| ==> !matches(rows[i])
  {
    if rows == [] then None
    else if matches(rows[0]) then Some(0)
    else match FindWhere(rows[1..], matches)
      case None => None
      case Some(k) => Some(k + 1)
  }

  function FindProject(projects: seq<Project>, id: Id): (r: Option<nat>)
    ensures r.Some? ==> r.value < |projects| && projects[r.value].id == id
    ensures r.None? ==> forall i :: 0 <= i < |projects| ==> projects[i].id != id
  {
    FindWhere(projects, (p: Project) => p.id == id)
  }

  function FindAsset(assets: seq<AudioAsset>, id: Id): (r: Option<nat>)
    ensures r.Some? ==> r.value < |assets| && assets[r.value].id == id
    ensures r.None? ==> forall i :: 0 <= i < |assets| ==> assets[i].id != id
  {
    FindWhere(assets, (a: AudioAsset) => a.id == id)
  }

  function FindStory(stories: seq<Story>, id: Id): (r: Option<nat>)
    ensures r.Some? ==> r.value < |stories| && stories[r.value].id == id
    ensures r.None? ==> forall i :: 0 <= i < |stories| ==> stories[i].id != id
  {
    FindWhere(stories, (s: Story) => s.id == id)
  }

  /** The story of a project (`where: { projectId }`, a unique column). */
  function FindStoryOf(stories: seq<Story>, projectId: Id): (r: Option<nat>)
    ensures r.Some? ==> r.value < |stories| && stories[r.value].projectId == projectId
    ensures r.None? ==> forall i :: 0 <= i < |stories| ==> stories[i].projectId != projectId
  {
    FindWhere(stories, (s: Story) => s.projectId == projectId)
  }

  function FindDraft(drafts: seq<Draft>, id: Id): (r: Option<nat>)
    ensures r.Some? ==> r.value < |drafts| && drafts[r.value].id == id
    ensures r.None? ==> forall i :: 0 <= i < |drafts| ==> drafts[i].id != id
  {
    FindWhere(drafts, (d: Draft) => d.id == id)
  }

  // ---------------------------------------------------------------------
  // Audio assets

  /** A project's assets, in table order (`include: { audioAssets: true }`). */
  function AssetsOf(assets: seq<AudioAsset>, projectId: Id): (r: seq<AudioAsset>)
    ensures |r| <= |assets|
    ensures forall a :: a in r <==> a in assets && a.projectId == projectId
  {
    if assets == [] then []
    else (if assets[0].projectId == projectId then [assets[0]] else []) + AssetsOf(assets[1..], projectId)
  }

  /** `project.audioAssets.find((a) => a.clipIndex === clipIndex)`, as an
      index into the whole table. */
  function FindClip(assets: seq<AudioAsset>, projectId: Id, clipIndex: int): (r: Option<nat>)
    ensures r.Some? ==> r.value < |assets| && assets[r.value].projectId == projectId && assets[r.value].clipIndex == clipIndex
    ensures r.None? ==> forall i :: 0 <= i < |assets| ==> !(assets[i].projectId == projectId && assets[i].clipIndex == clipIndex)
  {
    FindWhere(assets, (a: AudioAsset) => a.projectId == projectId && a.clipIndex == clipIndex)
  }

  lemma {:induction false} AssetsOfAppend(a: seq<AudioAsset>, b: seq<AudioAsset>, p: Id)
    ensures AssetsOf(a + b, p) == AssetsOf(a, p) + AssetsOf(b, p)
    decreases |a|
  {
    if a != [] {
      assert (a + b)[1..] == a[1..] + b;
      AssetsOfAppend(a[1..], b, p);
    } else {
      assert a + b == b;
    }
  }

  /** Rewriting one row's non-key columns keeps every project's asset count. */
  lemma {:induction false} AssetsOfUpdate(assets: seq<AudioAsset>, k: nat, a: AudioAsset, p: Id)
    requires k < |assets| && a.projectId == assets[k].projectId
    ensures |AssetsOf(assets[k := a], p)| == |AssetsOf(assets, p)|
    decreases |assets|
  {
    if k > 0 {
      assert assets[k := a][1..] == assets[1..][k - 1 := a];
      AssetsOfUpdate(assets[1..], k - 1, a, p);
    } else {
      assert assets[k := a][1..] == assets[1..];
    }
  }

  // ---------------------------------------------------------------------
  // Transcripts

  /** A project's transcripts (`findMany({ where: { projectId } })`). The
      query names no order; the model takes them in creation order. */
  function TranscriptsOf(ts: seq<Transcript>, projectId: Id): (r: seq<Transcript>)
    ensures |r| <= |ts|
    ensures forall t :: t in r <==> t in ts && t.projectId == projectId
  {
    if ts == [] then []
    else (if ts[0].projectId == projectId then [ts[0]] else []) + TranscriptsOf(ts[1..], projectId)
  }

  /** The transcripts whose ids are listed (`where: { id: { in: ids } }`), in
      creation order whatever the order of the list. */
  function TranscriptsIn(ts: seq<Transcript>, ids: seq<Id>): (r: seq<Transcript>)
    ensures |r| <= |ts|
    ensures forall t :: t in r <==> t in ts && t.id in ids
  {
    if ts == [] then []
    else (if ts[0].id in ids then [ts[0]] else []) + TranscriptsIn(ts[1..], ids)
  }

  function TranscriptIds(ts: seq<Transcript>): (r: seq<Id>)
    ensures |r| == |ts|
    ensures forall i :: 0 <= i < |ts| ==> r[i] == ts[i].id
  {
    if ts == [] then [] else [ts[0].id] + TranscriptIds(ts[1..])
  }

  function TranscriptTexts(ts: seq<Transcript>): (r: seq<string>)
    ensures |r| == |ts|
    ensures forall i :: 0 <= i < |ts| ==> r[i] == ts[i].text
  {
    if ts == [] then [] else [ts[0].text] + TranscriptTexts(ts[1..])
  }

  /** Listing a project's transcript ids and reading those ids back gives
      exactly the project's transcripts, in the same order: the extract
      message built by the STT worker loses and reorders nothing. */
  lemma {:induction false} TranscriptsInOwnIds(ts: seq<Transcript>, p: Id)
    requires forall i, j :: 0 <= i < j < |ts| ==> ts[i].id != ts[j].id
    ensures TranscriptsIn(ts, TranscriptIds(TranscriptsOf(ts, p))) == TranscriptsOf(ts, p)
    decreases |ts|
  {
    if ts != [] {
      var tail := ts[1..];
      var rest := TranscriptIds(TranscriptsOf(tail, p));
      assert forall i, j :: 0 <= i < j < |tail| ==> tail[i].id != tail[j].id by {
        forall i, j | 0 <= i < j < |tail| ensures tail[i].id != tail[j].id {
          assert tail[i] == ts[i + 1] && tail[j] == ts[j + 1];
        }
      }
      TranscriptsInOwnIds(tail, p);
      FirstIdNotInTail(ts, p);
      if ts[0].projectId == p {
        assert TranscriptsOf(ts, p) == [ts[0]] + TranscriptsOf(tail, p);
        assert TranscriptIds(TranscriptsOf(ts, p)) == [ts[0].id] + rest;
        TranscriptsInExtraId(tail, rest, ts[0].id);
      } else {
        assert TranscriptsOf(ts, p) == TranscriptsOf(tail, p);
      }
    }
  }

  /** With distinct ids, the first row's id is not among the ids of the
      project's later rows, nor carried by any later row. */
  lemma FirstIdNotInTail(ts: seq<Transcript>, p: Id)
    requires ts != []
    requires forall i, j :: 0 <= i < j < |ts| ==> ts[i].id != ts[j].id
    ensures forall i :: 0 <= i < |ts[1..]| ==> ts[1..][i].id != ts[0].id
    ensures ts[0].id !in TranscriptIds(TranscriptsOf(ts[1..], p))
  {
    var tail := ts[1..];
    forall i | 0 <= i < |tail| ensures tail[i].id != ts[0].id {
      assert tail[i] == ts[i + 1];
    }
    var ids := TranscriptIds(TranscriptsOf(tail, p));
    forall k | 0 <= k < |ids| ensures ids[k] != ts[0].id {
      assert TranscriptsOf(tail, p)[k] in tail;
    }
  }

  /** An id no row carries does not change the selection. */
  lemma {:induction false} TranscriptsInExtraId(ts: seq<Transcript>, ids: seq<Id>, x: Id)
    requires forall i :: 0 <= i < |ts| ==> ts[i].id != x
    ensures TranscriptsIn(ts, [x] + ids) == TranscriptsIn(ts, ids)
    decreases |ts|
  {
    if ts != [] {
      TranscriptsInExtraId(ts[1..], ids, x);
    }
  }

  /** `segments?.map((seg) => ({ start: seg.start, end: seg.end, text: seg.text.trim() })) || []`. */
  function TrimSegments(segments: Option<seq<Segment>>): (r: seq<Segment>)
    ensures segments.None? ==> r == []
    ensures segments.Some? ==> |r| == |segments.value|
    ensures segments.Some? ==> forall i :: 0 <= i < |r| ==>
      r[i] == segments.value[i].(text := Trim(segments.value[i].text))
  {
    if segments.None? then [] else TrimAll(segments.value)
  }

  function TrimAll(segs: seq<Segment>): (r: seq<Segment>)
    ensures |r| == |segs|
    ensures forall i :: 0 <= i < |segs| ==> r[i] == segs[i].(text := Trim(segs[i].text))
  {
    if segs == [] then [] else [segs[0].(text := Trim(segs[0].text))] + TrimAll(segs[1..])
  }

  // ---------------------------------------------------------------------
  // Drafts

  /** `prisma.draft.updateMany({ where: { projectId, isActive: true }, data: { isActive: false } })`. */
  function Deactivate(drafts: seq<Draft>, projectId: Id): (r: seq<Draft>)
    ensures |r| == |drafts|
    ensures forall i :: 0 <= i < |drafts| ==>
      r[i] == if drafts[i].projectId == projectId then drafts[i].(isActive := false) else drafts[i]
  {
    if drafts == [] then []
    else
      [if drafts[0].projectId == projectId then drafts[0].(isActive := false) else drafts[0]]
      + Deactivate(drafts[1..], projectId)
  }

  /** The version of `findFirst({ where: { projectId }, orderBy: { version: "desc" } })`. */
  function MaxVersion(drafts: seq<Draft>, projectId: Id): (r: Option<int>)
    ensures r.None? <==> forall i :: 0 <= i < |drafts| ==> drafts[i].projectId != projectId
    ensures r.Some? ==> forall i :: 0 <= i < |drafts| && drafts[i].projectId == projectId ==> drafts[i].version <= r.value
    ensures r.Some? ==> exists i :: 0 <= i < |drafts| && drafts[i].projectId == projectId && drafts[i].version == r.value
  {
    if drafts == [] then None
    else
      var rest := MaxVersion(drafts[1..], projectId);
      assert forall i :: 1 <= i < |drafts| ==> drafts[i] == drafts[1..][i - 1];
      if drafts[0].projectId != projectId || (rest.Some? && rest.value > drafts[0].version) then rest
      else Some(drafts[0].version)
  }

  /** The version a new draft gets: `(lastDraft?.version || 0) + 1`. */
  function NextVersion(drafts: seq<Draft>, projectId: Id): int {
    match MaxVersion(drafts, projectId)
    case None => 1
    case Some(v) => (if v == 0 then 0 else v) + 1
  }

  /** The next version is above every existing version of the project, and
      with no draft yet the first version is 1. */
  lemma NextVersionAboveAll(drafts: seq<Draft>, projectId: Id)
    ensures forall i :: 0 <= i < |drafts| && drafts[i].projectId == projectId ==>
      drafts[i].version < NextVersion(drafts, projectId)
    ensures (forall i :: 0 <= i < |drafts| ==> drafts[i].projectId != projectId) ==> NextVersion(drafts, projectId) == 1
  {
  }

  /** The number of active drafts of a project. */
  function ActiveCount(drafts: seq<Draft>, projectId: Id): nat {
    if drafts == [] then 0
    else (if drafts[0].projectId == projectId && drafts[0].isActive then 1 else 0) + ActiveCount(drafts[1..], projectId)
  }

  /** After deactivation the project has no active draft, and every other
      project keeps its count. */
  lemma {:induction false} DeactivateCounts(drafts: seq<Draft>, p: Id, q: Id)
    ensures ActiveCount(Deactivate(drafts, p), p) == 0
    ensures q != p ==> ActiveCount(Deactivate(drafts, p), q) == ActiveCount(drafts, q)
    decreases |drafts|
  {
    if drafts != [] {
      var r := Deactivate(drafts, p);
      assert r[1..] == Deactivate(drafts[1..], p);
      DeactivateCounts(drafts[1..], p, q);
    }
  }

  lemma {:induction false} ActiveCountAppend(a: seq<Draft>, b: seq<Draft>, q: Id)
    ensures ActiveCount(a + b, q) == ActiveCount(a, q) + ActiveCount(b, q)
    decreases |a|
  {
    if a != [] {
      assert (a + b)[1..] == a[1..] + b;
      ActiveCountAppend(a[1..], b, q);
    } else {
      assert a + b == b;
    }
  }

  /** The active drafts are the rows with `isActive`; a count of zero means none. */
  lemma {:induction false} ActiveCountZero(drafts: seq<Draft>, q: Id)
    ensures ActiveCount(drafts, q) == 0 <==> forall i :: 0 <= i < |drafts| ==> !(drafts[i].projectId == q && drafts[i].isActive)
    decreases |drafts|
  {
    if drafts != [] {
      ActiveCountZero(drafts[1..], q);
      assert forall i :: 1 <= i < |drafts| ==> drafts[i] == drafts[1..][i - 1];
    }
  }

  /** Rewriting a row without touching its project or its flag keeps every
      project's active count. */
  lemma {:induction false} ActiveCountUpdate(drafts: seq<Draft>, k: nat, d: Draft, q: Id)
    requires k < |drafts| && d.projectId == drafts[k].projectId && d.isActive == drafts[k].isActive
    ensures ActiveCount(drafts[k := d], q) == ActiveCount(drafts, q)
    decreases |drafts|
  {
    if k > 0 {
      assert drafts[k := d][1..] == drafts[1..][k - 1 := d];
      ActiveCountUpdate(drafts[1..], k - 1, d, q);
    } else {
      assert drafts[k := d][1..] == drafts[1..];
    }
  }
}
