/** POST /api/export (src/app/api/export/route.ts): the caller's project's
    active draft as a DOCX file or as an HTML page to print. */
module ExportRoute {
  import opened Common
  import opened Text
  import opened DraftText
  import opened Records
  import Pipeline

  /** The request after `request.json()`; a project id that is not a cuid is
      `None`. */
  datatype ExportRequest = ExportRequest(projectId: Option<Id>, format: Option<string>)

  datatype Response =
    | Failure(status: int)
    | DocxFile(bytes: Bytes, contentType: string, disposition: string)
    | HtmlPage(html: string, contentType: string)

  const DocxContentType := "application/vnd.openxmlformats-officedocument.wordprocessingml.document"
  const HtmlContentType := "text/html; charset=utf-8"

  /** `exportRequestSchema`. */
  predicate RequestValid(req: ExportRequest) {
    req.projectId.Some? && req.format.Some? && (req.format.value == "pdf" || req.format.value == "docx")
  }

  /** `drafts: { where: { isActive: true }, take: 1 }`: the first active draft
      of the project. */
  function FindActive(drafts: seq<Draft>, projectId: Id): (r: Option<nat>)
    ensures r.Some? ==> r.value < |drafts| && drafts[r.value].projectId == projectId && drafts[r.value].isActive
    ensures r.Some? ==> forall j :: 0 <= j < r.value ==> !(drafts[j].projectId == projectId && drafts[j].isActive)
    ensures r.None? ==> forall j :: 0 <= j < |drafts| ==> !(drafts[j].projectId == projectId && drafts[j].isActive)
  {
    FindWhere(drafts, (d: Draft) => d.projectId == projectId && d.isActive)
  }

  // ---------------------------------------------------------------------
  // The HTML template (lines 101-130)

  const HtmlStyle :=
    "  <style>\n"
    + "    body { font-family: 'Noto Serif KR', Georgia, serif; line-height: 1.8; max-width: 800px; margin: 0 auto; padding: 40px; }\n"
    + "    h1 { font-size: 28px; margin-bottom: 40px; text-align: center; }\n"
    + "    h2 { font-size: 20px; margin-top: 40px; margin-bottom: 20px; }\n"
    + "    p { margin-bottom: 16px; text-indent: 2em; }\n"
    + "    .citation { color: #888; font-size: 12px; }\n"
    + "    .uncertain { background: #fffacd; padding: 2px 4px; }\n"
    + "  </style>\n"

  /** `<p>${para}</p>`, with the text inserted as it is. */
  function ParagraphHtml(para: string): string {
    "<p>" + para + "</p>"
  }

  function ParagraphsHtml(parts: seq<string>): (r: seq<string>)
    ensures |r| == |parts|
    ensures forall i :: 0 <= i < |parts| ==> r[i] == ParagraphHtml(parts[i])
  {
    if parts == [] then [] else [ParagraphHtml(parts[0])] + ParagraphsHtml(parts[1..])
  }

  /** One chapter: an `h2` with its title, then one `<p>` per
      `"\n\n"`-separated part, in order. */
  function ChapterHtml(c: Chapter): string {
    "\n    <h2>" + c.title + "</h2>\n    " + Concat(ParagraphsHtml(Split(c.content, ParagraphBreak))) + "\n  "
  }

  function ChaptersHtml(chapters: seq<Chapter>): (r: seq<string>)
    ensures |r| == |chapters|
    ensures forall i :: 0 <= i < |chapters| ==> r[i] == ChapterHtml(chapters[i])
  {
    if chapters == [] then [] else [ChapterHtml(chapters[0])] + ChaptersHtml(chapters[1..])
  }

  /** The page: the title in the head and in an `h1`, then the chapters. */
  function Html(title: string, chapters: seq<Chapter>): string {
    "\n<!DOCTYPE html>\n<html lang=\"ko\">\n<head>\n  <meta charset=\"UTF-8\">\n  <title>" + title + "</title>\n"
    + HtmlStyle
    + "</head>\n<body>\n  <h1>" + title + "</h1>\n  "
    + Concat(ChaptersHtml(chapters))
    + "\n</body>\n</html>"
  }

  /** `attachment; filename="${encodeURIComponent(title)}.docx"`. */
  function Disposition(encode: string -> string, title: string): string {
    "attachment; filename=\"" + encode(title) + ".docx\""
  }

  /** The handler. `payment` is the project's payment row, which the route
      loads and never consults. Schema failures and packing failures are
      500, as the catch block makes them. */
  function Export(session: Option<string>, req: ExportRequest, projects: seq<Project>, drafts: seq<Draft>,
                  payment: Option<string>, pack: seq<Paragraph> -> Result<Bytes>, encode: string -> string): (r: Response)
    ensures session.None? ==> r == Failure(401)
    ensures session.Some? && !RequestValid(req) ==> r == Failure(500)
    ensures session.Some? && RequestValid(req) ==>
      var k := FindProject(projects, req.projectId.value);
      && (k.None? || projects[k.value].userId != session.value ==> r == Failure(404))
      && (k.Some? && projects[k.value].userId == session.value && FindActive(drafts, req.projectId.value).None? ==> r == Failure(404))
    ensures !r.Failure? ==>
      && session.Some? && RequestValid(req)
      && FindProject(projects, req.projectId.value).Some?
      && projects[FindProject(projects, req.projectId.value).value].userId == session.value
      && FindActive(drafts, req.projectId.value).Some?
      && var d := drafts[FindActive(drafts, req.projectId.value).value];
         && (r.DocxFile? <==> req.format.value == "docx")
         && (r.DocxFile? ==> pack(DocxBody(d.title, d.chapters)) == Ok(r.bytes) && r.disposition == Disposition(encode, d.title)
                              && r.contentType == DocxContentType)
         && (r.HtmlPage? ==> r.html == Html(d.title, d.chapters) && r.contentType == HtmlContentType)
    ensures session.Some? && RequestValid(req) && FindProject(projects, req.projectId.value).Some?
            && projects[FindProject(projects, req.projectId.value).value].userId == session.value
            && FindActive(drafts, req.projectId.value).Some? ==>
      var d := drafts[FindActive(drafts, req.projectId.value).value];
      var packed := pack(DocxBody(d.title, d.chapters));
      && (req.format.value == "pdf" ==> r == HtmlPage(Html(d.title, d.chapters), HtmlContentType))
      && (req.format.value == "docx" && packed.Ok? ==> r == DocxFile(packed.value, DocxContentType, Disposition(encode, d.title)))
      && (req.format.value == "docx" && packed.Err? ==> r == Failure(500))
    ensures r.Failure? ==> r.status in {401, 404, 500}
  {
    if session.None? then Failure(401)
    else if !RequestValid(req) then Failure(500)
    else
      var p := req.projectId.value;
      var k := FindProject(projects, p);
      if k.None? || projects[k.value].userId != session.value then Failure(404)
      else match FindActive(drafts, p)
        case None => Failure(404)
        case Some(a) =>
          var d := drafts[a];
          if req.format.value == "docx" then
            match pack(DocxBody(d.title, d.chapters))
            case Err(_) => Failure(500)
            case Ok(bytes) => DocxFile(bytes, DocxContentType, Disposition(encode, d.title))
          else if req.format.value == "pdf" then HtmlPage(Html(d.title, d.chapters), HtmlContentType)
          else
            // Line 142's 400 is unreachable: the schema admits only these two formats.
            assert false; Failure(400)
  }

  // ---------------------------------------------------------------------
  // Properties

  /** The commented-out payment check is not in force: the payment row does
      not change the answer. */
  lemma NoPaymentGate(session: Option<string>, req: ExportRequest, projects: seq<Project>, drafts: seq<Draft>,
                      pay1: Option<string>, pay2: Option<string>, pack: seq<Paragraph> -> Result<Bytes>, encode: string -> string)
    ensures Export(session, req, projects, drafts, pay1, pack, encode) == Export(session, req, projects, drafts, pay2, pack, encode)
  {
  }

  /** When drafts satisfy the pipeline's invariant, the exported draft is
      the project's only active one and has its highest version. */
  lemma ExportedDraftIsNewest(drafts: seq<Draft>, p: Id)
    requires Pipeline.ActiveIsUniqueAndNewest(drafts)
    requires FindActive(drafts, p).Some?
    ensures var k := FindActive(drafts, p).value;
      forall j :: 0 <= j < |drafts| && j != k && drafts[j].projectId == p ==> !drafts[j].isActive && drafts[j].version < drafts[k].version
  {
  }

  /** Every `"\n\n"`-separated part of every chapter appears in the HTML
      wrapped in its own `<p>` element. */
  lemma {:induction false} HtmlHasEveryParagraph(title: string, chapters: seq<Chapter>, i: nat, j: nat)
    requires i < |chapters| && j < |Split(chapters[i].content, ParagraphBreak)|
    ensures Contains(Html(title, chapters), ParagraphHtml(Split(chapters[i].content, ParagraphBreak)[j]))
  {
    var para := ParagraphHtml(Split(chapters[i].content, ParagraphBreak)[j]);
    ContainsSelf(para);
    InChapterHtml(title, chapters, i, j, para);
  }

  /** A citation or uncertainty marker inside a chapter (non-empty, with no
      line break) appears verbatim in the HTML: the text goes in unescaped
      and no paragraph split cuts through it. */
  lemma HtmlKeepsMarker(title: string, chapters: seq<Chapter>, i: nat, marker: string)
    requires i < |chapters| && |marker| > 0
    requires forall k :: 0 <= k < |marker| ==> marker[k] != '\n'
    requires Contains(chapters[i].content, marker)
    ensures Contains(Html(title, chapters), marker)
  {
    var parts := Split(chapters[i].content, ParagraphBreak);
    SplitKeepsPiece(chapters[i].content, ParagraphBreak, marker);
    var j :| 0 <= j < |parts| && Contains(parts[j], marker);
    ContainsInContext("<p>", parts[j], "</p>", marker);
    InChapterHtml(title, chapters, i, j, marker);
  }

  /** Text inside one paragraph element of a chapter is text of the page. */
  lemma InChapterHtml(title: string, chapters: seq<Chapter>, i: nat, j: nat, pat: string)
    requires i < |chapters| && j < |Split(chapters[i].content, ParagraphBreak)|
    requires Contains(ParagraphHtml(Split(chapters[i].content, ParagraphBreak)[j]), pat)
    ensures Contains(Html(title, chapters), pat)
  {
    var c := chapters[i];
    var paras := ParagraphsHtml(Split(c.content, ParagraphBreak));
    ConcatContains(paras, j, pat);
    ContainsInContext("\n    <h2>" + c.title + "</h2>\n    ", Concat(paras), "\n  ", pat);
    ConcatContains(ChaptersHtml(chapters), i, pat);
    var head := "\n<!DOCTYPE html>\n<html lang=\"ko\">\n<head>\n  <meta charset=\"UTF-8\">\n  <title>" + title + "</title>\n"
      + HtmlStyle + "</head>\n<body>\n  <h1>" + title + "</h1>\n  ";
    ContainsInContext(head, Concat(ChaptersHtml(chapters)), "\n</body>\n</html>", pat);
  }

  /** A DOCX answer is the same paragraph tree as the export worker's, so
      reading it back gives the active draft's title and every chapter's
      title and content. */
  lemma DocxExportRoundTrip(session: Option<string>, req: ExportRequest, projects: seq<Project>, drafts: seq<Draft>,
                            payment: Option<string>, pack: seq<Paragraph> -> Result<Bytes>, encode: string -> string)
    requires Export(session, req, projects, drafts, payment, pack, encode).DocxFile?
    ensures var d := drafts[FindActive(drafts, req.projectId.value).value];
      ReadDocument(DocxBody(d.title, d.chapters)) == Some((d.title, TitlesAndContents(d.chapters)))
  {
    var d := drafts[FindActive(drafts, req.projectId.value).value];
    DocxRoundTrip(d.title, d.chapters);
  }
}
