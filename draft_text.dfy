/** The generated text of a draft: the chapter metrics the write worker and
    the section-regeneration route compute, the chapter merge of a
    regeneration, the combined transcript sent to the language model, and
    the paragraph tree of the DOCX export. */
module DraftText {
  import opened Common
  import opened Text

  /** One chapter as the language model returns it. */
  datatype Chapter = Chapter(title: string, content: string, citations: seq<string>, uncertainParts: seq<string>)

  const ParagraphBreak := "\n\n"

  // ---------------------------------------------------------------------
  // Draft metrics (src/workers/write-worker.ts:87-89, regenerate route:96-97)

  function Contents(chapters: seq<Chapter>): (r: seq<string>)
    ensures |r| == |chapters|
    ensures forall i :: 0 <= i < |chapters| ==> r[i] == chapters[i].content
  {
    if chapters == [] then [] else [chapters[0].content] + Contents(chapters[1..])
  }

  /** `chapters.map((c) => c.content).join("\n\n")`. */
  function DraftContent(chapters: seq<Chapter>): string {
    Join(Contents(chapters), ParagraphBreak)
  }

  /** `content.replace(/\s+/g, "").length`: the count of non-whitespace characters. */
  function WordCount(content: string): nat {
    |StripSpace(content)|
  }

  /** The sum of the chapters' own counts. */
  function TotalWords(chapters: seq<Chapter>): nat {
    if chapters == [] then 0 else WordCount(chapters[0].content) + TotalWords(chapters[1..])
  }

  /** The separator between chapters adds nothing to the count: a draft's
      word count is the sum of its chapters' counts. */
  lemma {:induction false} DraftWordCount(chapters: seq<Chapter>)
    ensures WordCount(DraftContent(chapters)) == TotalWords(chapters)
    decreases |chapters|
  {
    if |chapters| > 1 {
      var rest := chapters[1..];
      DraftWordCount(rest);
      assert Contents(chapters) == [chapters[0].content] + Contents(rest);
      JoinCons(chapters[0].content, Contents(rest), ParagraphBreak);
      StripSpaceAppend(chapters[0].content + ParagraphBreak, DraftContent(rest));
      StripSpaceAppend(chapters[0].content, ParagraphBreak);
      StripSpaceAllSpace(ParagraphBreak);
    } else if |chapters| == 1 {
      assert Contents(chapters) == [chapters[0].content];
    }
  }

  /** Replacing one chapter changes the total by exactly the difference of
      that chapter's counts. */
  lemma {:induction false} TotalWordsUpdate(chapters: seq<Chapter>, i: nat, c: Chapter)
    requires i < |chapters|
    ensures TotalWords(chapters[i := c]) == TotalWords(chapters) - WordCount(chapters[i].content) + WordCount(c.content)
    decreases |chapters|
  {
    if i > 0 {
      TotalWordsUpdate(chapters[1..], i - 1, c);
      assert chapters[i := c][1..] == chapters[1..][i - 1 := c];
    } else {
      assert chapters[i := c][1..] == chapters[1..];
    }
  }

  // ---------------------------------------------------------------------
  // Section regeneration's merge `{ ...chapter, ...newChapter }`

  /** The fields the model's JSON reply carries; an absent field keeps the
      old chapter's value. */
  datatype ChapterPatch = ChapterPatch(
    title: Option<string>, content: Option<string>,
    citations: Option<seq<string>>, uncertainParts: Option<seq<string>>)

  function Pick<T>(patch: Option<T>, current: T): T {
    if patch.Some? then patch.value else current
  }

  function Merge(c: Chapter, p: ChapterPatch): Chapter {
    Chapter(Pick(p.title, c.title), Pick(p.content, c.content),
            Pick(p.citations, c.citations), Pick(p.uncertainParts, c.uncertainParts))
  }

  // ---------------------------------------------------------------------
  // Combined transcript (src/workers/extract-worker.ts:25-33)

  /** `[녹음 n]` followed by a newline: the marker before the n-th transcript. */
  function RecordingLabel(n: nat): string {
    "[녹음 " + NatToString(n) + "]\n"
  }

  function LabelledParts(texts: seq<string>, first: nat): (parts: seq<string>)
    ensures |parts| == |texts|
    ensures forall i :: 0 <= i < |texts| ==> parts[i] == RecordingLabel(first + i) + texts[i]
  {
    if texts == [] then [] else [RecordingLabel(first) + texts[0]] + LabelledParts(texts[1..], first + 1)
  }

  /** `transcripts.map((t, i) => `[녹음 ${i + 1}]\n${t.text}`).join("\n\n")`. */
  function CombineTranscripts(texts: seq<string>): string {
    Join(LabelledParts(texts, 1), ParagraphBreak)
  }

  /** No transcript is lost: the n-th transcript (1-based) appears right
      after its marker `[녹음 n]`; with no transcripts the text is empty. */
  lemma CombinedHasEveryTranscript(texts: seq<string>)
    ensures texts == [] ==> CombineTranscripts(texts) == ""
    ensures forall i :: 0 <= i < |texts| ==>
      Contains(CombineTranscripts(texts), RecordingLabel(i + 1) + texts[i])
  {
    forall i | 0 <= i < |texts|
      ensures Contains(CombineTranscripts(texts), RecordingLabel(i + 1) + texts[i])
    {
      JoinContainsPart(LabelledParts(texts, 1), ParagraphBreak, i);
    }
  }

  // ---------------------------------------------------------------------
  // The DOCX paragraph tree (src/workers/export-worker.ts:43-69 and
  // src/app/api/export/route.ts:54-86); fonts, sizes and spacing are
  // presentation and are not modelled.

  datatype Paragraph =
    | TitleParagraph(text: string)     // HeadingLevel.TITLE
    | HeadingParagraph(text: string)   // HeadingLevel.HEADING_1
    | BodyParagraph(text: string)      // a TextRun paragraph

  function BodyParagraphs(parts: seq<string>): (ps: seq<Paragraph>)
    ensures |ps| == |parts|
    ensures forall i :: 0 <= i < |parts| ==> ps[i] == BodyParagraph(parts[i])
  {
    if parts == [] then [] else [BodyParagraph(parts[0])] + BodyParagraphs(parts[1..])
  }

  /** A chapter: its heading, then one paragraph per `"\n\n"`-separated part. */
  function ChapterParagraphs(c: Chapter): seq<Paragraph> {
    [HeadingParagraph(c.title)] + BodyParagraphs(Split(c.content, ParagraphBreak))
  }

  function ChaptersParagraphs(chapters: seq<Chapter>): seq<Paragraph> {
    if chapters == [] then [] else ChapterParagraphs(chapters[0]) + ChaptersParagraphs(chapters[1..])
  }

  /** The section's children: the title paragraph, then every chapter in order. */
  function DocxBody(title: string, chapters: seq<Chapter>): seq<Paragraph> {
    [TitleParagraph(title)] + ChaptersParagraphs(chapters)
  }

  // Reading a document back: the partner that shows the tree loses nothing.

  /** The length of the run of body paragraphs at the front. */
  function LeadingBodies(ps: seq<Paragraph>): (n: nat)
    ensures n <= |ps|
  {
    if ps != [] && ps[0].BodyParagraph? then 1 + LeadingBodies(ps[1..]) else 0
  }

  function Texts(ps: seq<Paragraph>): (r: seq<string>)
    ensures |r| == |ps|
    ensures forall i :: 0 <= i < |ps| ==> r[i] == ps[i].text
  {
    if ps == [] then [] else [ps[0].text] + Texts(ps[1..])
  }

  /** Headings with the body paragraphs after them, each run joined back
      with `"\n\n"`. */
  function ReadChapters(ps: seq<Paragraph>): seq<(string, string)>
    decreases |ps|
  {
    if ps == [] then []
    else if ps[0].HeadingParagraph? then
      var n := LeadingBodies(ps[1..]);
      [(ps[0].text, Join(Texts(ps[1..1 + n]), ParagraphBreak))] + ReadChapters(ps[1 + n..])
    else ReadChapters(ps[1..])
  }

  function ReadDocument(ps: seq<Paragraph>): Option<(string, seq<(string, string)>)> {
    if ps != [] && ps[0].TitleParagraph? then Some((ps[0].text, ReadChapters(ps[1..]))) else None
  }

  function TitlesAndContents(chapters: seq<Chapter>): (r: seq<(string, string)>)
    ensures |r| == |chapters|
    ensures forall i :: 0 <= i < |chapters| ==> r[i] == (chapters[i].title, chapters[i].content)
  {
    if chapters == [] then [] else [(chapters[0].title, chapters[0].content)] + TitlesAndContents(chapters[1..])
  }

  lemma {:induction false} LeadingBodiesOf(parts: seq<string>, rest: seq<Paragraph>)
    requires rest == [] || !rest[0].BodyParagraph?
    ensures LeadingBodies(BodyParagraphs(parts) + rest) == |parts|
    decreases |parts|
  {
    if parts != [] {
      assert (BodyParagraphs(parts) + rest)[1..] == BodyParagraphs(parts[1..]) + rest;
      LeadingBodiesOf(parts[1..], rest);
    } else {
      assert BodyParagraphs(parts) + rest == rest;
    }
  }

  /** A heading and its run of body paragraphs, followed by anything that
      does not start with a body paragraph, read back as one chapter. */
  lemma ReadRun(title: string, parts: seq<string>, rest: seq<Paragraph>)
    requires rest == [] || !rest[0].BodyParagraph?
    ensures ReadChapters([HeadingParagraph(title)] + BodyParagraphs(parts) + rest)
         == [(title, Join(parts, ParagraphBreak))] + ReadChapters(rest)
  {
    var bodies := BodyParagraphs(parts);
    var tail := bodies + rest;
    var ps := [HeadingParagraph(title)] + tail;
    assert [HeadingParagraph(title)] + bodies + rest == ps;
    assert ps[1..] == tail;
    LeadingBodiesOf(parts, rest);
    var n := |parts|;
    assert tail[..n] == bodies && tail[n..] == rest;
    assert Texts(bodies) == parts;
    assert ReadChapters(ps) == [(title, Join(Texts(tail[..n]), ParagraphBreak))] + ReadChapters(tail[n..]);
  }

  /** One chapter's paragraphs, so followed, read back as that chapter. */
  lemma ReadChapterStep(c: Chapter, rest: seq<Paragraph>)
    requires rest == [] || !rest[0].BodyParagraph?
    ensures ReadChapters(ChapterParagraphs(c) + rest) == [(c.title, c.content)] + ReadChapters(rest)
  {
    var parts := Split(c.content, ParagraphBreak);
    ReadRun(c.title, parts, rest);
    JoinSplit(c.content, ParagraphBreak);
  }

  lemma {:induction false} ReadChaptersInverse(chapters: seq<Chapter>)
    ensures ReadChapters(ChaptersParagraphs(chapters)) == TitlesAndContents(chapters)
    decreases |chapters|
  {
    if chapters != [] {
      var rest := ChaptersParagraphs(chapters[1..]);
      if chapters[1..] != [] {
        assert rest[0] == HeadingParagraph(chapters[1].title);
      }
      ReadChapterStep(chapters[0], rest);
      ReadChaptersInverse(chapters[1..]);
    }
  }

  /** Reading the DOCX tree back yields the title and every chapter's title
      and full content, in chapter order: no text is dropped or reordered. */
  lemma DocxRoundTrip(title: string, chapters: seq<Chapter>)
    ensures ReadDocument(DocxBody(title, chapters)) == Some((title, TitlesAndContents(chapters)))
  {
    assert DocxBody(title, chapters)[1..] == ChaptersParagraphs(chapters);
    ReadChaptersInverse(chapters);
  }

  lemma {:induction false} ChapterParagraphsIn(chapters: seq<Chapter>, i: nat, p: Paragraph)
    requires i < |chapters| && p in ChapterParagraphs(chapters[i])
    ensures p in ChaptersParagraphs(chapters)
    decreases |chapters|
  {
    if i > 0 {
      ChapterParagraphsIn(chapters[1..], i - 1, p);
    }
  }

  /** A citation or uncertainty marker inside a chapter (non-empty, with no
      line break in it) appears unbroken in one body paragraph of the DOCX. */
  lemma DocxKeepsMarker(title: string, chapters: seq<Chapter>, i: nat, marker: string)
    requires i < |chapters| && |marker| > 0
    requires forall k :: 0 <= k < |marker| ==> marker[k] != '\n'
    requires Contains(chapters[i].content, marker)
    ensures exists p :: BodyParagraph(p) in DocxBody(title, chapters) && Contains(p, marker)
  {
    var parts := Split(chapters[i].content, ParagraphBreak);
    SplitKeepsPiece(chapters[i].content, ParagraphBreak, marker);
    var p :| p in parts && Contains(p, marker);
    var k :| 0 <= k < |parts| && parts[k] == p;
    assert BodyParagraph(p) in ChapterParagraphs(chapters[i]) by {
      assert ChapterParagraphs(chapters[i])[1 + k] == BodyParagraph(p);
    }
    ChapterParagraphsIn(chapters, i, BodyParagraph(p));
  }
}
