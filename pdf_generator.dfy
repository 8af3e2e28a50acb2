/**
  The story building of `PDFGeneratorTool`: the list of paragraphs and spacers
  handed to the PDF library for a plain text and for a cover letter, the
  default output path of `text_to_pdf`, and the tool's record of the last file
  it produced. The library's layout step and the file system are parameters.
 */
module PdfGenerator {
  import opened Text
  import opened PdfWording

  // ---------------------------------------------------------------------
  // Stories
  // ---------------------------------------------------------------------

  /** The paragraph styles the tool defines: the centred title and the body of
      `create_pdf_from_text`, and the body of `create_cover_letter_pdf`. */
  datatype Style = TitleStyle | BodyStyle | LetterBodyStyle

  /** An entry of the story: a paragraph in a style, or blank space. */
  datatype Flowable = Paragraph(text: String, style: Style) | Spacer(width: nat, height: nat)

  type Story = seq<Flowable>

  /** A line or a chunk is blank when `strip()` leaves nothing of it. */
  predicate Blank(s: String) {
    Strip(s) == []
  }

  /** Text on one line that `strip()` leaves alone: non-empty, without
      whitespace at either end and without a line break. */
  predicate Solid(s: String) {
    |s| > 0 && !IsSpace(s[0]) && !IsSpace(s[|s| - 1]) && NoChar(s, '\n')
  }

  lemma {:induction false} SolidStripped(s: String)
    requires Solid(s)
    ensures Strip(s) == s
  {
    assert [] + s + [] == s;
    StripPadded([], s, []);
  }

  /** A line without a line break that is not blank strips to solid text. */
  lemma {:induction false} StrippedSolid(line: String)
    requires NoChar(line, '\n') && !Blank(line)
    ensures Solid(Strip(line))
  {
    StripSpec(line);
    StripNoChar(line, '\n');
  }

  /** The pieces of a split at line breaks hold no line break. */
  lemma {:induction false} SplitLinesFree(text: String)
    ensures forall k :: 0 <= k < |Split(text, "\n")| ==> NoChar(Split(text, "\n")[k], '\n')
  {
    var lines := Split(text, "\n");
    SplitPiecesFree(text, "\n");
    forall k | 0 <= k < |lines| ensures NoChar(lines[k], '\n') {
      NoCharFromNotContains(lines[k], '\n');
    }
  }

  // ---------------------------------------------------------------------
  // The story of `create_pdf_from_text`
  // ---------------------------------------------------------------------

  /** The title and a 12-point spacer, when there is a title. */
  function TitleItems(title: String): Story {
    if title != [] then [Paragraph(title, TitleStyle), Spacer(1, 12)] else []
  }

  /** A kept chunk as printed: stripped, with its line breaks made spaces. */
  function Clean(chunk: String): String {
    Replace(Strip(chunk), "\n", " ")
  }

  /** The chunks that are not blank, in their order. */
  function Kept(chunks: seq<String>): seq<String>
    decreases |chunks|
  {
    if chunks == [] then []
    else
      var last := chunks[|chunks| - 1];
      Kept(chunks[..|chunks| - 1]) + (if Blank(last) then [] else [last])
  }

  /** For every chunk that is not blank, its cleaned text and a 6-point
      spacer. */
  function ChunkItems(chunks: seq<String>): Story
    decreases |chunks|
  {
    if chunks == [] then []
    else
      var last := chunks[|chunks| - 1];
      ChunkItems(chunks[..|chunks| - 1]) +
        (if Blank(last) then [] else [Paragraph(Clean(last), BodyStyle), Spacer(1, 6)])
  }

  /** The story of a text under a title: the title entries, then the entries
      of the chunks between blank lines (`"\n\n"`). */
  function TextStory(title: String, textContent: String): Story {
    TitleItems(title) + ChunkItems(Split(textContent, "\n\n"))
  }

  lemma {:induction false} AppendPair(a: Story, b: Story, x: Flowable, y: Flowable)
    ensures a + b + [x] + [y] == a + (b + [x, y])
  {
  }

  lemma {:induction false} ChunkItemsStep(chunks: seq<String>, i: nat)
    requires i < |chunks|
    ensures ChunkItems(chunks[..i + 1]) == ChunkItems(chunks[..i]) +
      (if Blank(chunks[i]) then [] else [Paragraph(Clean(chunks[i]), BodyStyle), Spacer(1, 6)])
  {
    assert chunks[..i + 1][..i] == chunks[..i];
  }

  /** A chunk that is not blank prints as solid text: its stripped text with
      every line break turned into a space. */
  lemma {:induction false} CleanSolid(chunk: String)
    requires !Blank(chunk)
    ensures var c, s := Clean(chunk), Strip(chunk);
      Solid(c) && |c| == |s| && forall i :: 0 <= i < |s| ==> c[i] == if s[i] == '\n' then ' ' else s[i]
  {
    var s := Strip(chunk);
    StripSpec(chunk);
    ReplaceChar(s, '\n', ' ');
  }

  /** Keeping is a filter: it keeps exactly the chunks that are not blank. */
  lemma {:induction false} KeptMember(chunks: seq<String>, c: String)
    ensures c in Kept(chunks) <==> c in chunks && !Blank(c)
    decreases |chunks|
  {
    if chunks != [] {
      var init := chunks[..|chunks| - 1];
      KeptMember(init, c);
      assert chunks == init + [chunks[|chunks| - 1]];
    }
  }

  /** Keeping works chunk by chunk, so it keeps the chunks' order. */
  lemma {:induction false} KeptAppend(a: seq<String>, b: seq<String>)
    ensures Kept(a + b) == Kept(a) + Kept(b)
    decreases |b|
  {
    if b == [] {
      assert a + b == a;
    } else {
      var init := b[..|b| - 1];
      assert (a + b)[..|a + b| - 1] == a + init;
      KeptAppend(a, init);
    }
  }

  /** The body entries alternate: the k-th kept chunk, cleaned, then a
      6-point spacer, for every kept chunk in order and nothing else. */
  lemma {:induction false} ChunkItemsLayout(chunks: seq<String>)
    ensures var items, kept := ChunkItems(chunks), Kept(chunks);
      |items| == 2 * |kept| &&
      forall k :: 0 <= k < |kept| ==>
        items[2 * k] == Paragraph(Clean(kept[k]), BodyStyle) && items[2 * k + 1] == Spacer(1, 6)
    decreases |chunks|
  {
    if chunks != [] {
      ChunkItemsLayout(chunks[..|chunks| - 1]);
    }
  }

  /** Every paragraph of the entries is in the body style and solid. */
  predicate BodyParagraphs(items: Story) {
    forall k :: 0 <= k < |items| ==> items[k].Paragraph? ==>
      items[k].style == BodyStyle && Solid(items[k].text)
  }

  lemma {:induction false} ChunkItemsBody(chunks: seq<String>)
    ensures BodyParagraphs(ChunkItems(chunks))
    decreases |chunks|
  {
    if chunks != [] {
      var last := chunks[|chunks| - 1];
      var init := ChunkItems(chunks[..|chunks| - 1]);
      ChunkItemsBody(chunks[..|chunks| - 1]);
      if !Blank(last) {
        CleanSolid(last);
        var items := init + [Paragraph(Clean(last), BodyStyle), Spacer(1, 6)];
        assert ChunkItems(chunks) == items;
        assert forall k :: 0 <= k < |init| ==> items[k] == init[k];
      } else {
        assert ChunkItems(chunks) == init + [];
      }
    }
  }

  /** The title comes first, followed by its spacer, exactly when it is not
      empty; it is the only paragraph in the title style. */
  lemma {:induction false} TextStoryTitle(title: String, textContent: String)
    ensures var story, body := TextStory(title, textContent), ChunkItems(Split(textContent, "\n\n"));
      (title != [] ==>
        |story| >= 2 && story[..2] == [Paragraph(title, TitleStyle), Spacer(1, 12)] && story[2..] == body) &&
      (title == [] ==> story == body) &&
      forall k :: 0 <= k < |story| && story[k].Paragraph? && story[k].style == TitleStyle ==>
        k == 0 && title != []
  {
    var body := ChunkItems(Split(textContent, "\n\n"));
    var story := TextStory(title, textContent);
    ChunkItemsBody(Split(textContent, "\n\n"));
    if title != [] {
      assert story[..2] == [Paragraph(title, TitleStyle), Spacer(1, 12)];
      assert forall k :: 2 <= k < |story| ==> story[k] == body[k - 2];
    }
  }

  // ---------------------------------------------------------------------
  // The story of `create_cover_letter_pdf`
  // ---------------------------------------------------------------------

  /** The reading state after some lines of a letter: the paragraphs closed so
      far, each as its stripped lines, and the stripped lines of the paragraph
      still open. */
  datatype Reflow = Reflow(closed: seq<seq<String>>, open: seq<String>)

  const Fresh: Reflow := Reflow([], [])

  /** A blank line closes the open paragraph, if any; another line joins it. */
  function ReflowStep(st: Reflow, line: String): Reflow {
    var l := Strip(line);
    if l == [] then
      if st.open != [] then Reflow(st.closed + [st.open], []) else st
    else Reflow(st.closed, st.open + [l])
  }

  function ReflowFrom(st: Reflow, lines: seq<String>): Reflow
    decreases |lines|
  {
    if lines == [] then st
    else ReflowStep(ReflowFrom(st, lines[..|lines| - 1]), lines[|lines| - 1])
  }

  /** All paragraphs once the input ends: the closed ones and the open one. */
  function Close(st: Reflow): seq<seq<String>> {
    st.closed + (if st.open != [] then [st.open] else [])
  }

  /** The runs of non-blank lines, each as its stripped lines. */
  function Runs(lines: seq<String>): seq<seq<String>> {
    Close(ReflowFrom(Fresh, lines))
  }

  /** Each run as one paragraph, its lines joined by single spaces. */
  function JoinRuns(runs: seq<seq<String>>): (r: seq<String>)
    ensures |r| == |runs| && forall k :: 0 <= k < |runs| ==> r[k] == Join(runs[k], " ")
  {
    seq(|runs|, k requires 0 <= k < |runs| => Join(runs[k], " "))
  }

  function LetterParagraphs(coverLetterText: String): seq<String> {
    JoinRuns(Runs(Split(coverLetterText, "\n")))
  }

  function LetterItems(paragraphs: seq<String>): (r: Story)
    ensures |r| == |paragraphs| &&
      forall k :: 0 <= k < |paragraphs| ==> r[k] == Paragraph(paragraphs[k], LetterBodyStyle)
  {
    seq(|paragraphs|, k requires 0 <= k < |paragraphs| => Paragraph(paragraphs[k], LetterBodyStyle))
  }

  /** The story of a cover letter: one body paragraph per run of lines. */
  function LetterStory(coverLetterText: String): Story {
    LetterItems(LetterParagraphs(coverLetterText))
  }

  lemma {:induction false} LetterItemsSnoc(runs: seq<seq<String>>, run: seq<String>)
    ensures LetterItems(JoinRuns(runs + [run])) ==
      LetterItems(JoinRuns(runs)) + [Paragraph(Join(run, " "), LetterBodyStyle)]
  {
    var l := LetterItems(JoinRuns(runs + [run]));
    var r := LetterItems(JoinRuns(runs)) + [Paragraph(Join(run, " "), LetterBodyStyle)];
    assert forall k :: 0 <= k < |runs| ==> (runs + [run])[k] == runs[k];
    assert |l| == |r|;
    assert forall k :: 0 <= k < |l| ==> l[k] == r[k];
  }

  lemma {:induction false} ReflowPrefixStep(st: Reflow, lines: seq<String>, i: nat)
    requires i < |lines|
    ensures ReflowFrom(st, lines[..i + 1]) == ReflowStep(ReflowFrom(st, lines[..i]), lines[i])
  {
    assert lines[..i + 1][..i] == lines[..i];
  }

  lemma {:induction false} ReflowFromAppend(st: Reflow, a: seq<String>, b: seq<String>)
    ensures ReflowFrom(st, a + b) == ReflowFrom(ReflowFrom(st, a), b)
    decreases |b|
  {
    if b == [] {
      assert a + b == a;
    } else {
      var init := b[..|b| - 1];
      assert (a + b)[..|a + b| - 1] == a + init;
      ReflowFromAppend(st, a, init);
    }
  }

  /** Reading on after a break is reading afresh, behind the closed paragraphs. */
  lemma {:induction false} ReflowAfterBreak(c: seq<seq<String>>, lines: seq<String>)
    ensures var x := ReflowFrom(Fresh, lines);
      ReflowFrom(Reflow(c, []), lines) == Reflow(c + x.closed, x.open)
    decreases |lines|
  {
    if lines == [] {
      assert c + [] == c;
    } else {
      var init := lines[..|lines| - 1];
      ReflowAfterBreak(c, init);
      var x := ReflowFrom(Fresh, init);
      assert (c + x.closed) + [x.open] == c + (x.closed + [x.open]);
    }
  }

  /** A blank line separates: the runs around it are the runs of either side. */
  lemma {:induction false} RunsAtBlank(a: seq<String>, b: String, rest: seq<String>)
    requires Blank(b)
    ensures Runs(a + [b] + rest) == Runs(a) + Runs(rest)
  {
    ReflowFromAppend(Fresh, a + [b], rest);
    assert (a + [b])[..|a|] == a;
    assert ReflowFrom(Fresh, a + [b]) == ReflowStep(ReflowFrom(Fresh, a), b);
    assert ReflowFrom(Fresh, a + [b]) == Reflow(Runs(a), []);
    ReflowAfterBreak(Runs(a), rest);
    var x := ReflowFrom(Fresh, rest);
    assert (Runs(a) + x.closed) + (if x.open != [] then [x.open] else []) == Runs(a) + Runs(rest);
  }

  /** `strip()` of every line. */
  function StripAll(lines: seq<String>): (r: seq<String>)
    ensures |r| == |lines| && forall k :: 0 <= k < |lines| ==> r[k] == Strip(lines[k])
  {
    seq(|lines|, k requires 0 <= k < |lines| => Strip(lines[k]))
  }

  lemma {:induction false} ReflowBlock(lines: seq<String>)
    requires forall k :: 0 <= k < |lines| ==> !Blank(lines[k])
    ensures ReflowFrom(Fresh, lines) == Reflow([], StripAll(lines))
    decreases |lines|
  {
    if lines != [] {
      var init := lines[..|lines| - 1];
      ReflowBlock(init);
      assert StripAll(init) + [Strip(lines[|lines| - 1])] == StripAll(lines);
    }
  }

  /** Lines none of which is blank form a single run. */
  lemma {:induction false} RunsOfBlock(lines: seq<String>)
    requires |lines| > 0 && forall k :: 0 <= k < |lines| ==> !Blank(lines[k])
    ensures Runs(lines) == [StripAll(lines)]
  {
    ReflowBlock(lines);
  }

  lemma {:induction false} ReflowBlankLines(lines: seq<String>)
    requires forall k :: 0 <= k < |lines| ==> Blank(lines[k])
    ensures ReflowFrom(Fresh, lines) == Fresh
    decreases |lines|
  {
    if lines != [] {
      ReflowBlankLines(lines[..|lines| - 1]);
    }
  }

  /** Blank lines alone give no paragraph. */
  lemma {:induction false} RunsOfBlankLines(lines: seq<String>)
    requires forall k :: 0 <= k < |lines| ==> Blank(lines[k])
    ensures Runs(lines) == []
  {
    ReflowBlankLines(lines);
  }

  /** The number of non-blank lines at the start of `lines`. */
  function LeadingBlock(lines: seq<String>): (n: nat)
    ensures n <= |lines|
    ensures forall k :: 0 <= k < n ==> !Blank(lines[k])
    ensures n < |lines| ==> Blank(lines[n])
    decreases |lines|
  {
    if lines == [] || Blank(lines[0]) then 0 else 1 + LeadingBlock(lines[1..])
  }

  /** The maximal runs of non-blank lines, read from the front: blank lines
      are skipped, and a run takes every non-blank line up to the next blank
      one or the end. */
  function MaximalRuns(lines: seq<String>): seq<seq<String>>
    decreases |lines|
  {
    if lines == [] then []
    else if Blank(lines[0]) then MaximalRuns(lines[1..])
    else
      var n := LeadingBlock(lines);
      [StripAll(lines[..n])] + MaximalRuns(lines[n..])
  }

  /** The paragraphs the line loop gathers are exactly the maximal runs of
      non-blank lines, in order. */
  lemma {:induction false} RunsAreMaximal(lines: seq<String>)
    ensures Runs(lines) == MaximalRuns(lines)
    decreases |lines|
  {
    if lines == [] {
    } else if Blank(lines[0]) {
      RunsAreMaximal(lines[1..]);
      assert lines == [] + [lines[0]] + lines[1..];
      RunsAtBlank([], lines[0], lines[1..]);
      assert Runs([]) == [];
    } else {
      var n := LeadingBlock(lines);
      RunsOfBlock(lines[..n]);
      if n == |lines| {
        assert lines[..n] == lines;
        assert lines[n..] == [];
      } else {
        RunsAreMaximal(lines[n + 1..]);
        assert lines == lines[..n] + [lines[n]] + lines[n + 1..];
        RunsAtBlank(lines[..n], lines[n], lines[n + 1..]);
        assert lines[n..][1..] == lines[n + 1..];
      }
    }
  }

  /** The lines of the runs, one run after the other. */
  function Flatten(runs: seq<seq<String>>): seq<String>
    decreases |runs|
  {
    if runs == [] then [] else Flatten(runs[..|runs| - 1]) + runs[|runs| - 1]
  }

  /** `strip()` of every line that is not blank, in order. */
  function NonBlank(lines: seq<String>): seq<String>
    decreases |lines|
  {
    if lines == [] then []
    else
      var last := lines[|lines| - 1];
      NonBlank(lines[..|lines| - 1]) + (if Blank(last) then [] else [Strip(last)])
  }

  lemma {:induction false} ReflowContent(lines: seq<String>)
    ensures var st := ReflowFrom(Fresh, lines); Flatten(st.closed) + st.open == NonBlank(lines)
    decreases |lines|
  {
    if lines != [] {
      var init := lines[..|lines| - 1];
      ReflowContent(init);
      var st := ReflowFrom(Fresh, init);
      if Blank(lines[|lines| - 1]) && st.open != [] {
        assert (st.closed + [st.open])[..|st.closed|] == st.closed;
      }
    }
  }

  /** No line is lost or added: the runs, read in order, are the stripped
      non-blank lines. */
  lemma {:induction false} RunsContent(lines: seq<String>)
    ensures Flatten(Runs(lines)) == NonBlank(lines)
  {
    ReflowContent(lines);
    var st := ReflowFrom(Fresh, lines);
    if st.open != [] {
      assert (st.closed + [st.open])[..|st.closed|] == st.closed;
      assert Flatten(st.closed + [st.open]) == Flatten(st.closed) + st.open;
    } else {
      assert Runs(lines) == st.closed;
      assert Flatten(st.closed) + st.open == Flatten(st.closed);
    }
  }

  predicate SolidLines(run: seq<String>) {
    forall j :: 0 <= j < |run| ==> Solid(run[j])
  }

  predicate SolidRuns(runs: seq<seq<String>>) {
    forall i :: 0 <= i < |runs| ==> |runs[i]| > 0 && SolidLines(runs[i])
  }

  lemma {:induction false} ReflowSolid(lines: seq<String>)
    requires forall k :: 0 <= k < |lines| ==> NoChar(lines[k], '\n')
    ensures var st := ReflowFrom(Fresh, lines); SolidRuns(st.closed) && SolidLines(st.open)
    decreases |lines|
  {
    if lines != [] {
      var last := lines[|lines| - 1];
      ReflowSolid(lines[..|lines| - 1]);
      if !Blank(last) {
        StrippedSolid(last);
      }
    }
  }

  /** Every run of lines without line breaks is non-empty and made of solid
      lines. */
  lemma {:induction false} RunsSolid(lines: seq<String>)
    requires forall k :: 0 <= k < |lines| ==> NoChar(lines[k], '\n')
    ensures SolidRuns(Runs(lines))
  {
    ReflowSolid(lines);
  }

  /** Every paragraph of a letter is solid: non-empty, on one line and
      stripped, however many blank lines the letter has in a row. */
  lemma {:induction false} LetterParagraphsSolid(coverLetterText: String)
    ensures var ps := LetterParagraphs(coverLetterText);
      forall k :: 0 <= k < |ps| ==> Solid(ps[k]) && Strip(ps[k]) == ps[k]
  {
    var lines := Split(coverLetterText, "\n");
    SplitLinesFree(coverLetterText);
    RunsSolid(lines);
    var runs := Runs(lines);
    var ps := LetterParagraphs(coverLetterText);
    forall k | 0 <= k < |ps| ensures Solid(ps[k]) && Strip(ps[k]) == ps[k] {
      var run := runs[k];
      JoinEnds(run, " ");
      JoinNoChar(run, " ", '\n');
      SolidStripped(ps[k]);
    }
  }

  // ---------------------------------------------------------------------
  // The default output path of `text_to_pdf`
  // ---------------------------------------------------------------------

  /** The input path with its extension, as `os.path.splitext` cuts it,
      replaced by `.pdf`. */
  function DefaultPdfPath(textFilePath: String): String {
    Splitext(textFilePath).0 + PdfExtension
  }

  function OutputPath(textFilePath: String, pdfOutputPath: String): String {
    if pdfOutputPath != [] then pdfOutputPath else DefaultPdfPath(textFilePath)
  }

  /** An extension after a file name that is not all dots is swapped for
      `.pdf`. */
  lemma {:induction false} DefaultPdfPathSwapsExtension(root: String, ext: String)
    requires !AllDots(Basename(root))
    requires |ext| > 0 && ext[0] == '.' && NoChar(ext, '/') && NoChar(ext[1..], '.')
    ensures DefaultPdfPath(root + ext) == root + PdfExtension
  {
    var p, n := root + ext, |root|;
    RFindAppend(root, ext, '/');
    assert p[n..] == ext;
    assert p[n + 1..] == p[n..][1..];
    RFindAt(p, n, '.');
    var sep := RFind(root, '/');
    assert p[sep + 1..n] == root[sep + 1..];
    SplitextCutAt(p, n);
    assert p[..n] == root;
  }

  /** A `c` after which `s` holds no other `c` is the last one. */
  lemma {:induction false} RFindAt(s: String, n: nat, c: char)
    requires n < |s| && s[n] == c && NoChar(s[n + 1..], c)
    ensures RFind(s, c) == n
  {
    assert forall k | n < k < |s| :: s[k] == s[n + 1..][k - n - 1];
  }

  /** Where the last `.` lies after the last `/` and does not end a run of
      leading dots, splitext cuts there. */
  lemma {:induction false} SplitextCutAt(p: String, n: nat)
    requires n < |p| && RFind(p, '.') == n && RFind(p, '/') < n
    requires !AllDots(p[RFind(p, '/') + 1..n])
    ensures SplitextCut(p) == n
  {
  }

  /** A file name without a dot gets `.pdf` appended. */
  lemma {:induction false} DefaultPdfPathAppends(textFilePath: String)
    requires NoChar(Basename(textFilePath), '.')
    ensures DefaultPdfPath(textFilePath) == textFilePath + PdfExtension
  {
    var p := textFilePath;
    var sep := RFind(p, '/');
    assert Basename(p) == p[sep + 1..];
    assert forall k | sep < k < |p| :: p[k] == p[sep + 1..][k - sep - 1];
    assert SplitextCut(p) == |p|;
    assert p[..|p|] == p;
  }

  // ---------------------------------------------------------------------
  // The tool
  // ---------------------------------------------------------------------

  /** How `os.makedirs` or `open(...).read()` ended; `reason` is the text of
      the exception. */
  datatype Outcome = Ok | Raised(reason: String)

  datatype ReadOutcome = ReadText(content: String) | ReadRaised(reason: String)

  /** How `doc.build(story)` and the checks after it ended: an exception, or
      a build after which the file exists with a size, or does not. */
  datatype BuildOutcome = BuildRaised(reason: String) | Built(fileExists: bool, fileSize: nat)

  /** The outcome of the guarded directory step and the build: a failing
      `os.makedirs` is only reached when the path has a directory part. */
  function Attempt(outputFile: String, makeDirs: Outcome, build: BuildOutcome): BuildOutcome {
    if Dirname(outputFile) != [] && makeDirs.Raised? then BuildRaised(makeDirs.reason) else build
  }

  function Report(createdLead: String, errorLead: String, outputFile: String, outcome: BuildOutcome): String {
    match outcome
    case BuildRaised(e) => errorLead + e
    case Built(fileExists, fileSize) =>
      if fileExists then createdLead + outputFile + SizeOpen + NatToString(fileSize) + SizeClose
      else NotCreatedLead + outputFile
  }

  class PdfGeneratorTool {
    /** Whether the PDF library could be imported. */
    const reportlabAvailable: bool
    /** The output path of the last build that ran, or empty. */
    var lastGeneratedFile: String

    constructor (reportlabAvailable: bool)
      ensures this.reportlabAvailable == reportlabAvailable
      ensures lastGeneratedFile == []
    {
      this.reportlabAvailable := reportlabAvailable;
      lastGeneratedFile := [];
    }

    /** The story loop of `create_pdf_from_text`. */
    method BuildTextStory(title: String, textContent: String) returns (story: Story)
      ensures story == TextStory(title, textContent)
    {
      story := [];
      if title != [] {
        story := story + [Paragraph(title, TitleStyle)];
        story := story + [Spacer(1, 12)];
      }
      var paragraphs := Split(textContent, "\n\n");
      for i := 0 to |paragraphs|
        invariant story == TitleItems(title) + ChunkItems(paragraphs[..i])
      {
        var paraText := paragraphs[i];
        ChunkItemsStep(paragraphs, i);
        if Strip(paraText) != [] {
          var cleanText := Replace(Strip(paraText), "\n", " ");
          AppendPair(TitleItems(title), ChunkItems(paragraphs[..i]),
                     Paragraph(cleanText, BodyStyle), Spacer(1, 6));
          story := story + [Paragraph(cleanText, BodyStyle)];
          story := story + [Spacer(1, 6)];
        }
      }
      assert paragraphs[..|paragraphs|] == paragraphs;
    }

    /** The line loop of `create_cover_letter_pdf`: stripped non-blank lines
        gather into the current paragraph, a blank line closes it. */
    method ReflowCoverLetter(coverLetterText: String) returns (story: Story)
      ensures story == LetterStory(coverLetterText)
    {
      var lines := Split(coverLetterText, "\n");
      story := [];
      var currentParagraph: String := [];
      ghost var st := Fresh;
      for i := 0 to |lines|
        invariant st == ReflowFrom(Fresh, lines[..i])
        invariant forall k :: 0 <= k < |st.open| ==> |st.open[k]| > 0
        invariant currentParagraph == Join(st.open, " ")
        invariant story == LetterItems(JoinRuns(st.closed))
      {
        ReflowPrefixStep(Fresh, lines, i);
        JoinEnds(st.open, " ");
        var line := Strip(lines[i]);
        if line == [] {
          if currentParagraph != [] {
            LetterItemsSnoc(st.closed, st.open);
            story := story + [Paragraph(currentParagraph, LetterBodyStyle)];
            currentParagraph := [];
          }
        } else {
          if currentParagraph != [] {
            JoinSnoc(st.open, line, " ");
            currentParagraph := currentParagraph + " " + line;
          } else {
            currentParagraph := line;
          }
        }
        st := ReflowStep(st, lines[i]);
      }
      assert lines[..|lines|] == lines;
      JoinEnds(st.open, " ");
      if currentParagraph != [] {
        LetterItemsSnoc(st.closed, st.open);
        story := story + [Paragraph(currentParagraph, LetterBodyStyle)];
      }
    }

    /** `create_pdf_from_text`. `makeDirs` stands for how `os.makedirs` ends
        and `build` for the library's build of a story into a file. */
    method CreatePdfFromText(textContent: String, outputFile: String, title: String,
                             makeDirs: Outcome, build: (String, Story) -> BuildOutcome)
      returns (message: String)
      modifies this
      ensures !reportlabAvailable ==>
        message == TextPdfUnavailable && lastGeneratedFile == old(lastGeneratedFile)
      ensures reportlabAvailable ==>
        var outcome := Attempt(outputFile, makeDirs, build(outputFile, TextStory(title, textContent)));
        message == Report(PdfCreatedLead, PdfErrorLead, outputFile, outcome) &&
        lastGeneratedFile == if outcome.Built? then outputFile else old(lastGeneratedFile)
    {
      if !reportlabAvailable {
        return TextPdfUnavailable;
      }
      var dirPath := Dirname(outputFile);
      if dirPath != [] && makeDirs.Raised? {
        return PdfErrorLead + makeDirs.reason;
      }
      var story := BuildTextStory(title, textContent);
      var built := build(outputFile, story);
      match built
      case BuildRaised(e) =>
        message := PdfErrorLead + e;
      case Built(fileExists, fileSize) =>
        lastGeneratedFile := outputFile;
        if fileExists {
          message := PdfCreatedLead + outputFile + SizeOpen + NatToString(fileSize) + SizeClose;
        } else {
          message := NotCreatedLead + outputFile;
        }
    }

    /** `create_cover_letter_pdf`; the applicant, position and company it is
        given are not used. */
    method CreateCoverLetterPdf(coverLetterText: String, outputFile: String,
                                makeDirs: Outcome, build: (String, Story) -> BuildOutcome)
      returns (message: String)
      modifies this
      ensures !reportlabAvailable ==>
        message == LetterPdfUnavailable && lastGeneratedFile == old(lastGeneratedFile)
      ensures reportlabAvailable ==>
        var outcome := Attempt(outputFile, makeDirs, build(outputFile, LetterStory(coverLetterText)));
        message == Report(LetterPdfCreatedLead, LetterPdfErrorLead, outputFile, outcome) &&
        lastGeneratedFile == if outcome.Built? then outputFile else old(lastGeneratedFile)
    {
      if !reportlabAvailable {
        return LetterPdfUnavailable;
      }
      var dirPath := Dirname(outputFile);
      if dirPath != [] && makeDirs.Raised? {
        return LetterPdfErrorLead + makeDirs.reason;
      }
      var story := ReflowCoverLetter(coverLetterText);
      var built := build(outputFile, story);
      match built
      case BuildRaised(e) =>
        message := LetterPdfErrorLead + e;
      case Built(fileExists, fileSize) =>
        lastGeneratedFile := outputFile;
        if fileExists {
          message := LetterPdfCreatedLead + outputFile + SizeOpen + NatToString(fileSize) + SizeClose;
        } else {
          message := NotCreatedLead + outputFile;
        }
    }

    /** `text_to_pdf`. `fileExists` is whether the text file exists and `read`
        how reading it ended; the PDF is written to the given path or, when
        none is given, next to the text file with the extension `.pdf`, under
        the text file's base name as title. */
    method TextToPdf(textFilePath: String, pdfOutputPath: String, fileExists: bool, read: ReadOutcome,
                     makeDirs: Outcome, build: (String, Story) -> BuildOutcome)
      returns (message: String)
      modifies this
      ensures !fileExists ==>
        message == TextNotFoundLead + textFilePath && lastGeneratedFile == old(lastGeneratedFile)
      ensures fileExists && read.ReadRaised? ==>
        message == ConvertErrorLead + read.reason && lastGeneratedFile == old(lastGeneratedFile)
      ensures fileExists && read.ReadText? && !reportlabAvailable ==>
        message == TextPdfUnavailable && lastGeneratedFile == old(lastGeneratedFile)
      ensures fileExists && read.ReadText? && reportlabAvailable ==>
        var output := OutputPath(textFilePath, pdfOutputPath);
        var outcome := Attempt(output, makeDirs,
          build(output, TextStory(Basename(textFilePath), read.content)));
        message == Report(PdfCreatedLead, PdfErrorLead, output, outcome) &&
        lastGeneratedFile == if outcome.Built? then output else old(lastGeneratedFile)
    {
      if !fileExists {
        return TextNotFoundLead + textFilePath;
      }
      var output := pdfOutputPath;
      if output == [] {
        var baseName := Splitext(textFilePath).0;
        output := baseName + PdfExtension;
      }
      match read
      case ReadRaised(e) =>
        message := ConvertErrorLead + e;
      case ReadText(textContent) =>
        message := CreatePdfFromText(textContent, output, Basename(textFilePath), makeDirs, build);
    }

    /** `get_last_generated_file` */
    function GetLastGeneratedFile(): (r: String)
      reads this
      ensures r != []
      ensures lastGeneratedFile != [] ==> r == lastGeneratedFile
      ensures lastGeneratedFile == [] ==> r == NoPdfYet
    {
      if lastGeneratedFile != [] then lastGeneratedFile else NoPdfYet
    }
  }
}
